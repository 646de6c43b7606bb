/**
 * The request validator of backend/app/routes.py: `validate_date`,
 * `validate_numeric` and `validate_input`. `validate_input` looks at eleven
 * fields in a fixed order; each field adds one message to `errors` or one
 * entry to `validated_data`, and an exception raised while a field is checked
 * leaves the validator altogether.
 */
module Validation {
  import opened Wrappers
  import opened Strings
  import opened PyRuntime
  import opened Dates

  /** A value stored in `validated_data`. */
  datatype Checked = DateVal(date: Date) | TextVal(text: string) | RealVal(x: real) | IntVal(n: int)

  /** What a field check gives back: `(True, value)` or `(False, message)`. */
  datatype Verdict<+T> = Accepted(value: T) | Rejected(message: string)

  /** The triple `(is_valid, errors, validated_data)` that `validate_input` returns. */
  datatype ValidationResult = ValidationResult(isValid: bool, errors: seq<string>, validated: map<string, Checked>)

  const FutureDateMessage := "Date cannot be in the future"
  const DateFormatMessage := "Invalid date format. Use YYYY-MM-DD"

  const Departments: seq<string> := ["Sewing", "Finishing", "Cutting", "QC"]
  const IncentiveLevels: seq<string> := ["None", "Low", "Standard", "High"]

  /** `validate_date`, with `date.today()` passed in. */
  function ValidateDate(v: Value, today: Date): (r: Outcome<Verdict<Date>>)
    ensures r.Return? <==> v.Str?
    ensures r.Raise? ==> r.error.TypeError?
    ensures r.Return? && r.value.Accepted? ==>
      ParseIsoDate(v.s) == Some(r.value.value) && !After(r.value.value, today)
    ensures v.Str? && ParseIsoDate(v.s).None? ==> r == Return(Rejected(DateFormatMessage))
    ensures v.Str? && ParseIsoDate(v.s).Some? && After(ParseIsoDate(v.s).value, today) ==>
      r == Return(Rejected(FutureDateMessage))
    ensures v.Str? && ParseIsoDate(v.s).Some? && !After(ParseIsoDate(v.s).value, today) ==>
      r == Return(Accepted(ParseIsoDate(v.s).value))
  {
    match v
    case Str(s) =>
      (match ParseIsoDate(s)
       case None => Return(Rejected(DateFormatMessage))
       case Some(d) => if After(d, today) then Return(Rejected(FutureDateMessage)) else Return(Accepted(d)))
    case Num(_) => Raise(TypeError("strptime() argument 1 must be str, not float"))
    case Null => Raise(TypeError("strptime() argument 1 must be str, not None"))
  }

  /** A date written YYYY-MM-DD is accepted exactly when it is not after today. */
  lemma ValidateIsoDate(d: Date, today: Date)
    requires IsValidDate(d)
    ensures ValidateDate(Str(IsoFormat(d)), today) ==
      if After(d, today) then Return(Rejected(FutureDateMessage)) else Return(Accepted(d))
  {
    ParseIsoFormat(d);
  }

  /** `validate_numeric`: the lower bound is tested before the upper bound. */
  function ValidateNumeric(v: Value, name: string, minVal: Option<int>, maxVal: Option<int>): (r: Outcome<Verdict<real>>)
    ensures r.Raise? <==> v.Null?
    ensures r.Return? && r.value.Accepted? ==>
      && Float(v) == Return(r.value.value)
      && (minVal.Some? ==> minVal.value as real <= r.value.value)
      && (maxVal.Some? ==> r.value.value <= maxVal.value as real)
    ensures v.Str? && DecimalValue(v.s).None? ==> r == Return(Rejected(name + " must be a number"))
    ensures Float(v).Return? && minVal.Some? && Float(v).value < minVal.value as real ==>
      r == Return(Rejected(name + " must be at least " + ShowInt(minVal.value)))
    ensures (Float(v).Return? && (minVal.Some? ==> minVal.value as real <= Float(v).value)
      && maxVal.Some? && Float(v).value > maxVal.value as real) ==>
      r == Return(Rejected(name + " cannot exceed " + ShowInt(maxVal.value)))
    ensures (Float(v).Return? && (minVal.Some? ==> minVal.value as real <= Float(v).value)
      && (maxVal.Some? ==> Float(v).value <= maxVal.value as real)) ==>
      r == Return(Accepted(Float(v).value))
  {
    match Float(v)
    case Raise(e) => if e.ValueError? then Return(Rejected(name + " must be a number")) else Raise(e)
    case Return(x) =>
      if minVal.Some? && x < minVal.value as real then
        Return(Rejected(name + " must be at least " + ShowInt(minVal.value)))
      else if maxVal.Some? && x > maxVal.value as real then
        Return(Rejected(name + " cannot exceed " + ShowInt(maxVal.value)))
      else
        Return(Accepted(x))
  }

  /**
   * A value `float` can read is accepted, as that number, exactly when the
   * number lies within the bounds; otherwise it is rejected with a message.
   */
  lemma ValidateNumericBounds(v: Value, name: string, minVal: Option<int>, maxVal: Option<int>)
    requires Float(v).Return?
    ensures var x := Float(v).value;
      var inBounds := (minVal.Some? ==> minVal.value as real <= x) && (maxVal.Some? ==> x <= maxVal.value as real);
      && (ValidateNumeric(v, name, minVal, maxVal) == Return(Accepted(x)) <==> inBounds)
      && (!inBounds ==> ValidateNumeric(v, name, minVal, maxVal).Return? && ValidateNumeric(v, name, minVal, maxVal).value.Rejected?)
  {
    var x := Float(v).value;
    if minVal.Some? && x < minVal.value as real {
      assert ValidateNumeric(v, name, minVal, maxVal) == Return(Rejected(name + " must be at least " + ShowInt(minVal.value)));
    } else if maxVal.Some? && x > maxVal.value as real {
      assert ValidateNumeric(v, name, minVal, maxVal) == Return(Rejected(name + " cannot exceed " + ShowInt(maxVal.value)));
    }
  }

  /** A whole number is judged the same whether it arrives as a number or as its decimal string. */
  lemma ValidateNumericIntString(i: int, name: string, minVal: Option<int>, maxVal: Option<int>)
    ensures ValidateNumeric(Str(ShowInt(i)), name, minVal, maxVal) == ValidateNumeric(Num(i as real), name, minVal, maxVal)
  {
    DecimalValueShowInt(i);
  }

  /** The membership checks of department and incentive level (`x not in [...]`). */
  function CheckChoice(v: Value, choices: seq<string>, message: string): (r: Verdict<string>)
    ensures r.Accepted? <==> v.Str? && v.s in choices
    ensures r.Accepted? ==> r.value == v.s
    ensures r.Rejected? ==> r.message == message
  {
    if v.Str? && v.s in choices then Accepted(v.s) else Rejected(message)
  }

  /** The team check `team.startswith("Team ")`; a value that is not a string has no `startswith`. */
  function CheckTeam(v: Value): (r: Outcome<Verdict<string>>)
    ensures r.Raise? <==> !v.Str?
    ensures r.Return? ==> (r.value.Accepted? <==> StartsWith(v.s, "Team "))
    ensures r.Return? && r.value.Accepted? ==> r.value.value == v.s
    ensures r.Return? && r.value.Rejected? ==> r.value.message == "Invalid team format. Should be 'Team X'"
  {
    match v
    case Str(s) =>
      if StartsWith(s, "Team ") then Return(Accepted(s)) else Return(Rejected("Invalid team format. Should be 'Team X'"))
    case _ => Raise(AttributeError("'" + TypeName(v) + "' object has no attribute 'startswith'"))
  }

  // The eleven fields, in the order validate_input checks them.

  const NumFields := 11

  const FieldNames: seq<string> := [
    "date", "department", "team", "targeted_productivity", "smv_minutes", "over_time_hours",
    "incentive_level", "idle_time_minutes", "idle_men_count", "style_change_count", "worker_count"]

  /** The subject of each field's messages ("… is required", "… must be a number"). */
  const FieldLabels: seq<string> := [
    "Date", "Department", "Team", "Targeted productivity", "SMV minutes", "Overtime hours",
    "Incentive level", "Idle time minutes", "Idle men count", "Style change count", "Worker count"]

  function RequiredMessage(k: nat): string
    requires k < NumFields
  {
    FieldLabels[k] + " is required"
  }

  lemma FieldNamesDistinct()
    ensures |FieldNames| == NumFields
    ensures forall i, j :: 0 <= i < j < NumFields ==> FieldNames[i] != FieldNames[j]
  {
  }

  function DateChecked(o: Outcome<Verdict<Date>>): Outcome<Verdict<Checked>>
  {
    match o
    case Raise(e) => Raise(e)
    case Return(Rejected(m)) => Return(Rejected(m))
    case Return(Accepted(d)) => Return(Accepted(DateVal(d)))
  }

  function TextChecked(o: Outcome<Verdict<string>>): Outcome<Verdict<Checked>>
  {
    match o
    case Raise(e) => Raise(e)
    case Return(Rejected(m)) => Return(Rejected(m))
    case Return(Accepted(s)) => Return(Accepted(TextVal(s)))
  }

  function RealChecked(o: Outcome<Verdict<real>>): Outcome<Verdict<Checked>>
  {
    match o
    case Raise(e) => Raise(e)
    case Return(Rejected(m)) => Return(Rejected(m))
    case Return(Accepted(x)) => Return(Accepted(RealVal(x)))
  }

  /** The counts are stored as `int(value)`. */
  function IntChecked(o: Outcome<Verdict<real>>): Outcome<Verdict<Checked>>
  {
    match o
    case Raise(e) => Raise(e)
    case Return(Rejected(m)) => Return(Rejected(m))
    case Return(Accepted(x)) => Return(Accepted(IntVal(Trunc(x))))
  }

  /** The check validate_input applies to field `k`. */
  function CheckField(k: nat, data: map<string, Value>, today: Date): (r: Outcome<Verdict<Checked>>)
    requires k < NumFields
    ensures r.Raise? ==> FieldNames[k] in data
    ensures r.Raise? && k == 2 ==> r.error.AttributeError?
    ensures r.Raise? && k != 2 ==> r.error.TypeError?
  {
    if FieldNames[k] !in data then Return(Rejected(RequiredMessage(k)))
    else
      var v := data[FieldNames[k]];
      if k == 0 then DateChecked(ValidateDate(v, today))
      else if k == 1 then TextChecked(Return(CheckChoice(v, Departments, "Invalid department")))
      else if k == 2 then TextChecked(CheckTeam(v))
      else if k == 3 then RealChecked(ValidateNumeric(v, "Targeted productivity", Some(0), Some(150)))
      else if k == 4 then RealChecked(ValidateNumeric(v, "SMV minutes", Some(0), None))
      else if k == 5 then RealChecked(ValidateNumeric(v, "Overtime hours", Some(0), Some(8)))
      else if k == 6 then TextChecked(Return(CheckChoice(v, IncentiveLevels, "Invalid incentive level")))
      else if k == 7 then RealChecked(ValidateNumeric(v, "Idle time minutes", Some(0), None))
      else if k == 8 then IntChecked(ValidateNumeric(v, "Idle men count", Some(0), None))
      else if k == 9 then IntChecked(ValidateNumeric(v, "Style change count", Some(0), None))
      else IntChecked(ValidateNumeric(v, "Worker count", Some(1), None))
  }

  /** What an accepted value of field `k` looks like. */
  predicate FieldOk(k: nat, c: Checked)
    requires k < NumFields
  {
    if k == 0 then c.DateVal? && IsValidDate(c.date)
    else if k == 1 then c.TextVal? && c.text in Departments
    else if k == 2 then c.TextVal? && StartsWith(c.text, "Team ")
    else if k == 3 then c.RealVal? && 0.0 <= c.x <= 150.0
    else if k == 5 then c.RealVal? && 0.0 <= c.x <= 8.0
    else if k == 4 || k == 7 then c.RealVal? && 0.0 <= c.x
    else if k == 6 then c.TextVal? && c.text in IncentiveLevels
    else if k == 10 then c.IntVal? && c.n >= 1
    else c.IntVal? && c.n >= 0
  }

  /** Every accepted value has its field's kind and respects its field's bounds. */
  lemma CheckFieldAccepted(k: nat, data: map<string, Value>, today: Date)
    requires k < NumFields
    ensures CheckField(k, data, today).Return? && CheckField(k, data, today).value.Accepted? ==>
      FieldOk(k, CheckField(k, data, today).value.value)
  {
  }

  /** A missing field is reported as required, whatever else the record holds. */
  lemma CheckFieldMissing(k: nat, data: map<string, Value>, today: Date)
    requires k < NumFields && FieldNames[k] !in data
    ensures CheckField(k, data, today) == Return(Rejected(RequiredMessage(k)))
  {
  }

  /** The state of `errors` and `validated_data` after some fields. */
  datatype Progress = Progress(errors: seq<string>, validated: map<string, Checked>)

  /** The verdicts of the eleven field checks, in order. */
  function FieldChecks(data: map<string, Value>, today: Date): (cs: seq<Outcome<Verdict<Checked>>>)
    ensures |cs| == NumFields
    ensures forall k :: 0 <= k < NumFields ==> cs[k] == CheckField(k, data, today)
  {
    seq(NumFields, k requires 0 <= k < NumFields => CheckField(k, data, today))
  }

  /**
   * One field's turn: a rejection appends its message to `errors`, an
   * acceptance stores the value under the field's name, an exception ends the run.
   */
  function Absorb(p: Progress, name: string, o: Outcome<Verdict<Checked>>): (r: Outcome<Progress>)
    ensures r.Raise? <==> o.Raise?
    ensures o.Return? && o.value.Rejected? ==> r == Return(Progress(p.errors + [o.value.message], p.validated))
    ensures o.Return? && o.value.Accepted? ==> r == Return(Progress(p.errors, p.validated[name := o.value.value]))
  {
    match o
    case Raise(e) => Raise(e)
    case Return(Rejected(m)) => Return(Progress(p.errors + [m], p.validated))
    case Return(Accepted(c)) => Return(Progress(p.errors, p.validated[name := c]))
  }

  /** Running the first `n` checks one after the other, from no errors and no values. */
  function Collect(names: seq<string>, checks: seq<Outcome<Verdict<Checked>>>, n: nat): Outcome<Progress>
    requires n <= |checks| == |names|
  {
    if n == 0 then Return(Progress([], map[]))
    else
      match Collect(names, checks, n - 1)
      case Raise(e) => Raise(e)
      case Return(p) => Absorb(p, names[n - 1], checks[n - 1])
  }

  /** Once a check raises, the exception is what the run ends with. */
  lemma {:induction false} RaisePersists(names: seq<string>, checks: seq<Outcome<Verdict<Checked>>>, n: nat, m: nat)
    requires n <= m <= |checks| == |names| && Collect(names, checks, n).Raise?
    ensures Collect(names, checks, m) == Collect(names, checks, n)
    decreases m - n
  {
    if n < m {
      RaisePersists(names, checks, n, m - 1);
    }
  }

  /** The run ends without an exception exactly when no check raised. */
  lemma {:induction false} CollectReturns(names: seq<string>, checks: seq<Outcome<Verdict<Checked>>>, n: nat)
    requires n <= |checks| == |names|
    ensures Collect(names, checks, n).Return? <==> forall k :: 0 <= k < n ==> checks[k].Return?
  {
    if n > 0 {
      CollectReturns(names, checks, n - 1);
      if Collect(names, checks, n - 1).Raise? {
        RaisePersists(names, checks, n - 1, n);
      }
    }
  }

  /** Each of the first `n` fields leaves one message or one value, and only those fields are stored. */
  lemma {:induction false} CollectCount(names: seq<string>, checks: seq<Outcome<Verdict<Checked>>>, n: nat)
    requires n <= |checks| == |names|
    requires forall i, j :: 0 <= i < j < |names| ==> names[i] != names[j]
    ensures Collect(names, checks, n).Return? ==>
      && |Collect(names, checks, n).value.errors| + |Collect(names, checks, n).value.validated| == n
      && forall key :: key in Collect(names, checks, n).value.validated ==> key in names[..n]
  {
    if n > 0 && Collect(names, checks, n).Return? {
      CollectCount(names, checks, n - 1);
      var p := Collect(names, checks, n - 1).value;
      assert names[..n] == names[..n - 1] + [names[n - 1]];
      assert names[n - 1] !in names[..n - 1];
    }
  }

  /**
   * Field `k` of the first `n` is stored exactly when its check accepted it,
   * with the accepted value, and its message is in `errors` when it was rejected.
   */
  lemma {:induction false} CollectField(names: seq<string>, checks: seq<Outcome<Verdict<Checked>>>, n: nat, k: nat)
    requires k < n <= |checks| == |names|
    requires forall i, j :: 0 <= i < j < |names| ==> names[i] != names[j]
    requires Collect(names, checks, n).Return?
    ensures checks[k].Return?
    ensures var p := Collect(names, checks, n).value;
      && (names[k] in p.validated <==> checks[k].value.Accepted?)
      && (checks[k].value.Accepted? ==> p.validated[names[k]] == checks[k].value.value)
      && (checks[k].value.Rejected? ==> checks[k].value.message in p.errors)
  {
    CollectReturns(names, checks, n);
    if k == n - 1 {
      CollectCount(names, checks, n - 1);
      assert names[k] !in names[..n - 1];
    } else {
      CollectField(names, checks, n - 1, k);
    }
  }

  /** `validate_input`, as the value it computes. */
  function Validate(data: map<string, Value>, today: Date): (r: Outcome<ValidationResult>)
    ensures r.Return? ==> (r.value.isValid <==> r.value.errors == [])
    ensures r.Return? ==> |r.value.errors| + |r.value.validated| == NumFields
    ensures r.Return? ==> |r.value.errors| <= NumFields
    ensures r.Return? && r.value.isValid ==> WellFormed(r.value.validated)
  {
    var checks := FieldChecks(data, today);
    FieldNamesDistinct();
    CollectReturns(FieldNames, checks, NumFields);
    CollectCount(FieldNames, checks, NumFields);
    match Collect(FieldNames, checks, NumFields)
    case Raise(e) => Raise(e)
    case Return(p) =>
      var r := ValidationResult(|p.errors| == 0, p.errors, p.validated);
      assert r.isValid ==> WellFormed(r.validated) by {
        if r.isValid {
          forall k | 0 <= k < NumFields
            ensures FieldNames[k] in p.validated && FieldOk(k, p.validated[FieldNames[k]]) {
            CheckFieldAccepted(k, data, today);
            CollectField(FieldNames, checks, NumFields, k);
            assert checks[k].value.Accepted?;
          }
          Complete(p.validated);
        }
      }
      Return(r)
  }

  /**
   * What the rest of the backend may assume of `validated_data` when
   * `is_valid` holds: all eleven fields, each of its kind and within its bounds.
   */
  predicate WellFormed(vd: map<string, Checked>)
  {
    && "date" in vd && FieldOk(0, vd["date"])
    && "department" in vd && FieldOk(1, vd["department"])
    && "team" in vd && FieldOk(2, vd["team"])
    && "targeted_productivity" in vd && FieldOk(3, vd["targeted_productivity"])
    && "smv_minutes" in vd && FieldOk(4, vd["smv_minutes"])
    && "over_time_hours" in vd && FieldOk(5, vd["over_time_hours"])
    && "incentive_level" in vd && FieldOk(6, vd["incentive_level"])
    && "idle_time_minutes" in vd && FieldOk(7, vd["idle_time_minutes"])
    && "idle_men_count" in vd && FieldOk(8, vd["idle_men_count"])
    && "style_change_count" in vd && FieldOk(9, vd["style_change_count"])
    && "worker_count" in vd && FieldOk(10, vd["worker_count"])
  }

  lemma Complete(vd: map<string, Checked>)
    requires forall k :: 0 <= k < NumFields ==> FieldNames[k] in vd && FieldOk(k, vd[FieldNames[k]])
    ensures WellFormed(vd)
  {
    assert FieldNames[0] in vd && FieldNames[1] in vd && FieldNames[2] in vd && FieldNames[3] in vd;
    assert FieldNames[4] in vd && FieldNames[5] in vd && FieldNames[6] in vd && FieldNames[7] in vd;
    assert FieldNames[8] in vd && FieldNames[9] in vd && FieldNames[10] in vd;
  }

  /**
   * Field by field: a field ends up in `validated_data` exactly when its check
   * accepts it, with the accepted value, and otherwise its message is in `errors`.
   */
  lemma ValidateField(data: map<string, Value>, today: Date, k: nat)
    requires k < NumFields && Validate(data, today).Return?
    ensures var v := Validate(data, today).value;
      && CheckField(k, data, today).Return?
      && (FieldNames[k] in v.validated <==> CheckField(k, data, today).value.Accepted?)
      && (FieldNames[k] in v.validated ==> v.validated[FieldNames[k]] == CheckField(k, data, today).value.value)
      && (FieldNames[k] !in v.validated ==> CheckField(k, data, today).value.message in v.errors)
  {
    FieldNamesDistinct();
    CollectField(FieldNames, FieldChecks(data, today), NumFields, k);
  }

  /** validate_input raises exactly when one of the field checks raises. */
  lemma ValidateRaises(data: map<string, Value>, today: Date)
    ensures Validate(data, today).Raise? <==>
      exists k :: 0 <= k < NumFields && CheckField(k, data, today).Raise?
  {
    CollectReturns(FieldNames, FieldChecks(data, today), NumFields);
  }

  /** A missing key gives its "… is required" message. */
  lemma MissingFieldRequired(data: map<string, Value>, today: Date, k: nat)
    requires k < NumFields && FieldNames[k] !in data && Validate(data, today).Return?
    ensures RequiredMessage(k) in Validate(data, today).value.errors
    ensures FieldNames[k] !in Validate(data, today).value.validated
  {
    ValidateField(data, today, k);
  }

  /** The department is accepted only when it is one of the four departments. */
  lemma DepartmentAccepted(data: map<string, Value>, today: Date)
    requires Validate(data, today).Return?
    ensures var v := Validate(data, today).value;
      "department" in v.validated <==>
        "department" in data && data["department"].Str? && data["department"].s in Departments
  {
    ValidateField(data, today, 1);
  }

  /** The incentive level is accepted only when it is one of the four levels. */
  lemma IncentiveAccepted(data: map<string, Value>, today: Date)
    requires Validate(data, today).Return?
    ensures var v := Validate(data, today).value;
      "incentive_level" in v.validated <==>
        "incentive_level" in data && data["incentive_level"].Str? && data["incentive_level"].s in IncentiveLevels
  {
    ValidateField(data, today, 6);
  }

  /** The team is accepted only when it starts with "Team ". */
  lemma TeamAccepted(data: map<string, Value>, today: Date)
    requires Validate(data, today).Return?
    ensures var v := Validate(data, today).value;
      "team" in v.validated <==> "team" in data && data["team"].Str? && StartsWith(data["team"].s, "Team ")
  {
    ValidateField(data, today, 2);
  }

  /** Every numeric value in `validated_data` lies within its field's bounds. */
  lemma NumericBounds(data: map<string, Value>, today: Date)
    requires Validate(data, today).Return?
    ensures var vd := Validate(data, today).value.validated;
      && ("targeted_productivity" in vd ==> vd["targeted_productivity"].RealVal? && 0.0 <= vd["targeted_productivity"].x <= 150.0)
      && ("smv_minutes" in vd ==> vd["smv_minutes"].RealVal? && 0.0 <= vd["smv_minutes"].x)
      && ("over_time_hours" in vd ==> vd["over_time_hours"].RealVal? && 0.0 <= vd["over_time_hours"].x <= 8.0)
      && ("idle_time_minutes" in vd ==> vd["idle_time_minutes"].RealVal? && 0.0 <= vd["idle_time_minutes"].x)
      && ("idle_men_count" in vd ==> vd["idle_men_count"].IntVal? && 0 <= vd["idle_men_count"].n)
      && ("style_change_count" in vd ==> vd["style_change_count"].IntVal? && 0 <= vd["style_change_count"].n)
      && ("worker_count" in vd ==> vd["worker_count"].IntVal? && 1 <= vd["worker_count"].n)
  {
    ValidateField(data, today, 3); CheckFieldAccepted(3, data, today);
    ValidateField(data, today, 4); CheckFieldAccepted(4, data, today);
    ValidateField(data, today, 5); CheckFieldAccepted(5, data, today);
    ValidateField(data, today, 7); CheckFieldAccepted(7, data, today);
    ValidateField(data, today, 8); CheckFieldAccepted(8, data, today);
    ValidateField(data, today, 9); CheckFieldAccepted(9, data, today);
    ValidateField(data, today, 10); CheckFieldAccepted(10, data, today);
  }

  /** A date in `validated_data` is a real date that is not after today. */
  lemma DateAccepted(data: map<string, Value>, today: Date)
    requires Validate(data, today).Return?
    ensures var vd := Validate(data, today).value.validated;
      "date" in vd <==>
        "date" in data && data["date"].Str? && ParseIsoDate(data["date"].s).Some? && !After(ParseIsoDate(data["date"].s).value, today)
  {
    ValidateField(data, today, 0);
  }

  // validate_input, written as the source writes it: one block per field.
  // Each kind of block is a method that takes `errors` and `validated_data`
  // as they stand and gives them back with the field's turn taken.

  /** The date block. */
  method DateBlock(data: map<string, Value>, today: Date, p: Progress) returns (r: Outcome<Progress>)
    ensures r == Absorb(p, FieldNames[0], CheckField(0, data, today))
  {
    var errors, validated := p.errors, p.validated;
    if "date" in data {
      match ValidateDate(data["date"], today) {
        case Raise(e) => return Raise(e);
        case Return(Rejected(m)) => errors := errors + [m];
        case Return(Accepted(d)) => validated := validated["date" := DateVal(d)];
      }
    } else {
      errors := errors + ["Date is required"];
      assert "Date is required" == RequiredMessage(0);
    }
    return Return(Progress(errors, validated));
  }

  /** The department and incentive-level blocks: membership in a fixed list. */
  method ChoiceBlock(data: map<string, Value>, today: Date, k: nat, choices: seq<string>, message: string,
                     p: Progress) returns (r: Outcome<Progress>)
    requires (k, choices, message) == (1, Departments, "Invalid department")
          || (k, choices, message) == (6, IncentiveLevels, "Invalid incentive level")
    ensures r == Absorb(p, FieldNames[k], CheckField(k, data, today))
  {
    var key := FieldNames[k];
    var errors, validated := p.errors, p.validated;
    if key in data {
      var choice := data[key];
      if !(choice.Str? && choice.s in choices) {
        errors := errors + [message];
      } else {
        validated := validated[key := TextVal(choice.s)];
      }
    } else {
      errors := errors + [FieldLabels[k] + " is required"];
    }
    return Return(Progress(errors, validated));
  }

  /** The team block. */
  method TeamBlock(data: map<string, Value>, today: Date, p: Progress) returns (r: Outcome<Progress>)
    ensures r == Absorb(p, FieldNames[2], CheckField(2, data, today))
  {
    var errors, validated := p.errors, p.validated;
    if "team" in data {
      var team := data["team"];
      if !team.Str? {
        return Raise(AttributeError("'" + TypeName(team) + "' object has no attribute 'startswith'"));
      }
      if !StartsWith(team.s, "Team ") {
        errors := errors + ["Invalid team format. Should be 'Team X'"];
      } else {
        validated := validated["team" := TextVal(team.s)];
      }
    } else {
      errors := errors + ["Team is required"];
      assert "Team is required" == RequiredMessage(2);
    }
    return Return(Progress(errors, validated));
  }

  /** The blocks that call validate_numeric; the three counts store `int(value)`. */
  method NumericBlock(data: map<string, Value>, today: Date, k: nat, minVal: Option<int>, maxVal: Option<int>,
                      p: Progress) returns (r: Outcome<Progress>)
    requires var bounds := (k, minVal, maxVal);
      || bounds == (3, Some(0), Some(150)) || bounds == (4, Some(0), None) || bounds == (5, Some(0), Some(8))
      || bounds == (7, Some(0), None) || bounds == (8, Some(0), None) || bounds == (9, Some(0), None)
      || bounds == (10, Some(1), None)
    ensures r == Absorb(p, FieldNames[k], CheckField(k, data, today))
  {
    var key, name := FieldNames[k], FieldLabels[k];
    var errors, validated := p.errors, p.validated;
    if key in data {
      match ValidateNumeric(data[key], name, minVal, maxVal) {
        case Raise(e) => return Raise(e);
        case Return(Rejected(m)) => errors := errors + [m];
        case Return(Accepted(x)) =>
          validated := validated[key := if k >= 8 then IntVal(Trunc(x)) else RealVal(x)];
      }
    } else {
      errors := errors + [name + " is required"];
    }
    return Return(Progress(errors, validated));
  }

  /** `validate_input`: the eleven blocks in order; an exception leaves at once. */
  method ValidateInput(data: map<string, Value>, today: Date) returns (r: Outcome<ValidationResult>)
    ensures r == Validate(data, today)
  {
    ghost var checks := FieldChecks(data, today);
    FieldNamesDistinct();
    var p := Progress([], map[]);
    var step: Outcome<Progress>;

    step := DateBlock(data, today, p);
    assert step == Collect(FieldNames, checks, 1);
    if step.Raise? { RaisePersists(FieldNames, checks, 1, NumFields); return Raise(step.error); }
    p := step.value;

    step := ChoiceBlock(data, today, 1, Departments, "Invalid department", p);
    assert step == Collect(FieldNames, checks, 2);
    if step.Raise? { RaisePersists(FieldNames, checks, 2, NumFields); return Raise(step.error); }
    p := step.value;

    step := TeamBlock(data, today, p);
    assert step == Collect(FieldNames, checks, 3);
    if step.Raise? { RaisePersists(FieldNames, checks, 3, NumFields); return Raise(step.error); }
    p := step.value;

    step := NumericBlock(data, today, 3, Some(0), Some(150), p);
    assert step == Collect(FieldNames, checks, 4);
    if step.Raise? { RaisePersists(FieldNames, checks, 4, NumFields); return Raise(step.error); }
    p := step.value;

    step := NumericBlock(data, today, 4, Some(0), None, p);
    assert step == Collect(FieldNames, checks, 5);
    if step.Raise? { RaisePersists(FieldNames, checks, 5, NumFields); return Raise(step.error); }
    p := step.value;

    step := NumericBlock(data, today, 5, Some(0), Some(8), p);
    assert step == Collect(FieldNames, checks, 6);
    if step.Raise? { RaisePersists(FieldNames, checks, 6, NumFields); return Raise(step.error); }
    p := step.value;

    step := ChoiceBlock(data, today, 6, IncentiveLevels, "Invalid incentive level", p);
    assert step == Collect(FieldNames, checks, 7);
    if step.Raise? { RaisePersists(FieldNames, checks, 7, NumFields); return Raise(step.error); }
    p := step.value;

    step := NumericBlock(data, today, 7, Some(0), None, p);
    assert step == Collect(FieldNames, checks, 8);
    if step.Raise? { RaisePersists(FieldNames, checks, 8, NumFields); return Raise(step.error); }
    p := step.value;

    step := NumericBlock(data, today, 8, Some(0), None, p);
    assert step == Collect(FieldNames, checks, 9);
    if step.Raise? { RaisePersists(FieldNames, checks, 9, NumFields); return Raise(step.error); }
    p := step.value;

    step := NumericBlock(data, today, 9, Some(0), None, p);
    assert step == Collect(FieldNames, checks, 10);
    if step.Raise? { RaisePersists(FieldNames, checks, 10, NumFields); return Raise(step.error); }
    p := step.value;

    step := NumericBlock(data, today, 10, Some(1), None, p);
    assert step == Collect(FieldNames, checks, 11);
    if step.Raise? { return Raise(step.error); }
    p := step.value;

    return Return(ValidationResult(|p.errors| == 0, p.errors, p.validated));
  }

}
