/**
 * The development mock of the API in frontend/app/api/mock/route.ts: a
 * made-up productivity score, a four-band classifier, a batch status read
 * off the batch id, and the GET and POST handlers that dispatch on the path.
 * `Math.random()` is a parameter `rnd` in [0, 1), and the random suffix of a
 * mock batch id is a parameter too.
 */
module MockRoute {
  import opened Wrappers
  import opened Strings
  import ModelInput

  /** The fields of the request body the mock reads. */
  datatype PredictionInput = PredictionInput(
    targetedProductivity: real,
    overTimeHours: real,
    idleTimeMinutes: real,
    styleChangeCount: real,
    incentiveLevel: string)

  /** A multiplier that applies only under its condition. */
  function Factor(applies: bool, f: real): real
  {
    if applies then f else 1.0
  }

  /** The score before the random factor: 80% of the target, then the four adjustments. */
  function Adjusted(d: PredictionInput): (r: real)
    ensures d.targetedProductivity > 0.0 ==> r > 0.0
    ensures d.targetedProductivity <= 0.0 ==> r <= 0.0
  {
    var r := d.targetedProductivity / 100.0 * 0.8
      * Factor(d.overTimeHours > 2.0, 0.9)
      * Factor(d.idleTimeMinutes > 60.0, 0.85)
      * Factor(d.styleChangeCount > 3.0, 0.9)
      * Factor(d.incentiveLevel == "High", 1.15);
    assert r == d.targetedProductivity * Multiplier(d);
    r
  }

  /** `0.9 + Math.random() * 0.2` */
  function RandomFactor(rnd: real): (f: real)
    requires 0.0 <= rnd < 1.0
    ensures 0.9 <= f < 1.1
  {
    0.9 + rnd * 0.2
  }

  /** `Math.min(Math.max(x, 0), 1)` */
  function Clamp01(x: real): (r: real)
    ensures 0.0 <= r <= 1.0
    ensures 0.0 <= x <= 1.0 ==> r == x
    ensures x < 0.0 ==> r == 0.0
    ensures x > 1.0 ==> r == 1.0
  {
    if x < 0.0 then 0.0 else if x > 1.0 then 1.0 else x
  }

  /** What calculateMockProductivity returns for a given random draw. */
  function MockProductivity(d: PredictionInput, rnd: real): (p: real)
    requires 0.0 <= rnd < 1.0
    ensures 0.0 <= p <= 1.0
  {
    Clamp01(Adjusted(d) * RandomFactor(rnd))
  }

  /** `calculateMockProductivity`: the score, adjusted step by step, randomised and clamped. */
  method CalculateMockProductivity(d: PredictionInput, rnd: real) returns (productivity: real)
    requires 0.0 <= rnd < 1.0
    ensures productivity == MockProductivity(d, rnd)
    ensures 0.0 <= productivity <= 1.0
  {
    productivity := (d.targetedProductivity / 100.0) * 0.8;
    if d.overTimeHours > 2.0 {
      productivity := productivity * 0.9;
    }
    if d.idleTimeMinutes > 60.0 {
      productivity := productivity * 0.85;
    }
    if d.styleChangeCount > 3.0 {
      productivity := productivity * 0.9;
    }
    if d.incentiveLevel == "High" {
      productivity := productivity * 1.15;
    }
    productivity := productivity * (0.9 + rnd * 0.2);
    productivity := if productivity < 0.0 then 0.0 else productivity;
    productivity := if productivity > 1.0 then 1.0 else productivity;
  }

  /** The adjustments other than the target, as one positive multiplier. */
  function Multiplier(d: PredictionInput): (m: real)
    ensures m > 0.0
  {
    0.8 / 100.0
      * Factor(d.overTimeHours > 2.0, 0.9)
      * Factor(d.idleTimeMinutes > 60.0, 0.85)
      * Factor(d.styleChangeCount > 3.0, 0.9)
      * Factor(d.incentiveLevel == "High", 1.15)
  }

  /** The pre-random score is the target times a positive multiplier that does not depend on it. */
  lemma AdjustedScales(d: PredictionInput)
    ensures Adjusted(d) == d.targetedProductivity * Multiplier(d)
  {
  }

  /** Overtime lowers the score exactly when it is strictly more than two hours. */
  lemma OvertimePenalty(d: PredictionInput)
    requires d.targetedProductivity > 0.0
    ensures Adjusted(d) < Adjusted(d.(overTimeHours := 0.0)) <==> d.overTimeHours > 2.0
    ensures d.overTimeHours > 2.0 ==> Adjusted(d) == 0.9 * Adjusted(d.(overTimeHours := 0.0))
  {
    var rest := Factor(d.idleTimeMinutes > 60.0, 0.85) * Factor(d.styleChangeCount > 3.0, 0.9)
      * Factor(d.incentiveLevel == "High", 1.15);
    var k := d.targetedProductivity / 100.0 * 0.8;
    PositiveProduct(k, rest);
    assert Adjusted(d.(overTimeHours := 0.0)) == k * rest;
    assert Adjusted(d) == k * Factor(d.overTimeHours > 2.0, 0.9) * rest;
  }

  /** Idle time lowers the score exactly when it is strictly more than sixty minutes. */
  lemma IdlePenalty(d: PredictionInput)
    requires d.targetedProductivity > 0.0
    ensures Adjusted(d) < Adjusted(d.(idleTimeMinutes := 0.0)) <==> d.idleTimeMinutes > 60.0
    ensures d.idleTimeMinutes > 60.0 ==> Adjusted(d) == 0.85 * Adjusted(d.(idleTimeMinutes := 0.0))
  {
    var k := d.targetedProductivity / 100.0 * 0.8 * Factor(d.overTimeHours > 2.0, 0.9);
    var rest := Factor(d.styleChangeCount > 3.0, 0.9) * Factor(d.incentiveLevel == "High", 1.15);
    PositiveProduct(k, rest);
    assert Adjusted(d.(idleTimeMinutes := 0.0)) == k * rest;
    assert Adjusted(d) == k * Factor(d.idleTimeMinutes > 60.0, 0.85) * rest;
  }

  /** Style changes lower the score exactly when there are strictly more than three. */
  lemma StylePenalty(d: PredictionInput)
    requires d.targetedProductivity > 0.0
    ensures Adjusted(d) < Adjusted(d.(styleChangeCount := 0.0)) <==> d.styleChangeCount > 3.0
    ensures d.styleChangeCount > 3.0 ==> Adjusted(d) == 0.9 * Adjusted(d.(styleChangeCount := 0.0))
  {
    var k := d.targetedProductivity / 100.0 * 0.8 * Factor(d.overTimeHours > 2.0, 0.9)
      * Factor(d.idleTimeMinutes > 60.0, 0.85);
    var rest := Factor(d.incentiveLevel == "High", 1.15);
    PositiveProduct(k, rest);
    assert Adjusted(d.(styleChangeCount := 0.0)) == k * rest;
    assert Adjusted(d) == k * Factor(d.styleChangeCount > 3.0, 0.9) * rest;
  }

  /** The incentive raises the score exactly when it is "High". */
  lemma IncentiveBonus(d: PredictionInput)
    requires d.targetedProductivity > 0.0
    ensures Adjusted(d) > Adjusted(d.(incentiveLevel := "None")) <==> d.incentiveLevel == "High"
    ensures d.incentiveLevel == "High" ==> Adjusted(d) == 1.15 * Adjusted(d.(incentiveLevel := "None"))
  {
    var k := d.targetedProductivity / 100.0 * 0.8 * Factor(d.overTimeHours > 2.0, 0.9)
      * Factor(d.idleTimeMinutes > 60.0, 0.85) * Factor(d.styleChangeCount > 3.0, 0.9);
    PositiveProduct(k, 1.0);
    assert Adjusted(d.(incentiveLevel := "None")) == k;
  }

  lemma PositiveProduct(a: real, b: real)
    requires a > 0.0 && b > 0.0
    ensures a * b > 0.0
  {
  }

  /** A higher target never gives a lower mock score, for the same draw and other fields. */
  lemma MockMonotone(d: PredictionInput, t: real, rnd: real)
    requires 0.0 <= rnd < 1.0 && d.targetedProductivity <= t
    ensures MockProductivity(d, rnd) <= MockProductivity(d.(targetedProductivity := t), rnd)
  {
    var e := d.(targetedProductivity := t);
    AdjustedMonotone(d, t);
    var x, y, f := Adjusted(d), Adjusted(e), RandomFactor(rnd);
    assert MockProductivity(d, rnd) == Clamp01(x * f);
    assert MockProductivity(e, rnd) == Clamp01(y * f);
    ScaledClampMonotone(x, y, f);
  }

  /** Scaling two ordered values by the same non-negative factor and clamping keeps their order. */
  lemma ScaledClampMonotone(x: real, y: real, f: real)
    requires x <= y && f >= 0.0
    ensures Clamp01(x * f) <= Clamp01(y * f)
  {
    var p, q := x * f, y * f;
    ScaleMonotone(x, y, f);
    assert p <= q;
    ClampMonotone(p, q);
  }

  /** Before the random factor, a higher target never gives a lower score. */
  lemma AdjustedMonotone(d: PredictionInput, t: real)
    requires d.targetedProductivity <= t
    ensures Adjusted(d) <= Adjusted(d.(targetedProductivity := t))
  {
    var e := d.(targetedProductivity := t);
    var m := Multiplier(d);
    assert Multiplier(e) == m;
    AdjustedScales(d);
    AdjustedScales(e);
    ScaleMonotone(d.targetedProductivity, t, m);
  }

  lemma ClampMonotone(x: real, y: real)
    requires x <= y
    ensures Clamp01(x) <= Clamp01(y)
  {
  }

  lemma ScaleMonotone(a: real, b: real, c: real)
    requires a <= b && c >= 0.0
    ensures a * c <= b * c
  {
  }

  /** The score is zero exactly when the target is not positive. */
  lemma MockZero(d: PredictionInput, rnd: real)
    requires 0.0 <= rnd < 1.0
    ensures MockProductivity(d, rnd) == 0.0 <==> d.targetedProductivity <= 0.0
  {
    AdjustedScales(d);
    var m := Multiplier(d);
    var f := RandomFactor(rnd);
    if d.targetedProductivity > 0.0 {
      PositiveProduct(d.targetedProductivity, m);
      PositiveProduct(Adjusted(d), f);
    } else {
      assert d.targetedProductivity * m <= 0.0;
      assert Adjusted(d) * f <= 0.0;
    }
  }

  /** Full target, three hours of overtime and nothing else: between 0.648 and 0.792. */
  lemma OvertimeExample(rnd: real)
    requires 0.0 <= rnd < 1.0
    ensures var p := MockProductivity(PredictionInput(100.0, 3.0, 0.0, 0.0, "None"), rnd);
      0.648 <= p < 0.792
  {
    var d := PredictionInput(100.0, 3.0, 0.0, 0.0, "None");
    assert Adjusted(d) == 0.72;
  }

  /** `getProductivityCategory`: four bands split at 0.3, 0.6 and 0.8, lower ends included. */
  function MockCategory(productivity: real): (c: string)
    ensures c == "Low Productive" <==> productivity < 0.3
    ensures c == "Medium Productive" <==> 0.3 <= productivity < 0.6
    ensures c == "Productive" <==> 0.6 <= productivity < 0.8
    ensures c == "Highly Productive" <==> productivity >= 0.8
  {
    if productivity < 0.3 then "Low Productive"
    else if productivity < 0.6 then "Medium Productive"
    else if productivity < 0.8 then "Productive"
    else "Highly Productive"
  }

  /** The rank of a mock category, from 0 (low) to 3 (highly productive). */
  function MockRank(c: string): nat
  {
    if c == "Low Productive" then 0
    else if c == "Medium Productive" then 1
    else if c == "Productive" then 2
    else 3
  }

  /** A higher score never falls in a lower band. */
  lemma MockCategoryMonotone(p: real, q: real)
    requires p <= q
    ensures MockRank(MockCategory(p)) <= MockRank(MockCategory(q))
  {
  }

  /**
   * The mock and the backend draw their bands differently: at exactly 0.3 and
   * 0.8 the backend puts a score in the lower band and the mock in the upper.
   */
  lemma ClassifiersDisagree()
    ensures ModelInput.ProductivityCategory(0.3) == "Below Average Productivity"
    ensures MockCategory(0.3) == "Medium Productive"
    ensures ModelInput.ProductivityCategory(0.8) == "Medium Productivity"
    ensures MockCategory(0.8) == "Highly Productive"
  {
  }

  /** The mock status of a batch: "completed" wins over "failed", and any other id is processing. */
  function MockStatus(batchId: string): (s: string)
    ensures s == "completed" <==> Contains(batchId, "completed")
    ensures s == "failed" <==> !Contains(batchId, "completed") && Contains(batchId, "failed")
    ensures s == "processing" <==> !Contains(batchId, "completed") && !Contains(batchId, "failed")
  {
    if Contains(batchId, "completed") then "completed"
    else if Contains(batchId, "failed") then "failed"
    else "processing"
  }

  /** The responses of the mock handlers. */
  datatype MockResponse =
    | JsonList(items: seq<string>)
    | NoBody(code: int)
    | BatchStatus(batchId: string, status: string, resultsUrl: Option<string>)
    | Prediction(actualProductivity: real, category: string, chartUrls: seq<string>)
    | BadRequest(error: string)
    | BatchCreated(batchId: string, status: string)

  function StatusCode(r: MockResponse): int
  {
    match r
    case NoBody(code) => code
    case BadRequest(_) => 400
    case _ => 200
  }

  const MockDepartments: seq<string> := ["Sewing", "Finishing", "Cutting", "QC"]
  const MockTeams: seq<string> := ["Team 1", "Team 2", "Team 3"]
  const Placeholder := "/placeholder.svg?height=400&width=600"

  /** `GET`: the first path test that holds decides the response. */
  function Get(path: string): (r: MockResponse)
    ensures EndsWith(path, "/api/meta/departments") ==> r == JsonList(MockDepartments)
    ensures StatusCode(r) == 404 <==>
      !EndsWith(path, "/api/meta/departments") && !EndsWith(path, "/api/meta/teams")
      && !EndsWith(path, "/health") && !Contains(path, "/api/batch/")
    ensures r.BatchStatus? ==> Contains(path, "/api/batch/") && EndsWith(path, r.batchId) && '/' !in r.batchId
    ensures r.BatchStatus? ==> r.batchId == LastSegment(path) && r.status == MockStatus(r.batchId)
    ensures (Contains(path, "/api/batch/") && !EndsWith(path, "/health") && !EndsWith(path, "/api/meta/teams")
      && !EndsWith(path, "/api/meta/departments")) ==> r.BatchStatus?
    ensures r.BatchStatus? ==> (r.resultsUrl.Some? <==> Contains(r.batchId, "completed"))
    ensures r.BatchStatus? && r.resultsUrl.Some? ==> r.resultsUrl.value == "/mock-results.xlsx"
  {
    if EndsWith(path, "/api/meta/departments") then JsonList(MockDepartments)
    else if EndsWith(path, "/api/meta/teams") then JsonList(MockTeams)
    else if EndsWith(path, "/health") then NoBody(200)
    else if Contains(path, "/api/batch/") then
      var batchId := LastSegment(path);
      var status := MockStatus(batchId);
      BatchStatus(batchId, status, if status == "completed" then Some("/mock-results.xlsx") else None)
    else NoBody(404)
  }

  /** The teams path gives the three mock teams; it cannot also end with the departments path. */
  lemma GetTeams(path: string)
    requires EndsWith(path, "/api/meta/teams")
    ensures Get(path) == JsonList(MockTeams) && |Get(path).items| == 3
  {
    if EndsWith(path, "/api/meta/departments") {
      SuffixOfSuffix(path, "/api/meta/departments", "/api/meta/teams");
      assert false;
    }
  }

  /** A path ending with `/health` gets the empty 200 reply; it ends with neither metadata path. */
  lemma GetHealth(path: string)
    requires EndsWith(path, "/health")
    ensures Get(path) == NoBody(200)
  {
    if EndsWith(path, "/api/meta/departments") {
      SuffixOfSuffix(path, "/api/meta/departments", "/health");
      assert false;
    }
    if EndsWith(path, "/api/meta/teams") {
      SuffixOfSuffix(path, "/api/meta/teams", "/health");
      assert false;
    }
  }

  /**
   * A batch path whose last segment is an id gets that id's mock status,
   * unless the id is "health", whose path the health check answers first.
   */
  lemma GetBatch(prefix: string, batchId: string)
    requires '/' !in batchId && batchId != "health"
    ensures Get(prefix + "/api/batch/" + batchId) ==
      BatchStatus(batchId, MockStatus(batchId), if MockStatus(batchId) == "completed" then Some("/mock-results.xlsx") else None)
  {
    var path := prefix + "/api/batch/" + batchId;
    assert path[|prefix|..|prefix| + |"/api/batch/"|] == "/api/batch/";
    ContainsAt(path, "/api/batch/", |prefix|);
    assert path == (prefix + "/api/batch") + "/" + batchId;
    LastSegmentAfterSlash(prefix + "/api/batch", batchId);
    assert path[|path| - |batchId| - 1] == '/' && EndsWith(path, batchId);
    BatchPathNotRoutes(prefix, batchId);
  }

  /** A batch path ends with none of the routes tested before the batch route, unless its id is "health". */
  lemma BatchPathNotRoutes(prefix: string, batchId: string)
    requires '/' !in batchId && batchId != "health"
    ensures var path := prefix + "/api/batch/" + batchId;
      !EndsWith(path, "/api/meta/departments") && !EndsWith(path, "/api/meta/teams") && !EndsWith(path, "/health")
  {
    var path := prefix + "/api/batch/" + batchId;
    assert path == (prefix + "/api/batch") + "/" + batchId;
    assert path[|path| - |batchId| - 1] == '/' && EndsWith(path, batchId);
    assert !EndsWith(path, "/api/meta/departments") by {
      if batchId == "departments" {
        BatchNotMeta(prefix, batchId);
        assert "/api/meta/" + batchId == "/api/meta/departments";
      } else {
        NotRoute(path, batchId, "/api/meta/departments", "departments");
      }
    }
    assert !EndsWith(path, "/api/meta/teams") by {
      if batchId == "teams" {
        BatchNotMeta(prefix, batchId);
        assert "/api/meta/" + batchId == "/api/meta/teams";
      } else {
        NotRoute(path, batchId, "/api/meta/teams", "teams");
      }
    }
    assert !EndsWith(path, "/health") by {
      NotRoute(path, batchId, "/health", "health");
    }
  }

  /** A batch path never ends with the metadata route of the same last word. */
  lemma BatchNotMeta(prefix: string, word: string)
    ensures !EndsWith(prefix + "/api/batch/" + word, "/api/meta/" + word)
  {
    var path := prefix + "/api/batch/" + word;
    var route := "/api/meta/" + word;
    assert |route| <= |path| ==> path[|path| - |word| - 2] == 'h' != route[|route| - |word| - 2];
  }

  /** A path that ends with "/" + `b` ends with a route only when `b` is the route's last word. */
  lemma NotRoute(path: string, b: string, route: string, word: string)
    requires '/' !in b && '/' !in word && |route| > |word|
    requires route[|route| - |word|..] == word && route[|route| - |word| - 1] == '/'
    requires |b| < |path| && path[|path| - |b| - 1] == '/' && EndsWith(path, b)
    requires b != word
    ensures !EndsWith(path, route)
  {
    if EndsWith(path, route) {
      assert path[|path| - |word|..] == word;
      assert path[|path| - |word| - 1] == '/';
      SlashSegments(path, b, word);
    }
  }

  /** Two slash-free tails of `s`, each right after a slash, are the same tail. */
  lemma SlashSegments(s: string, b: string, q: string)
    requires '/' !in b && '/' !in q
    requires |b| < |s| && s[|s| - |b| - 1] == '/' && s[|s| - |b|..] == b
    requires |q| < |s| && s[|s| - |q| - 1] == '/' && s[|s| - |q|..] == q
    ensures b == q
  {
  }

  /** The last segment of `a + "/" + b` is `b` when `b` has no slash. */
  lemma {:induction false} LastSegmentAfterSlash(a: string, b: string)
    requires '/' !in b
    ensures LastSegment(a + "/" + b) == b
    decreases |b|
  {
    if b == [] {
      assert (a + "/" + b)[|a + "/" + b| - 1] == '/';
    } else {
      var s := a + "/" + b;
      var init := b[..|b| - 1];
      assert s[..|s| - 1] == a + "/" + init;
      assert '/' !in init by {
        assert forall i :: 0 <= i < |init| ==> init[i] == b[i];
      }
      LastSegmentAfterSlash(a, init);
      assert b == init + [b[|b| - 1]];
    }
  }

  /** `POST`: predictions and batch uploads, with `rnd` the draw and `suffix` the random id part. */
  function Post(path: string, body: Option<PredictionInput>, rnd: real, suffix: string): (r: MockResponse)
    requires 0.0 <= rnd < 1.0
    ensures StatusCode(r) == 404 <==> !EndsWith(path, "/api/predict") && !EndsWith(path, "/api/batch")
    ensures EndsWith(path, "/api/predict") && body.None? ==> r == BadRequest("Invalid request data") && StatusCode(r) == 400
    ensures EndsWith(path, "/api/predict") && body.Some? ==> r.Prediction?
    ensures EndsWith(path, "/api/batch") && !EndsWith(path, "/api/predict") ==> r.BatchCreated?
    ensures r.Prediction? ==>
      && body.Some? && 0.0 <= r.actualProductivity <= 1.0
      && r.actualProductivity == MockProductivity(body.value, rnd)
      && r.category == MockCategory(r.actualProductivity)
      && |r.chartUrls| == 4 && (forall i :: 0 <= i < 4 ==> r.chartUrls[i] == Placeholder)
  {
    if EndsWith(path, "/api/predict") then
      match body
      case None => BadRequest("Invalid request data")
      case Some(d) =>
        var productivity := MockProductivity(d, rnd);
        Prediction(productivity, MockCategory(productivity), [Placeholder, Placeholder, Placeholder, Placeholder])
    else if EndsWith(path, "/api/batch") then
      BatchCreated("mock-batch-id-" + suffix, "processing")
    else NoBody(404)
  }

  /** A batch upload is accepted as processing under an id that begins "mock-batch-id-". */
  lemma PostBatch(path: string, body: Option<PredictionInput>, rnd: real, suffix: string)
    requires 0.0 <= rnd < 1.0 && EndsWith(path, "/api/batch")
    ensures var r := Post(path, body, rnd, suffix);
      r.BatchCreated? && r.status == "processing" && StartsWith(r.batchId, "mock-batch-id-")
  {
    if EndsWith(path, "/api/predict") {
      SuffixOfSuffix(path, "/api/predict", "/api/batch");
      assert false;
    }
    var id := "mock-batch-id-" + suffix;
    assert id[..|"mock-batch-id-"|] == "mock-batch-id-";
  }

}
