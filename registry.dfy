/**
 * The contract registry and its processing pipeline (the `ContractService`
 * class): six id-keyed maps, a per-contract status machine
 *   uploading -> parsing -> analyzing -> completed   (or error)
 * driven by three awaited AI calls, and the portfolio aggregates derived from
 * the maps.
 *
 * The AI calls are inputs (`AiResult`): each either resolves with a value or
 * throws. Clock readings (`Date.now()`, `new Date().toISOString()`) are
 * parameters.
 */
module Registry {
  import opened Options
  import opened Lists
  import opened Numeric

  // ---------------------------------------------------------------------------
  // Domain types (the declarations in src/types/contract.ts)

  datatype ContractType = Infrastructure | Renewables | Transmission | Roadways | Metro | Airport

  datatype Status = Uploading | Parsing | Analyzing | Completed | Error

  datatype RiskLevel = Low | Medium | High | Critical

  datatype Category = Financial | Legal | Operational | Regulatory | External

  datatype Trend = Improving | Stable | Deteriorating

  datatype ContractMetadata = ContractMetadata(
    id: string,
    name: string,
    contractType: ContractType,
    uploadDate: string,
    fileSize: nat,
    filePath: string,
    status: Status,
    totalPages: nat,
    parsingProgress: nat,
    analysisProgress: nat)

  datatype Clause = Clause(
    id: string,
    contractId: string,
    title: string,
    content: string,
    section: string,
    pageNumber: nat,
    category: Category,
    riskLevel: RiskLevel)

  datatype ObligationType = Payment | Delivery | Performance | Compliance | Reporting

  datatype Obligation = Obligation(
    id: string,
    contractId: string,
    kind: ObligationType,
    description: string,
    dueDate: string,
    milestoneId: Option<string>)

  datatype Milestone = Milestone(
    id: string,
    contractId: string,
    name: string,
    targetDate: string,
    dependencies: seq<string>)

  datatype RiskAssessment = RiskAssessment(
    contractId: string,
    overallScore: nat,
    lastAssessed: string,
    trend: Trend)

  datatype InsightType = RiskInsight | Opportunity | Anomaly | Recommendation

  datatype InsightStatus = New | Acknowledged | Addressed | Dismissed

  datatype Insight = Insight(
    id: string,
    contractId: string,
    kind: InsightType,
    title: string,
    confidence: nat,
    status: InsightStatus)

  /** The `File` handed to `uploadContract`. */
  datatype UploadedFile = UploadedFile(name: string, size: nat)

  /** What `parseContract` resolves with; `totalPages` is `metadata.totalPages`. */
  datatype ParseResult = ParseResult(
    clauses: seq<Clause>,
    obligations: seq<Obligation>,
    milestones: seq<Milestone>,
    totalPages: nat)

  /** The settlement of one awaited AI call: it resolved with a value, or it threw. */
  datatype AiResult<T> = Ok(value: T) | Failed

  /** One effective call of `updateContractStatus`. */
  datatype StatusUpdate = StatusUpdate(contractId: string, status: Status, parsingProgress: nat, analysisProgress: nat)

  /** The modelled part of `getPortfolioAnalytics()`. */
  datatype Analytics = Analytics(
    totalContracts: nat,
    averageRiskScore: nat,
    contractsByType: map<ContractType, nat>,
    riskDistribution: map<RiskLevel, nat>)

  // ---------------------------------------------------------------------------
  // Identifiers, names and paths

  function DigitChar(d: nat): (c: char)
    requires d < 10
    ensures '0' <= c <= '9' && c as int - '0' as int == d
  {
    ('0' as int + d) as char
  }

  ghost predicate AllDigits(s: string) {
    forall i :: 0 <= i < |s| ==> '0' <= s[i] <= '9'
  }

  /** `String(n)` for a non-negative integer: its decimal digits. */
  function DecimalDigits(n: nat): (s: string)
    ensures |s| > 0 && AllDigits(s)
  {
    if n < 10 then [DigitChar(n)] else DecimalDigits(n / 10) + [DigitChar(n % 10)]
  }

  /** The number a string of decimal digits denotes. */
  function DigitsValue(s: string): nat
    requires AllDigits(s)
  {
    if s == [] then 0 else DigitsValue(s[..|s| - 1]) * 10 + (s[|s| - 1] as int - '0' as int)
  }

  /** Reading back the decimal digits of `n` gives `n`. */
  lemma {:induction false} DecimalDigitsRoundTrip(n: nat)
    ensures DigitsValue(DecimalDigits(n)) == n
  {
    if n >= 10 {
      var s := DecimalDigits(n);
      assert s[..|s| - 1] == DecimalDigits(n / 10);
      DecimalDigitsRoundTrip(n / 10);
    }
  }

  const ContractIdPrefix: string := "contract-"

  /** `contract-${Date.now()}` for the clock reading `now`. */
  function ContractIdFor(now: nat): string {
    ContractIdPrefix + DecimalDigits(now)
  }

  /**
   * Two uploads get the same id exactly when they read the same millisecond;
   * the registry then holds one record for both.
   */
  lemma ContractIdCollision(t1: nat, t2: nat)
    ensures ContractIdFor(t1) == ContractIdFor(t2) <==> t1 == t2
  {
    if ContractIdFor(t1) == ContractIdFor(t2) {
      assert ContractIdFor(t1)[|ContractIdPrefix|..] == DecimalDigits(t1);
      assert ContractIdFor(t2)[|ContractIdPrefix|..] == DecimalDigits(t2);
      DecimalDigitsRoundTrip(t1);
      DecimalDigitsRoundTrip(t2);
    }
  }

  /**
   * Position `i` starts the suffix that `/\.[^/.]+$/` matches: a final `.`
   * followed by a non-empty run free of `.` and `/`.
   */
  ghost predicate ExtensionAt(s: string, i: int) {
    0 <= i < |s| - 1 && s[i] == '.' && forall j :: i < j < |s| ==> s[j] != '.' && s[j] != '/'
  }

  /** The last index below `k` holding `.` or `/`. */
  function LastDotOrSlash(s: string, k: nat): (r: Option<nat>)
    requires k <= |s|
    ensures r.Some? ==> r.value < k && (s[r.value] == '.' || s[r.value] == '/')
    ensures r.Some? ==> forall j :: r.value < j < k ==> s[j] != '.' && s[j] != '/'
    ensures r.None? ==> forall j :: 0 <= j < k ==> s[j] != '.' && s[j] != '/'
  {
    if k == 0 then None
    else if s[k - 1] == '.' || s[k - 1] == '/' then Some(k - 1)
    else LastDotOrSlash(s, k - 1)
  }

  /** `name.replace(/\.[^/.]+$/, "")`: one trailing extension removed. */
  function StripExtension(name: string): (r: string)
    ensures forall i :: ExtensionAt(name, i) ==> r == name[..i]
    ensures (forall i :: !ExtensionAt(name, i)) ==> r == name
  {
    match LastDotOrSlash(name, |name|)
    case Some(i) =>
      if name[i] == '.' && i < |name| - 1 then
        assert ExtensionAt(name, i);
        name[..i]
      else
        name
    case None => name
  }

  /** `/uploads/${contractId}/${file.name}`. */
  function UploadPath(contractId: string, fileName: string): string {
    "/uploads/" + contractId + "/" + fileName
  }

  // ---------------------------------------------------------------------------
  // Parse results are re-keyed to the contract (`{...clause, contractId}`)

  ghost predicate ClausesOf(cs: seq<Clause>, contractId: string) {
    forall c :: c in cs ==> c.contractId == contractId
  }

  ghost predicate ObligationsOf(os: seq<Obligation>, contractId: string) {
    forall o :: o in os ==> o.contractId == contractId
  }

  ghost predicate MilestonesOf(ms: seq<Milestone>, contractId: string) {
    forall m :: m in ms ==> m.contractId == contractId
  }

  ghost predicate InsightsOf(xs: seq<Insight>, contractId: string) {
    forall x :: x in xs ==> x.contractId == contractId
  }

  function StampClauses(cs: seq<Clause>, contractId: string): (r: seq<Clause>)
    ensures |r| == |cs| && ClausesOf(r, contractId)
    ensures forall i :: 0 <= i < |cs| ==> r[i] == cs[i].(contractId := contractId)
  {
    seq(|cs|, i requires 0 <= i < |cs| => cs[i].(contractId := contractId))
  }

  function StampObligations(os: seq<Obligation>, contractId: string): (r: seq<Obligation>)
    ensures |r| == |os| && ObligationsOf(r, contractId)
    ensures forall i :: 0 <= i < |os| ==> r[i] == os[i].(contractId := contractId)
  {
    seq(|os|, i requires 0 <= i < |os| => os[i].(contractId := contractId))
  }

  function StampMilestones(ms: seq<Milestone>, contractId: string): (r: seq<Milestone>)
    ensures |r| == |ms| && MilestonesOf(r, contractId)
    ensures forall i :: 0 <= i < |ms| ==> r[i] == ms[i].(contractId := contractId)
  {
    seq(|ms|, i requires 0 <= i < |ms| => ms[i].(contractId := contractId))
  }

  // ---------------------------------------------------------------------------
  // The status machine

  /** The transitions the pipeline can make (`error` from any non-terminal state). */
  predicate CanTransition(from: Status, to: Status) {
    match to
    case Parsing => from == Uploading
    case Analyzing => from == Parsing
    case Completed => from == Analyzing
    case Error => from != Completed && from != Error
    case Uploading => false
  }

  predicate IsTerminal(s: Status) {
    s == Completed || s == Error
  }

  /** Each update of `updates` is a legal transition from the status before it. */
  ghost predicate IsRunFrom(start: Status, updates: seq<StatusUpdate>)
    decreases |updates|
  {
    updates == [] || (CanTransition(start, updates[0].status) && IsRunFrom(updates[0].status, updates[1..]))
  }

  /**
   * The `updateContractStatus` calls one run of `processContract` makes, given
   * how each awaited AI call settles.
   */
  function PipelineUpdates(
    contractId: string,
    parse: AiResult<ParseResult>,
    risk: AiResult<RiskAssessment>,
    generated: AiResult<seq<Insight>>): seq<StatusUpdate>
  {
    [StatusUpdate(contractId, Parsing, 0, 0)] + ResumedUpdates(contractId, parse, risk, generated)
  }

  /** The calls after the first `await`: one per settled step, up to the first failure. */
  function ResumedUpdates(
    contractId: string,
    parse: AiResult<ParseResult>,
    risk: AiResult<RiskAssessment>,
    generated: AiResult<seq<Insight>>): seq<StatusUpdate>
  {
    var failed := StatusUpdate(contractId, Error, 0, 0);
    if parse.Failed? then [failed]
    else if risk.Failed? || generated.Failed? then [StatusUpdate(contractId, Analyzing, 100, 0), failed]
    else [StatusUpdate(contractId, Analyzing, 100, 0), StatusUpdate(contractId, Completed, 100, 100)]
  }

  /**
   * Every run of the pipeline is a legal path of the status machine from
   * `uploading` that ends in a terminal status; it ends in `completed` exactly
   * when all three AI calls resolve, with both counters at 100, and otherwise
   * in `error` with both counters reset to 0.
   */
  lemma {:induction false} PipelineFollowsStatusMachine(
    contractId: string,
    parse: AiResult<ParseResult>,
    risk: AiResult<RiskAssessment>,
    generated: AiResult<seq<Insight>>)
    ensures var u := PipelineUpdates(contractId, parse, risk, generated);
      && IsRunFrom(Uploading, u)
      && |u| >= 2
      && u[0] == StatusUpdate(contractId, Parsing, 0, 0)
      && IsTerminal(u[|u| - 1].status)
      && (u[|u| - 1].status == Completed <==> parse.Ok? && risk.Ok? && generated.Ok?)
      && (u[|u| - 1].status == Completed ==> u == [u[0], StatusUpdate(contractId, Analyzing, 100, 0), StatusUpdate(contractId, Completed, 100, 100)])
      && (u[|u| - 1].status == Error ==> u[|u| - 1] == StatusUpdate(contractId, Error, 0, 0))
      && (forall i :: 0 <= i < |u| ==> u[i].contractId == contractId)
  {
    var u := PipelineUpdates(contractId, parse, risk, generated);
    assert IsRunFrom(u[|u| - 1].status, []);
    if |u| == 3 {
      assert IsRunFrom(u[1].status, u[2..]);
      assert u[1..] == [u[1]] + u[2..];
    } else {
      assert u[1..] == [u[1]];
    }
  }

  /**
   * The record at the end of a run: only the status, the two counters and
   * (after a completed run) the page count differ from the record before it.
   */
  function ProcessedRecord(
    before: ContractMetadata,
    parse: AiResult<ParseResult>,
    risk: AiResult<RiskAssessment>,
    generated: AiResult<seq<Insight>>): (after: ContractMetadata)
    ensures after.(status := before.status, parsingProgress := before.parsingProgress,
                   analysisProgress := before.analysisProgress, totalPages := before.totalPages) == before
    ensures after.status == Completed <==> parse.Ok? && risk.Ok? && generated.Ok?
    ensures after.status == Completed ==>
      after.parsingProgress == 100 && after.analysisProgress == 100 && after.totalPages == parse.value.totalPages
    ensures after.status != Completed ==>
      after.status == Error && after.parsingProgress == 0 && after.analysisProgress == 0 && after.totalPages == before.totalPages
  {
    if parse.Ok? && risk.Ok? && generated.Ok? then
      before.(status := Completed, parsingProgress := 100, analysisProgress := 100, totalPages := parse.value.totalPages)
    else
      before.(status := Error, parsingProgress := 0, analysisProgress := 0)
  }

  // ---------------------------------------------------------------------------
  // Aggregates (`calculateAverageRiskScore`, `groupContractsByType`,
  // `calculateRiskDistribution`, `getRiskLevel`)

  /** `getRiskLevel`: the score band of an overall risk score. */
  function GetRiskLevel(score: int): (level: RiskLevel)
    ensures level == Critical <==> score >= 75
    ensures level == High <==> 50 <= score < 75
    ensures level == Medium <==> 25 <= score < 50
    ensures level == Low <==> score < 25
  {
    if score >= 75 then Critical
    else if score >= 50 then High
    else if score >= 25 then Medium
    else Low
  }

  function LevelRank(level: RiskLevel): nat {
    match level
    case Low => 0
    case Medium => 1
    case High => 2
    case Critical => 3
  }

  /** A higher score never falls into a lower band. */
  lemma GetRiskLevelMonotonic(a: int, b: int)
    requires a <= b
    ensures LevelRank(GetRiskLevel(a)) <= LevelRank(GetRiskLevel(b))
  {
  }

  function OverallScore(r: RiskAssessment): nat {
    r.overallScore
  }

  /** `calculateAverageRiskScore`: 0 with no assessments, else the rounded mean overall score. */
  function AverageRiskScore(risks: seq<RiskAssessment>): (avg: nat)
    ensures risks == [] ==> avg == 0
    ensures risks != [] ==> MinOf(risks, OverallScore) <= avg <= MaxOf(risks, OverallScore)
    ensures risks != [] ==> 2 * |risks| * avg <= 2 * Sum(risks, OverallScore) + |risks| < 2 * |risks| * (avg + 1)
  {
    if risks == [] then 0
    else RoundedMean(risks, OverallScore)
  }

  function Lookup<K>(m: map<K, nat>, k: K): nat {
    if k in m then m[k] else 0
  }

  function CountOfType(cs: seq<ContractMetadata>, t: ContractType): nat {
    |Filter(cs, (c: ContractMetadata) => c.contractType == t)|
  }

  /** Sum of a type-count record over all six contract types. */
  function TypeTotal(m: map<ContractType, nat>): nat {
    Lookup(m, Infrastructure) + Lookup(m, Renewables) + Lookup(m, Transmission)
      + Lookup(m, Roadways) + Lookup(m, Metro) + Lookup(m, Airport)
  }

  /**
   * `groupContractsByType`: a record with one key per type that occurs,
   * counting the contracts of that type.
   */
  function GroupByType(cs: seq<ContractMetadata>): (m: map<ContractType, nat>)
    ensures forall t :: t in m ==> m[t] > 0
    ensures TypeTotal(m) == |cs|
    decreases |cs|
  {
    if cs == [] then map[]
    else
      var acc := GroupByType(cs[..|cs| - 1]);
      var t := cs[|cs| - 1].contractType;
      TypeTotalIncrement(acc, t);
      acc[t := Lookup(acc, t) + 1]
  }

  lemma TypeTotalIncrement(m: map<ContractType, nat>, t: ContractType)
    ensures TypeTotal(m[t := Lookup(m, t) + 1]) == TypeTotal(m) + 1
  {
  }

  /** Each key of `groupContractsByType` counts exactly the contracts of that type. */
  lemma {:induction false} GroupByTypeCounts(cs: seq<ContractMetadata>, t: ContractType)
    ensures Lookup(GroupByType(cs), t) == CountOfType(cs, t)
    decreases |cs|
  {
    if cs != [] {
      var init := cs[..|cs| - 1];
      assert cs == init + [cs[|cs| - 1]];
      GroupByTypeCounts(init, t);
      FilterAppend(init, [cs[|cs| - 1]], (c: ContractMetadata) => c.contractType == t);
    }
  }

  function CountAtLevel(risks: seq<RiskAssessment>, level: RiskLevel): nat {
    |Filter(risks, (r: RiskAssessment) => GetRiskLevel(r.overallScore) == level)|
  }

  /** Sum of a level-count record over all four levels. */
  function LevelTotal(m: map<RiskLevel, nat>): nat {
    Lookup(m, Low) + Lookup(m, Medium) + Lookup(m, High) + Lookup(m, Critical)
  }

  /**
   * `calculateRiskDistribution`: a record with one key per level that occurs,
   * counting the assessments whose overall score falls in that band.
   */
  function RiskDistribution(risks: seq<RiskAssessment>): (m: map<RiskLevel, nat>)
    ensures forall l :: l in m ==> m[l] > 0
    ensures LevelTotal(m) == |risks|
    decreases |risks|
  {
    if risks == [] then map[]
    else
      var acc := RiskDistribution(risks[..|risks| - 1]);
      var l := GetRiskLevel(risks[|risks| - 1].overallScore);
      LevelTotalIncrement(acc, l);
      acc[l := Lookup(acc, l) + 1]
  }

  lemma LevelTotalIncrement(m: map<RiskLevel, nat>, l: RiskLevel)
    ensures LevelTotal(m[l := Lookup(m, l) + 1]) == LevelTotal(m) + 1
  {
  }

  /** Each key of `calculateRiskDistribution` counts exactly the assessments in that band. */
  lemma {:induction false} RiskDistributionCounts(risks: seq<RiskAssessment>, l: RiskLevel)
    ensures Lookup(RiskDistribution(risks), l) == CountAtLevel(risks, l)
    decreases |risks|
  {
    if risks != [] {
      var init := risks[..|risks| - 1];
      assert risks == init + [risks[|risks| - 1]];
      RiskDistributionCounts(init, l);
      FilterAppend(init, [risks[|risks| - 1]], (r: RiskAssessment) => GetRiskLevel(r.overallScore) == l);
    }
  }

  // ---------------------------------------------------------------------------
  // The service

  /**
   * `order` lists the keys of `m`, each once (see `OrderIsDistinct`): the
   * iteration order of a JavaScript `Map`.
   */
  ghost predicate OrderOf<V>(order: seq<string>, m: map<string, V>) {
    |order| == |m| && forall k :: k in order <==> k in m
  }

  lemma OrderIsDistinct<V>(order: seq<string>, m: map<string, V>)
    requires OrderOf(order, m)
    ensures Distinct(order)
  {
    assert (set k | k in order) == m.Keys;
    CardinalityDistinct(order);
  }

  ghost predicate IdsMatchKeys(contracts: map<string, ContractMetadata>) {
    forall k :: k in contracts ==> contracts[k].id == k
  }

  ghost predicate ClausesKeyed(m: map<string, seq<Clause>>) {
    forall k :: k in m ==> ClausesOf(m[k], k)
  }

  ghost predicate ObligationsKeyed(m: map<string, seq<Obligation>>) {
    forall k :: k in m ==> ObligationsOf(m[k], k)
  }

  ghost predicate MilestonesKeyed(m: map<string, seq<Milestone>>) {
    forall k :: k in m ==> MilestonesOf(m[k], k)
  }

  ghost predicate RisksKeyed(m: map<string, RiskAssessment>) {
    forall k :: k in m ==> m[k].contractId == k
  }

  ghost predicate InsightsKeyed(m: map<string, seq<Insight>>) {
    forall k :: k in m ==> InsightsOf(m[k], k)
  }

  /** The values of `m` at `keys`, in the order of `keys`. */
  function ValuesAt<V>(keys: seq<string>, m: map<string, V>): (vs: seq<V>)
    requires forall k :: k in keys ==> k in m
    ensures |vs| == |keys|
    ensures forall i :: 0 <= i < |keys| ==> vs[i] == m[keys[i]]
  {
    if keys == [] then [] else [m[keys[0]]] + ValuesAt(keys[1..], m)
  }

  /** Listing a map in its iteration order yields every value: as many values as keys. */
  lemma ValuesInOrder<V>(order: seq<string>, m: map<string, V>)
    requires OrderOf(order, m)
    ensures |ValuesAt(order, m)| == |m|
    ensures forall k :: k in m ==> m[k] in ValuesAt(order, m)
  {
    var vs := ValuesAt(order, m);
    forall k | k in m ensures m[k] in vs {
      var i :| 0 <= i < |order| && order[i] == k;
      assert vs[i] == m[k];
    }
  }

  const SampleContractId: string := "contract-sample-1"

  /** The record `initializeSampleData` registers; its upload date comes from the clock. */
  function SampleContract(uploadDate: string): ContractMetadata {
    ContractMetadata(SampleContractId, "Metro Rail Project Agreement - Phase 1", Metro, uploadDate,
      2400000, "/uploads/sample/metro-rail-phase1.pdf", Completed, 150, 100, 100)
  }

  /** The record `uploadContract` registers for `file` under `contractId`. */
  function NewContract(contractId: string, file: UploadedFile, requested: Option<ContractType>, uploadDate: string): ContractMetadata {
    ContractMetadata(contractId, StripExtension(file.name), requested.GetOr(Infrastructure), uploadDate,
      file.size, UploadPath(contractId, file.name), Uploading, 0, 0, 0)
  }

  /** The state of a `ContractService` after `uploadContract`, and the id it returned. */
  datatype Uploaded = Uploaded(service: Service, contractId: string)

  /**
   * A run of `processContract`: the state afterwards and, for each
   * `updateContractStatus` call in order, the status and counters the record
   * holds right after it.
   */
  datatype Processed = Processed(service: Service, updates: seq<StatusUpdate>)

  /** `new ContractService()`, which runs `initializeSampleData`. */
  function NewContractService(sampleUploadDate: string): (s: Service)
    ensures s.Valid()
    ensures s.contracts == map[SampleContractId := SampleContract(sampleUploadDate)]
    ensures s.order == [SampleContractId]
    ensures s.clauses == map[] && s.obligations == map[] && s.milestones == map[]
    ensures s.riskAssessments == map[] && s.riskOrder == [] && s.insights == map[]
  {
    Service(map[SampleContractId := SampleContract(sampleUploadDate)], [SampleContractId],
      map[], map[], map[], map[], [], map[])
  }

  /**
   * The fields of a `ContractService`: the six id-keyed maps, and the insertion
   * orders of the two that are listed (`Array.from(map.values())`).
   */
  datatype Service = Service(
    contracts: map<string, ContractMetadata>,
    order: seq<string>,
    clauses: map<string, seq<Clause>>,
    obligations: map<string, seq<Obligation>>,
    milestones: map<string, seq<Milestone>>,
    riskAssessments: map<string, RiskAssessment>,
    riskOrder: seq<string>,
    insights: map<string, seq<Insight>>)
  {
    /**
     * The invariant of the service: every map is keyed by contract id, holds
     * data of registered contracts only, and every stored item carries the id
     * it is filed under. `NewContractService` establishes it and
     * `UploadKeepsValid` and `ProcessKeepsValid` show the two updating
     * operations keep it.
     */
    ghost predicate Valid() {
      && OrderOf(order, contracts)
      && OrderOf(riskOrder, riskAssessments)
      && IdsMatchKeys(contracts)
      && clauses.Keys <= contracts.Keys
      && obligations.Keys <= contracts.Keys
      && milestones.Keys <= contracts.Keys
      && riskAssessments.Keys <= contracts.Keys
      && insights.Keys <= contracts.Keys
      && ClausesKeyed(clauses)
      && ObligationsKeyed(obligations)
      && MilestonesKeyed(milestones)
      && RisksKeyed(riskAssessments)
      && InsightsKeyed(insights)
    }

    // -------------------------------------------------------------------------
    // Updates

    /** `this.contracts.set(key, meta)`: a `Map` keeps the position of a key it already holds. */
    function SetContract(key: string, meta: ContractMetadata): (r: Service)
      ensures r.contracts == contracts[key := meta]
      ensures key in contracts ==> r.order == order
      ensures key !in contracts ==> r.order == order + [key]
      ensures r == this.(contracts := r.contracts, order := r.order)
    {
      if key in contracts then
        this.(contracts := contracts[key := meta])
      else
        this.(contracts := contracts[key := meta], order := order + [key])
    }

    /**
     * `uploadContract`: register the record for `file` under `contract-${now}`,
     * then start `processContract`, which runs synchronously up to its first
     * `await` and so has already moved the record to `parsing` (0, 0) when the
     * id is returned.
     */
    function UploadContract(file: UploadedFile, requested: Option<ContractType>, now: nat, uploadDate: string): (r: Uploaded)
      ensures r.contractId == ContractIdFor(now)
      ensures r.service.contracts ==
        contracts[r.contractId := NewContract(r.contractId, file, requested, uploadDate).(status := Parsing)]
      ensures r.contractId !in contracts ==> r.service.order == order + [r.contractId]
      ensures r.contractId in contracts ==> r.service.order == order
      ensures r.service == this.(contracts := r.service.contracts, order := r.service.order)
    {
      var contractId := ContractIdFor(now);
      var registered := SetContract(contractId, NewContract(contractId, file, requested, uploadDate));
      Uploaded(registered.UpdateContractStatus(contractId, Parsing, 0, 0), contractId)
    }

    lemma UploadKeepsValid(file: UploadedFile, requested: Option<ContractType>, now: nat, uploadDate: string)
      requires Valid()
      ensures UploadContract(file, requested, now, uploadDate).service.Valid()
    {
    }

    /**
     * `updateContractStatus`: set the status and both progress counters of the
     * record, if there is one; nothing else changes.
     */
    function UpdateContractStatus(contractId: string, status: Status, parsingProgress: nat, analysisProgress: nat): (r: Service)
      ensures contractId in contracts ==> r.contracts == contracts[contractId := contracts[contractId].(
        status := status, parsingProgress := parsingProgress, analysisProgress := analysisProgress)]
      ensures contractId !in contracts ==> r == this
      ensures r == this.(contracts := r.contracts)
    {
      if contractId in contracts then
        var contract := contracts[contractId].(
          status := status, parsingProgress := parsingProgress, analysisProgress := analysisProgress);
        this.(contracts := contracts[contractId := contract])
      else
        this
    }

    /** The status and counters the record of `contractId` holds. */
    function StatusOf(contractId: string): (u: StatusUpdate)
      requires contractId in contracts
      ensures u.contractId == contractId && u.status == contracts[contractId].status
      ensures u.parsingProgress == contracts[contractId].parsingProgress
      ensures u.analysisProgress == contracts[contractId].analysisProgress
    {
      var c := contracts[contractId];
      StatusUpdate(contractId, c.status, c.parsingProgress, c.analysisProgress)
    }

    /**
     * After `updateContractStatus` on a registered id the record reports exactly
     * the status and counters just written, and every other record reports what
     * it did before.
     */
    lemma StatusReadBack(contractId: string, status: Status, parsingProgress: nat, analysisProgress: nat, other: string)
      requires contractId in contracts && other in contracts && other != contractId
      ensures UpdateContractStatus(contractId, status, parsingProgress, analysisProgress).StatusOf(contractId)
        == StatusUpdate(contractId, status, parsingProgress, analysisProgress)
      ensures UpdateContractStatus(contractId, status, parsingProgress, analysisProgress).StatusOf(other) == StatusOf(other)
    {
    }

    /** The `catch` block: status `error`, both counters 0; nothing stored earlier is undone. */
    function Fail(contractId: string): (r: Processed)
      requires contractId in contracts
      ensures r.service.contracts == contracts[contractId := contracts[contractId].(
        status := Error, parsingProgress := 0, analysisProgress := 0)]
      ensures r.service == this.(contracts := r.service.contracts)
      ensures r.updates == [StatusUpdate(contractId, Error, 0, 0)]
    {
      var failed := UpdateContractStatus(contractId, Error, 0, 0);
      Processed(failed, [failed.StatusOf(contractId)])
    }

    /** Store the parsed lists, each item re-keyed to the contract (`{...clause, contractId}`). */
    function StoreParsed(contractId: string, parsed: ParseResult): (r: Service)
      ensures r.clauses == clauses[contractId := StampClauses(parsed.clauses, contractId)]
      ensures r.obligations == obligations[contractId := StampObligations(parsed.obligations, contractId)]
      ensures r.milestones == milestones[contractId := StampMilestones(parsed.milestones, contractId)]
      ensures r == this.(clauses := r.clauses, obligations := r.obligations, milestones := r.milestones)
    {
      this.(clauses := clauses[contractId := StampClauses(parsed.clauses, contractId)],
            obligations := obligations[contractId := StampObligations(parsed.obligations, contractId)],
            milestones := milestones[contractId := StampMilestones(parsed.milestones, contractId)])
    }

    /** `this.riskAssessments.set(contractId, riskAssessment)`. */
    function StoreRisk(contractId: string, risk: RiskAssessment): (r: Service)
      ensures r.riskAssessments == riskAssessments[contractId := risk]
      ensures contractId in riskAssessments ==> r.riskOrder == riskOrder
      ensures contractId !in riskAssessments ==> r.riskOrder == riskOrder + [contractId]
      ensures r == this.(riskAssessments := r.riskAssessments, riskOrder := r.riskOrder)
    {
      if contractId in riskAssessments then
        this.(riskAssessments := riskAssessments[contractId := risk])
      else
        this.(riskAssessments := riskAssessments[contractId := risk], riskOrder := riskOrder + [contractId])
    }

    /**
     * After `generateInsights` resolves: store the insights, move to
     * `completed` (100, 100), then copy the page count into the record.
     */
    function Complete(contractId: string, generated: seq<Insight>, totalPages: nat): (r: Processed)
      requires contractId in contracts
      ensures r.service.insights == insights[contractId := generated]
      ensures r.service.contracts == contracts[contractId := contracts[contractId].(
        status := Completed, parsingProgress := 100, analysisProgress := 100, totalPages := totalPages)]
      ensures r.service == this.(contracts := r.service.contracts, insights := r.service.insights)
      ensures r.updates == [StatusUpdate(contractId, Completed, 100, 100)]
    {
      var stored := this.(insights := insights[contractId := generated]);
      var completed := stored.UpdateContractStatus(contractId, Completed, 100, 100);
      var update := completed.StatusOf(contractId);
      var contract := completed.contracts[contractId].(totalPages := totalPages);
      Processed(completed.SetContract(contractId, contract), [update])
    }

    /** `processContract` once `analyzeRisk` has been awaited: store, generate insights, finish. */
    function Analyze(
      contractId: string,
      totalPages: nat,
      risk: AiResult<RiskAssessment>,
      generated: AiResult<seq<Insight>>): (r: Processed)
      requires contractId in contracts
      ensures risk.Ok? && generated.Ok? ==>
        && r.service.contracts == contracts[contractId := contracts[contractId].(
             status := Completed, parsingProgress := 100, analysisProgress := 100, totalPages := totalPages)]
        && r.updates == [StatusUpdate(contractId, Completed, 100, 100)]
        && r.service.insights == insights[contractId := generated.value]
      ensures !(risk.Ok? && generated.Ok?) ==>
        && r.service.contracts == contracts[contractId := contracts[contractId].(
             status := Error, parsingProgress := 0, analysisProgress := 0)]
        && r.updates == [StatusUpdate(contractId, Error, 0, 0)]
        && r.service.insights == insights
      ensures risk.Ok? ==> r.service.riskAssessments == riskAssessments[contractId := risk.value]
      ensures risk.Ok? && contractId in riskAssessments ==> r.service.riskOrder == riskOrder
      ensures risk.Ok? && contractId !in riskAssessments ==> r.service.riskOrder == riskOrder + [contractId]
      ensures risk.Failed? ==> r.service.riskAssessments == riskAssessments && r.service.riskOrder == riskOrder
      ensures r.service.order == order
      ensures r.service.clauses == clauses && r.service.obligations == obligations && r.service.milestones == milestones
    {
      match risk
      case Failed => Fail(contractId)
      case Ok(assessment) =>
        var withRisk := StoreRisk(contractId, assessment);
        match generated
        case Failed => withRisk.Fail(contractId)
        case Ok(xs) => withRisk.Complete(contractId, xs, totalPages)
    }

    /**
     * `processContract` from its first `await` on, given how each awaited AI
     * call settles: the parsed lists are stored once parsing resolves and stay
     * on a later failure, the assessment once risk analysis resolves, the
     * insights and the page count only on success; any failure lands in the
     * `catch` block.
     */
    function ResumeProcessing(
      contractId: string,
      parse: AiResult<ParseResult>,
      risk: AiResult<RiskAssessment>,
      generated: AiResult<seq<Insight>>): (r: Processed)
      requires contractId in contracts
      ensures r.updates == ResumedUpdates(contractId, parse, risk, generated)
      ensures r.service.order == order
      ensures r.service.contracts == contracts[contractId := ProcessedRecord(contracts[contractId], parse, risk, generated)]
      ensures parse.Ok? ==>
        && r.service.clauses == clauses[contractId := StampClauses(parse.value.clauses, contractId)]
        && r.service.obligations == obligations[contractId := StampObligations(parse.value.obligations, contractId)]
        && r.service.milestones == milestones[contractId := StampMilestones(parse.value.milestones, contractId)]
      ensures parse.Failed? ==>
        r.service.clauses == clauses && r.service.obligations == obligations && r.service.milestones == milestones
      ensures parse.Ok? && risk.Ok? ==> r.service.riskAssessments == riskAssessments[contractId := risk.value]
      ensures parse.Ok? && risk.Ok? && contractId in riskAssessments ==> r.service.riskOrder == riskOrder
      ensures parse.Ok? && risk.Ok? && contractId !in riskAssessments ==> r.service.riskOrder == riskOrder + [contractId]
      ensures !(parse.Ok? && risk.Ok?) ==> r.service.riskAssessments == riskAssessments && r.service.riskOrder == riskOrder
      ensures parse.Ok? && risk.Ok? && generated.Ok? ==> r.service.insights == insights[contractId := generated.value]
      ensures !(parse.Ok? && risk.Ok? && generated.Ok?) ==> r.service.insights == insights
    {
      match parse
      case Failed => Fail(contractId)
      case Ok(parsed) =>
        var analyzing := UpdateContractStatus(contractId, Analyzing, 100, 0);
        var update := analyzing.StatusOf(contractId);
        var rest := analyzing.StoreParsed(contractId, parsed).Analyze(contractId, parsed.totalPages, risk, generated);
        UpdateTwice(contracts, contractId, analyzing.contracts[contractId], rest.service.contracts[contractId]);
        Processed(rest.service, [update] + rest.updates)
    }

    /** `processContract`: move to `parsing` (0, 0), then the awaited steps. */
    function ProcessContract(
      contractId: string,
      parse: AiResult<ParseResult>,
      risk: AiResult<RiskAssessment>,
      generated: AiResult<seq<Insight>>): (r: Processed)
      requires contractId in contracts
      ensures r.updates == PipelineUpdates(contractId, parse, risk, generated)
      ensures r.service.order == order
      ensures r.service.contracts == contracts[contractId := ProcessedRecord(contracts[contractId], parse, risk, generated)]
      ensures parse.Ok? ==>
        && r.service.clauses == clauses[contractId := StampClauses(parse.value.clauses, contractId)]
        && r.service.obligations == obligations[contractId := StampObligations(parse.value.obligations, contractId)]
        && r.service.milestones == milestones[contractId := StampMilestones(parse.value.milestones, contractId)]
      ensures parse.Failed? ==>
        r.service.clauses == clauses && r.service.obligations == obligations && r.service.milestones == milestones
      ensures parse.Ok? && risk.Ok? ==> r.service.riskAssessments == riskAssessments[contractId := risk.value]
      ensures parse.Ok? && risk.Ok? && contractId in riskAssessments ==> r.service.riskOrder == riskOrder
      ensures parse.Ok? && risk.Ok? && contractId !in riskAssessments ==> r.service.riskOrder == riskOrder + [contractId]
      ensures !(parse.Ok? && risk.Ok?) ==> r.service.riskAssessments == riskAssessments && r.service.riskOrder == riskOrder
      ensures parse.Ok? && risk.Ok? && generated.Ok? ==> r.service.insights == insights[contractId := generated.value]
      ensures !(parse.Ok? && risk.Ok? && generated.Ok?) ==> r.service.insights == insights
    {
      var parsing := UpdateContractStatus(contractId, Parsing, 0, 0);
      var update := parsing.StatusOf(contractId);
      var rest := parsing.ResumeProcessing(contractId, parse, risk, generated);
      UpdateTwice(contracts, contractId, parsing.contracts[contractId], rest.service.contracts[contractId]);
      Processed(rest.service, [update] + rest.updates)
    }

    /**
     * A run of `processContract` for a registered contract keeps the invariant,
     * provided the AI service files its results under the contract it was
     * asked about.
     */
    lemma ProcessKeepsValid(
      contractId: string,
      parse: AiResult<ParseResult>,
      risk: AiResult<RiskAssessment>,
      generated: AiResult<seq<Insight>>)
      requires Valid() && contractId in contracts
      requires risk.Ok? ==> risk.value.contractId == contractId
      requires generated.Ok? ==> InsightsOf(generated.value, contractId)
      ensures ProcessContract(contractId, parse, risk, generated).service.Valid()
    {
      ProcessKeepsContracts(contractId, parse, risk, generated);
      ProcessKeepsAnalysis(contractId, parse, risk, generated);
      ProcessKeepsParsed(contractId, parse, risk, generated);
    }

    lemma ProcessKeepsContracts(
      contractId: string,
      parse: AiResult<ParseResult>,
      risk: AiResult<RiskAssessment>,
      generated: AiResult<seq<Insight>>)
      requires Valid() && contractId in contracts
      ensures var r := ProcessContract(contractId, parse, risk, generated).service;
        r.contracts.Keys == contracts.Keys && OrderOf(r.order, r.contracts) && IdsMatchKeys(r.contracts)
    {
      var r := ProcessContract(contractId, parse, risk, generated).service;
      assert r.contracts.Keys == contracts.Keys;
    }

    lemma ProcessKeepsAnalysis(
      contractId: string,
      parse: AiResult<ParseResult>,
      risk: AiResult<RiskAssessment>,
      generated: AiResult<seq<Insight>>)
      requires Valid() && contractId in contracts
      requires risk.Ok? ==> risk.value.contractId == contractId
      requires generated.Ok? ==> InsightsOf(generated.value, contractId)
      ensures var r := ProcessContract(contractId, parse, risk, generated).service;
        && r.riskAssessments.Keys <= contracts.Keys && OrderOf(r.riskOrder, r.riskAssessments)
        && RisksKeyed(r.riskAssessments)
        && r.insights.Keys <= contracts.Keys && InsightsKeyed(r.insights)
    {
      if risk.Ok? {
        StoredRiskKeyed(contractId, risk.value);
      }
      if generated.Ok? {
        StoredInsightsKeyed(contractId, generated.value);
      }
    }

    lemma ProcessKeepsParsed(
      contractId: string,
      parse: AiResult<ParseResult>,
      risk: AiResult<RiskAssessment>,
      generated: AiResult<seq<Insight>>)
      requires Valid() && contractId in contracts
      ensures var r := ProcessContract(contractId, parse, risk, generated).service;
        && r.clauses.Keys <= contracts.Keys && ClausesKeyed(r.clauses)
        && r.obligations.Keys <= contracts.Keys && ObligationsKeyed(r.obligations)
        && r.milestones.Keys <= contracts.Keys && MilestonesKeyed(r.milestones)
    {
      if parse.Ok? {
        StoredParsedKeyed(contractId, parse.value);
      }
    }

    lemma StoredParsedKeyed(contractId: string, parsed: ParseResult)
      requires Valid()
      ensures ClausesKeyed(clauses[contractId := StampClauses(parsed.clauses, contractId)])
      ensures ObligationsKeyed(obligations[contractId := StampObligations(parsed.obligations, contractId)])
      ensures MilestonesKeyed(milestones[contractId := StampMilestones(parsed.milestones, contractId)])
    {
    }

    lemma StoredRiskKeyed(contractId: string, risk: RiskAssessment)
      requires Valid() && risk.contractId == contractId
      ensures RisksKeyed(riskAssessments[contractId := risk])
      ensures contractId in riskAssessments ==> OrderOf(riskOrder, riskAssessments[contractId := risk])
      ensures contractId !in riskAssessments ==> OrderOf(riskOrder + [contractId], riskAssessments[contractId := risk])
    {
    }

    lemma StoredInsightsKeyed(contractId: string, generated: seq<Insight>)
      requires Valid() && InsightsOf(generated, contractId)
      ensures InsightsKeyed(insights[contractId := generated])
    {
    }

    // -------------------------------------------------------------------------
    // Queries

    /** `getContracts()`: the records in insertion order. */
    function GetContracts(): (cs: seq<ContractMetadata>)
      requires Valid()
      ensures |cs| == |contracts|
      ensures forall k :: k in contracts ==> contracts[k] in cs
      ensures forall c :: c in cs ==> c.id in contracts && contracts[c.id] == c
    {
      ValuesInOrder(order, contracts);
      ValuesAt(order, contracts)
    }

    /** `getContract(id)`. */
    function GetContract(contractId: string): (r: Option<ContractMetadata>)
      requires Valid()
      ensures r.Some? <==> contractId in contracts
      ensures r.Some? ==> r.value.id == contractId && r.value == contracts[contractId]
    {
      if contractId in contracts then Some(contracts[contractId]) else None
    }

    /** `getContractClauses(id)`: `[]` when nothing is stored. */
    function GetContractClauses(contractId: string): (cs: seq<Clause>)
      requires Valid()
      ensures contractId !in clauses ==> cs == []
      ensures contractId in clauses ==> cs == clauses[contractId]
      ensures ClausesOf(cs, contractId)
    {
      if contractId in clauses then clauses[contractId] else []
    }

    /** `getContractObligations(id)`: `[]` when nothing is stored. */
    function GetContractObligations(contractId: string): (os: seq<Obligation>)
      requires Valid()
      ensures contractId !in obligations ==> os == []
      ensures contractId in obligations ==> os == obligations[contractId]
      ensures ObligationsOf(os, contractId)
    {
      if contractId in obligations then obligations[contractId] else []
    }

    /** `getContractMilestones(id)`: `[]` when nothing is stored. */
    function GetContractMilestones(contractId: string): (ms: seq<Milestone>)
      requires Valid()
      ensures contractId !in milestones ==> ms == []
      ensures contractId in milestones ==> ms == milestones[contractId]
      ensures MilestonesOf(ms, contractId)
    {
      if contractId in milestones then milestones[contractId] else []
    }

    /** `getRiskAssessment(id)`: absent until an assessment has been stored. */
    function GetRiskAssessment(contractId: string): (r: Option<RiskAssessment>)
      requires Valid()
      ensures r.Some? <==> contractId in riskAssessments
      ensures r.Some? ==> r.value == riskAssessments[contractId]
      ensures r.Some? ==> r.value.contractId == contractId && contractId in contracts
    {
      if contractId in riskAssessments then Some(riskAssessments[contractId]) else None
    }

    /** `getInsights(id)`: `[]` when nothing is stored. */
    function GetInsights(contractId: string): (xs: seq<Insight>)
      requires Valid()
      ensures contractId !in insights ==> xs == []
      ensures contractId in insights ==> xs == insights[contractId]
      ensures InsightsOf(xs, contractId)
    {
      if contractId in insights then insights[contractId] else []
    }

    /** `getAllRiskAssessments()`: the stored assessments in insertion order. */
    function GetAllRiskAssessments(): (rs: seq<RiskAssessment>)
      requires Valid()
      ensures |rs| == |riskAssessments|
      ensures forall k :: k in riskAssessments ==> riskAssessments[k] in rs
      ensures forall r :: r in rs ==> r.contractId in riskAssessments && riskAssessments[r.contractId] == r
    {
      ValuesInOrder(riskOrder, riskAssessments);
      ValuesAt(riskOrder, riskAssessments)
    }

    /**
     * `getPortfolioAnalytics()`, less the fixed total value, deadlines and
     * alert counts: every figure is computed from the current maps.
     */
    function GetPortfolioAnalytics(): (a: Analytics)
      requires Valid()
      ensures a.totalContracts == |contracts|
      ensures a.averageRiskScore == AverageRiskScore(GetAllRiskAssessments())
      ensures a.contractsByType == GroupByType(GetContracts())
      ensures a.riskDistribution == RiskDistribution(GetAllRiskAssessments())
      ensures TypeTotal(a.contractsByType) == a.totalContracts
      ensures LevelTotal(a.riskDistribution) == |riskAssessments|
      ensures riskAssessments == map[] ==> a.averageRiskScore == 0
      ensures riskAssessments != map[] ==>
        MinOf(GetAllRiskAssessments(), OverallScore) <= a.averageRiskScore <= MaxOf(GetAllRiskAssessments(), OverallScore)
    {
      var cs := GetContracts();
      var rs := GetAllRiskAssessments();
      Analytics(|cs|, AverageRiskScore(rs), GroupByType(cs), RiskDistribution(rs))
    }
  }

  lemma UpdateTwice<K, V>(m: map<K, V>, k: K, a: V, b: V)
    ensures m[k := a][k := b] == m[k := b]
  {
  }
}
