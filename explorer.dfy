/**
 * The contract explorer (`ContractExplorer`): the uploaded contracts held as
 * component state, the upload handlers that put new records in front of the
 * list, the timer callback that marks a record analysed with a score, the
 * drag-highlight flag, and the risk badge and counts shown for the list.
 */
module Explorer {
  import opened Options
  import opened Lists

  datatype Status = Processing | Analyzed | Error

  datatype Contract = Contract(
    id: string,
    name: string,
    uploadDate: string,
    size: string,
    status: Status,
    riskScore: Option<nat>,
    contractType: string)

  /** A file handed to the explorer; `size` is its size as already formatted in megabytes. */
  datatype DroppedFile = DroppedFile(name: string, size: string)

  // ---------------------------------------------------------------------------
  // Uploads

  /** The record `handleFiles` creates for one file: processing, of type `'Unknown'`, without a score. */
  function NewRecord(file: DroppedFile, id: string, date: string): (c: Contract)
    ensures c.id == id && c.name == file.name && c.size == file.size && c.uploadDate == date
    ensures c.status == Processing && c.riskScore.None? && c.contractType == "Unknown"
  {
    Contract(id, file.name, date, file.size, Processing, None, "Unknown")
  }

  /**
   * The records of one `handleFiles` call as they end up at the head of the
   * list: each file's record is put in front of the previous ones, so the last
   * file comes first. The clock is read for each file: `ids[k]` is the
   * millisecond reading that becomes the id of `files[k]`, and `dates[k]` the
   * date read for it.
   */
  function Uploads(files: seq<DroppedFile>, ids: seq<string>, dates: seq<string>): (r: seq<Contract>)
    requires |ids| == |files| && |dates| == |files|
    ensures |r| == |files|
    ensures forall k :: 0 <= k < |files| ==>
      r[k] == NewRecord(files[|files| - 1 - k], ids[|files| - 1 - k], dates[|files| - 1 - k])
  {
    if files == [] then []
    else
      var n := |files| - 1;
      [NewRecord(files[n], ids[n], dates[n])] + Uploads(files[..n], ids[..n], dates[..n])
  }

  /** The completion callback's `prev.map`: records with the id become analysed with the score. */
  function MarkAnalyzed(contracts: seq<Contract>, id: string, score: nat): (r: seq<Contract>)
    ensures |r| == |contracts|
    ensures forall i :: 0 <= i < |contracts| && contracts[i].id == id ==>
      r[i] == contracts[i].(status := Analyzed, riskScore := Some(score))
    ensures forall i :: 0 <= i < |contracts| && contracts[i].id != id ==> r[i] == contracts[i]
  {
    if contracts == [] then []
    else
      var head := if contracts[0].id == id then contracts[0].(status := Analyzed, riskScore := Some(score)) else contracts[0];
      [head] + MarkAnalyzed(contracts[1..], id, score)
  }

  /**
   * The id is the clock in milliseconds, so two files handled in the same
   * millisecond share it: the first completion then marks both records, and
   * the second overwrites both scores.
   */
  lemma SharedIdCompletion(a: DroppedFile, b: DroppedFile, id: string, dateA: string, dateB: string, first: nat, second: nat)
    ensures var records := Uploads([a, b], [id, id], [dateA, dateB]);
      && MarkAnalyzed(records, id, first)[0].riskScore == Some(first)
      && MarkAnalyzed(records, id, first)[1].riskScore == Some(first)
      && MarkAnalyzed(MarkAnalyzed(records, id, first), id, second)[1].riskScore == Some(second)
  {
  }

  // ---------------------------------------------------------------------------
  // Drag highlight

  /** `handleDrag`: `dragenter`/`dragover` switch the highlight on, `dragleave` off, anything else leaves it. */
  function DragActiveAfter(active: bool, eventType: string): (r: bool)
    ensures eventType == "dragenter" || eventType == "dragover" ==> r
    ensures eventType == "dragleave" ==> !r
    ensures eventType != "dragenter" && eventType != "dragover" && eventType != "dragleave" ==> r == active
  {
    if eventType == "dragenter" || eventType == "dragover" then true
    else if eventType == "dragleave" then false
    else active
  }

  // ---------------------------------------------------------------------------
  // Risk badge

  datatype RiskLabel = High | Medium | Low
  datatype BadgeColor = RedBadge | YellowBadge | GreenBadge

  /** `getRiskLabel`. */
  function Label(score: int): (l: RiskLabel)
    ensures l == High <==> score >= 70
    ensures l == Medium <==> 40 <= score < 70
    ensures l == Low <==> score < 40
  {
    if score >= 70 then High
    else if score >= 40 then Medium
    else Low
  }

  /** `getRiskColor`, written as its own chain of comparisons. */
  function Color(score: int): BadgeColor {
    if score >= 70 then RedBadge
    else if score >= 40 then YellowBadge
    else GreenBadge
  }

  function LabelColor(l: RiskLabel): BadgeColor {
    match l
    case High => RedBadge
    case Medium => YellowBadge
    case Low => GreenBadge
  }

  /** The badge colour always matches its label, and a higher score never gets a milder label. */
  lemma BadgeAgrees(score: int, higher: int)
    requires score <= higher
    ensures Color(score) == LabelColor(Label(score))
    ensures Label(score) == High ==> Label(higher) == High
    ensures Label(higher) == Low ==> Label(score) == Low
  {
  }

  /**
   * The badge is rendered under `contract.status === 'analyzed' && contract.riskScore`,
   * so a score of 0 counts as missing.
   */
  predicate ShowsBadgeAsWritten(c: Contract) {
    c.status == Analyzed && c.riskScore.Some? && c.riskScore.value != 0
  }

  /** Every analysed record with a score shows its badge. */
  predicate ShowsBadge(c: Contract) {
    c.status == Analyzed && c.riskScore.Some?
  }

  /**
   * The completion draws `Math.floor(Math.random() * 100)`, which can be 0; a
   * record completed with 0 shows neither the processing spinner, nor a
   * badge, nor the error text, only a bare "0".
   */
  lemma ZeroScoreShowsNothing(contracts: seq<Contract>, id: string)
    requires exists i :: 0 <= i < |contracts| && contracts[i].id == id
    ensures exists i :: 0 <= i < |contracts| && Blank(MarkAnalyzed(contracts, id, 0)[i])
  {
    var i :| 0 <= i < |contracts| && contracts[i].id == id;
    assert Blank(MarkAnalyzed(contracts, id, 0)[i]);
  }

  /**
   * A record whose status area shows no spinner, no badge and no error text
   * (with a score of 0 the JSX expression yields the number 0, which React
   * prints as a bare "0").
   */
  predicate Blank(c: Contract) {
    c.status != Processing && c.status != Error && !ShowsBadgeAsWritten(c)
  }

  /** With the corrected test every completed record shows its badge, whatever score it drew. */
  lemma CompletedShowsBadge(contracts: seq<Contract>, id: string, score: nat)
    ensures forall i :: 0 <= i < |contracts| && contracts[i].id == id ==>
      ShowsBadge(MarkAnalyzed(contracts, id, score)[i])
  {
  }

  // ---------------------------------------------------------------------------
  // Counts

  function IsAnalyzed(c: Contract): bool { c.status == Analyzed }
  function IsProcessing(c: Contract): bool { c.status == Processing }

  /** `c.riskScore && c.riskScore >= 70`: a score of 0 is falsy, and is below 70 anyway. */
  function IsHighRisk(c: Contract): bool {
    c.riskScore.Some? && c.riskScore.value != 0 && c.riskScore.value >= 70
  }

  datatype Counts = Counts(total: nat, analyzed: nat, highRisk: nat, processing: nat)

  /**
   * The counts of the list header and the three quick-stat cards: all records,
   * the positions holding an analysed record, a high-risk one and a processing
   * one.
   */
  function PortfolioCounts(contracts: seq<Contract>): (n: Counts)
    ensures n.total == |contracts|
    ensures n.analyzed == |Positions(contracts, IsAnalyzed)|
    ensures n.highRisk == |Positions(contracts, IsHighRisk)|
    ensures n.processing == |Positions(contracts, IsProcessing)|
    ensures n.analyzed + n.processing <= n.total
    ensures n.highRisk <= n.total
    ensures n.processing == 0 <==> forall c :: c in contracts ==> c.status != Processing
  {
    var either := (c: Contract) => IsAnalyzed(c) || IsProcessing(c);
    var processing := Filter(contracts, IsProcessing);
    FilterCountDisjoint(contracts, IsAnalyzed, IsProcessing, either);
    assert processing != [] ==> processing[0] in processing;
    FilterCountsPositions(contracts, IsAnalyzed);
    FilterCountsPositions(contracts, IsHighRisk);
    FilterCountsPositions(contracts, IsProcessing);
    Counts(|contracts|, |Filter(contracts, IsAnalyzed)|, |Filter(contracts, IsHighRisk)|, |processing|)
  }

  /** An upload adds one processing record per file and leaves the analysed and high-risk counts alone. */
  lemma UploadCounts(files: seq<DroppedFile>, ids: seq<string>, dates: seq<string>, contracts: seq<Contract>)
    requires |ids| == |files| && |dates| == |files|
    ensures var before := PortfolioCounts(contracts);
      var after := PortfolioCounts(Uploads(files, ids, dates) + contracts);
      && after.total == before.total + |files|
      && after.processing == before.processing + |files|
      && after.analyzed == before.analyzed
      && after.highRisk == before.highRisk
  {
    var added := Uploads(files, ids, dates);
    assert forall c :: c in added ==> c.status == Processing && c.riskScore.None?;
    FilterAppend(added, contracts, IsProcessing);
    FilterAppend(added, contracts, IsAnalyzed);
    FilterAppend(added, contracts, IsHighRisk);
    FilterKeepsAll(added, IsProcessing);
    FilterDropsAll(added, IsAnalyzed);
    FilterDropsAll(added, IsHighRisk);
  }

  /** A completion never adds a processing record, and never removes an analysed one. */
  lemma {:induction false} CompletionCounts(contracts: seq<Contract>, id: string, score: nat)
    ensures var before := PortfolioCounts(contracts);
      var after := PortfolioCounts(MarkAnalyzed(contracts, id, score));
      && after.total == before.total
      && after.processing <= before.processing
      && after.analyzed >= before.analyzed
  {
    if contracts != [] {
      CompletionCounts(contracts[1..], id, score);
      assert MarkAnalyzed(contracts, id, score)[1..] == MarkAnalyzed(contracts[1..], id, score);
    }
  }

  // ---------------------------------------------------------------------------
  // The component's state

  const InitialContracts: seq<Contract> := [
    Contract("1", "Metro Rail Project Agreement - Phase 1", "2024-09-15", "2.3 MB", Analyzed, Some(65), "Infrastructure"),
    Contract("2", "Solar Energy Plant Construction Contract", "2024-09-10", "1.8 MB", Analyzed, Some(45), "Renewable Energy"),
    Contract("3", "Highway Development BOT Agreement", "2024-09-08", "3.1 MB", Processing, None, "Transportation")
  ]

  /** The shipped list: two analysed records, one processing, none high risk. */
  lemma InitialCounts()
    ensures PortfolioCounts(InitialContracts) == Counts(3, 2, 0, 1)
  {
    var cs := InitialContracts;
    var tail := cs[1..];
    assert tail == [cs[1], cs[2]];
    assert tail[1..] == [cs[2]];
    assert Filter(cs, IsAnalyzed) == [cs[0], cs[1]];
    assert Filter(cs, IsHighRisk) == [];
    assert Filter(cs, IsProcessing) == [cs[2]];
  }

  class ContractExplorer {
    var contracts: seq<Contract>
    var dragActive: bool

    constructor()
      ensures contracts == InitialContracts && !dragActive
    {
      contracts := InitialContracts;
      dragActive := false;
    }

    /**
     * `handleFiles`: one record per file, each put in front of the list as
     * the loop reaches it. `ids[k]` and `dates[k]` are the clock readings
     * taken for `files[k]`: the id and the upload date.
     */
    method HandleFiles(files: seq<DroppedFile>, ids: seq<string>, dates: seq<string>)
      requires |ids| == |files| && |dates| == |files|
      modifies this
      ensures contracts == Uploads(files, ids, dates) + old(contracts)
      ensures dragActive == old(dragActive)
    {
      for k := 0 to |files|
        invariant contracts == Uploads(files[..k], ids[..k], dates[..k]) + old(contracts)
        invariant dragActive == old(dragActive)
      {
        contracts := [NewRecord(files[k], ids[k], dates[k])] + contracts;
        assert files[..k + 1][..k] == files[..k];
        assert ids[..k + 1][..k] == ids[..k];
        assert dates[..k + 1][..k] == dates[..k];
      }
      assert files[..|files|] == files && ids[..|ids|] == ids && dates[..|dates|] == dates;
    }

    /** The timer callback of one upload; `score` is the random draw, below 100. */
    method CompleteProcessing(id: string, score: nat)
      requires score < 100
      modifies this
      ensures contracts == MarkAnalyzed(old(contracts), id, score)
      ensures dragActive == old(dragActive)
    {
      contracts := MarkAnalyzed(contracts, id, score);
    }

    /** `handleDrag`. */
    method HandleDrag(eventType: string)
      modifies this
      ensures dragActive == DragActiveAfter(old(dragActive), eventType)
      ensures contracts == old(contracts)
    {
      if eventType == "dragenter" || eventType == "dragover" {
        dragActive := true;
      } else if eventType == "dragleave" {
        dragActive := false;
      }
    }

    /** `handleDrop`: the highlight goes off; the files are handled only when there is at least one. */
    method HandleDrop(files: seq<DroppedFile>, ids: seq<string>, dates: seq<string>)
      requires |ids| == |files| && |dates| == |files|
      modifies this
      ensures !dragActive
      ensures files == [] ==> contracts == old(contracts)
      ensures files != [] ==> contracts == Uploads(files, ids, dates) + old(contracts)
    {
      dragActive := false;
      if |files| > 0 {
        HandleFiles(files, ids, dates);
      }
    }
  }
}
