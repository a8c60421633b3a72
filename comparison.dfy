/**
 * The comparison panel (`ContractComparison`): the ids the user has ticked,
 * the contracts compared once at least two are ticked, the unified view that
 * lists each clause title once, and the summary counts and similarity score.
 */
module Comparison {
  import opened Options
  import opened Lists
  import opened Numeric

  datatype Difference = Added | Removed | Modified | Same

  datatype ContractClause = ContractClause(
    id: string,
    title: string,
    content: string,
    section: string,
    differences: Option<Difference>)

  datatype Contract = Contract(id: string, name: string, clauses: seq<ContractClause>)

  // ---------------------------------------------------------------------------
  // Selection

  /** The checkbox `onChange`: ticking appends the id, unticking drops every copy of it. */
  function SelectionAfter(selected: seq<string>, contractId: string, checked: bool): (r: seq<string>)
    ensures checked ==> r == selected + [contractId]
    ensures !checked ==> contractId !in r && IsSubsequence(r, selected)
    ensures !checked ==> forall id :: id != contractId ==> (id in r <==> id in selected)
    ensures !checked ==> |r| + Occurrences(selected, contractId) == |selected|
  {
    if checked then selected + [contractId] else RemoveAll(selected, contractId)
  }

  /** Ticking a box that was not ticked and then unticking it restores the selection. */
  lemma TickThenUntick(selected: seq<string>, contractId: string)
    requires contractId !in selected
    ensures SelectionAfter(SelectionAfter(selected, contractId, true), contractId, false) == selected
  {
    RemoveAppended(selected, contractId);
  }

  /** A checkbox only reports `checked` when it was unticked, so the selection never repeats an id. */
  lemma SelectionStaysDistinct(selected: seq<string>, contractId: string, checked: bool)
    requires Distinct(selected)
    requires checked <==> contractId !in selected
    ensures Distinct(SelectionAfter(selected, contractId, checked))
  {
    if !checked {
      FilterDistinct(selected, Except(contractId));
    }
  }

  class ComparisonPanel {
    var selectedContracts: seq<string>

    constructor()
      ensures selectedContracts == []
    {
      selectedContracts := [];
    }

    method OnSelectionChange(contractId: string, checked: bool)
      modifies this
      ensures selectedContracts == SelectionAfter(old(selectedContracts), contractId, checked)
    {
      if checked {
        selectedContracts := selectedContracts + [contractId];
      } else {
        selectedContracts := RemoveAll(selectedContracts, contractId);
      }
    }
  }

  // ---------------------------------------------------------------------------
  // The compared contracts

  function IsSelected(selected: seq<string>): Contract -> bool {
    (c: Contract) => c.id in selected
  }

  /**
   * `compareContracts`: `null` while fewer than two ids are ticked, otherwise
   * the available contracts whose id is ticked, in the order of the available
   * list rather than the order of ticking.
   */
  function CompareContracts(available: seq<Contract>, selected: seq<string>): (r: Option<seq<Contract>>)
    ensures r.None? <==> |selected| < 2
    ensures r.Some? ==> IsSubsequence(r.value, available)
    ensures r.Some? ==> forall c :: c in r.value <==> c in available && c.id in selected
  {
    if |selected| < 2 then None else Some(Filter(available, IsSelected(selected)))
  }

  /**
   * `contracts.flatMap(c => c.clauses)`: one contract gives its own clauses,
   * and `AllClausesAppend` fixes the order and the copies of a longer list.
   */
  function AllClauses(contracts: seq<Contract>): (cls: seq<ContractClause>)
    ensures |contracts| == 1 ==> cls == contracts[0].clauses
    ensures forall i, cl :: 0 <= i < |contracts| && cl in contracts[i].clauses ==> cl in cls
    ensures forall cl :: cl in cls ==> exists i :: 0 <= i < |contracts| && cl in contracts[i].clauses
  {
    if contracts == [] then []
    else
      var rest := AllClauses(contracts[1..]);
      assert forall i :: 1 <= i < |contracts| ==> contracts[i] == contracts[1..][i - 1];
      assert |contracts| == 1 ==> rest == [];
      contracts[0].clauses + rest
  }

  /** The clauses of `a + b` are those of `a`, in order, followed by those of `b`. */
  lemma {:induction false} AllClausesAppend(a: seq<Contract>, b: seq<Contract>)
    ensures AllClauses(a + b) == AllClauses(a) + AllClauses(b)
  {
    if a == [] {
      assert a + b == b;
    } else {
      assert (a + b)[1..] == a[1..] + b;
      AllClausesAppend(a[1..], b);
    }
  }

  function Titles(clauses: seq<ContractClause>): (ts: seq<string>)
    ensures |ts| == |clauses|
    ensures forall i :: 0 <= i < |clauses| ==> ts[i] == clauses[i].title
  {
    if clauses == [] then [] else [clauses[0].title] + Titles(clauses[1..])
  }

  /**
   * The titles of the unified view: every clause title of the compared
   * contracts once, in order of first occurrence.
   */
  function UnifiedTitles(compared: seq<Contract>): (ts: seq<string>)
    ensures Distinct(ts)
    ensures forall t :: t in ts <==> exists cl :: cl in AllClauses(compared) && cl.title == t
  {
    var titles := Titles(AllClauses(compared));
    var ts := Dedup(titles);
    assert forall t :: t in titles <==> exists cl :: cl in AllClauses(compared) && cl.title == t by {
      var cls := AllClauses(compared);
      forall t | t in titles ensures exists cl :: cl in cls && cl.title == t {
        var i :| 0 <= i < |titles| && titles[i] == t;
        assert cls[i] in cls;
      }
      forall t | exists cl :: cl in cls && cl.title == t ensures t in titles {
        var cl :| cl in cls && cl.title == t;
        var i :| 0 <= i < |cls| && cls[i] == cl;
        assert titles[i] == t;
      }
    }
    ts
  }

  /** Earlier titles of the unified view first occur earlier among the compared clauses. */
  lemma UnifiedTitlesInFirstOccurrenceOrder(compared: seq<Contract>, i: nat, j: nat)
    requires i < j < |UnifiedTitles(compared)|
    ensures var titles := Titles(AllClauses(compared));
      var ts := UnifiedTitles(compared);
      FirstIndex(titles, ts[i]) < FirstIndex(titles, ts[j])
  {
    DedupFirstOccurrenceOrder(Titles(AllClauses(compared)), i, j);
  }

  /** `clauses.find(clause => clause.title === title)`. */
  function FindByTitle(clauses: seq<ContractClause>, title: string): (r: Option<ContractClause>)
    ensures r.None? <==> forall cl :: cl in clauses ==> cl.title != title
    ensures r.Some? ==> r.value.title == title
    ensures r.Some? ==>
      exists k :: 0 <= k < |clauses| && clauses[k] == r.value && (forall j :: 0 <= j < k ==> clauses[j].title != title)
  {
    if clauses == [] then None
    else if clauses[0].title == title then Some(clauses[0])
    else
      var rest := FindByTitle(clauses[1..], title);
      assert forall j :: 1 <= j < |clauses| ==> clauses[j] == clauses[1..][j - 1];
      rest
  }

  /**
   * `clausesForTitle`: for each compared contract in order, its first clause
   * with the title; contracts without one are skipped. So one contract gives
   * its `find` result or nothing, every entry is some contract's first clause
   * with the title and every such clause is listed, and
   * `ClausesForTitleAppend` fixes the order and the number of entries.
   */
  function ClausesForTitle(compared: seq<Contract>, title: string): (r: seq<ContractClause>)
    ensures |compared| == 1 && FindByTitle(compared[0].clauses, title).Some? ==>
      r == [FindByTitle(compared[0].clauses, title).value]
    ensures |r| <= |compared|
    ensures forall cl :: cl in r <==>
      exists i :: 0 <= i < |compared| && FindByTitle(compared[i].clauses, title) == Some(cl)
    ensures forall cl :: cl in r ==> cl.title == title
    ensures r == [] <==> forall i :: 0 <= i < |compared| ==> FindByTitle(compared[i].clauses, title).None?
  {
    if compared == [] then []
    else
      var rest := ClausesForTitle(compared[1..], title);
      assert forall i :: 1 <= i < |compared| ==> compared[i] == compared[1..][i - 1];
      assert |compared| == 1 ==> rest == [];
      match FindByTitle(compared[0].clauses, title)
      case None => rest
      case Some(cl) => [cl] + rest
  }

  /** The entries for `a + b` are those for `a`, in order, followed by those for `b`. */
  lemma {:induction false} ClausesForTitleAppend(a: seq<Contract>, b: seq<Contract>, title: string)
    ensures ClausesForTitle(a + b, title) == ClausesForTitle(a, title) + ClausesForTitle(b, title)
  {
    if a == [] {
      assert a + b == b;
    } else {
      assert (a + b)[0] == a[0] && (a + b)[1..] == a[1..] + b;
      ClausesForTitleAppend(a[1..], b, title);
    }
  }

  /** Every title of the unified view has at least one clause under it. */
  lemma UnifiedTitleHasClauses(compared: seq<Contract>, title: string)
    requires title in UnifiedTitles(compared)
    ensures ClausesForTitle(compared, title) != []
  {
    var cl :| cl in AllClauses(compared) && cl.title == title;
    var i :| 0 <= i < |compared| && cl in compared[i].clauses;
    assert FindByTitle(compared[i].clauses, title).Some?;
  }

  // ---------------------------------------------------------------------------
  // Difference styling

  datatype DifferenceStyle = GreenBar | RedBar | YellowBar | GreyBar
  datatype DifferenceIcon = Plus | Minus | Memo | Check

  /** `getDifferenceColor(clause.differences || 'same')`. */
  function DifferenceColor(diff: Option<Difference>): (s: DifferenceStyle)
    ensures s == GreyBar <==> diff.GetOr(Same) == Same
  {
    match diff.GetOr(Same)
    case Added => GreenBar
    case Removed => RedBar
    case Modified => YellowBar
    case Same => GreyBar
  }

  /** `getDifferenceIcon(clause.differences || 'same')`. */
  function DifferenceMark(diff: Option<Difference>): (i: DifferenceIcon)
    ensures i == Check <==> diff.GetOr(Same) == Same
  {
    match diff.GetOr(Same)
    case Added => Plus
    case Removed => Minus
    case Modified => Memo
    case Same => Check
  }

  /**
   * A clause without a difference is shown as unchanged, and colour and icon
   * always tell the same difference.
   */
  lemma StylingAgrees(a: Option<Difference>, b: Option<Difference>)
    ensures DifferenceColor(None) == DifferenceColor(Some(Same))
    ensures DifferenceMark(None) == DifferenceMark(Some(Same))
    ensures DifferenceColor(a) == DifferenceColor(b) <==> DifferenceMark(a) == DifferenceMark(b)
  {
  }

  // ---------------------------------------------------------------------------
  // Summary

  function HasDifference(d: Difference): ContractClause -> bool {
    (cl: ContractClause) => cl.differences == Some(d)
  }

  /** `!cl.differences || cl.differences === 'same'`. */
  function Unchanged(): ContractClause -> bool {
    (cl: ContractClause) => cl.differences.GetOr(Same) == Same
  }

  function AddedCount(compared: seq<Contract>): nat {
    |Filter(AllClauses(compared), HasDifference(Added))|
  }

  function ModifiedCount(compared: seq<Contract>): nat {
    |Filter(AllClauses(compared), HasDifference(Modified))|
  }

  function SameCount(compared: seq<Contract>): nat {
    |Filter(AllClauses(compared), Unchanged())|
  }

  /** Added, modified and unchanged clauses are counted apart, so together they are at most all clauses. */
  lemma SummaryCountsDisjoint(compared: seq<Contract>)
    ensures AddedCount(compared) + ModifiedCount(compared) + SameCount(compared) <= |AllClauses(compared)|
  {
    var cls := AllClauses(compared);
    var addedOrModified := (cl: ContractClause) => cl.differences == Some(Added) || cl.differences == Some(Modified);
    var counted := (cl: ContractClause) => addedOrModified(cl) || Unchanged()(cl);
    FilterCountDisjoint(cls, HasDifference(Added), HasDifference(Modified), addedOrModified);
    FilterCountDisjoint(cls, addedOrModified, Unchanged(), counted);
  }

  /**
   * The similarity score: `Math.round(same / total * 100)`, a percentage; with
   * no clauses at all the source divides 0 by 0 and shows `NaN`, here `None`.
   */
  function Similarity(compared: seq<Contract>): (r: Option<nat>)
    ensures r.None? <==> AllClauses(compared) == []
    ensures r.Some? ==> r.value <= 100
    ensures r.Some? ==> var total := |AllClauses(compared)|;
      2 * total * r.value <= 200 * SameCount(compared) + total < 2 * total * (r.value + 1)
  {
    var total := |AllClauses(compared)|;
    if total == 0 then None
    else
      RoundDivWithin(100 * SameCount(compared), total, 0, 100);
      Some(RoundDiv(100 * SameCount(compared), total))
  }
}
