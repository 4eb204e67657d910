/**
 * The dashboard re-tallies a sheet's records with the utilities
 * (calculateSheetStats, calculateMarketData), which classify statuses by the
 * generic keyword rule. This relates that re-tally to the counts processSheet
 * gave the sheet: equal outside USR, at least as large on USR, where the
 * three-engine rule decided and the two rules can disagree.
 */
module Retally {
  import opened Wrappers
  import opened Strings
  import opened Sequences
  import opened Schema
  import opened StatusKeywords
  import opened Cells
  import P = ExcelParser
  import U = ExcelUtils

  /** Outside USR both copies of normalizeStatus classify every status alike. */
  lemma StatusRulesAgree(status: string, t: ReportType)
    requires t != USR
    ensures P.NormalizeStatus(status, Some(t)) == U.NormalizeStatus(status)
  {
    if status == [] {
      assert Trim(Lower(status)) == [];
    }
  }

  /** The label "Approved/Up" the three-engine rule writes is re-tallied as active. */
  lemma ApprovedUpRetallied()
    ensures U.NormalizeStatus("Approved/Up") == Active
  {
    ApprovedUpLowered();
    LabelClass("Approved/Up", "approved/up");
    ActiveKeywordAt("approved/up", "approved", 0);
  }

  lemma ApprovedUpLowered()
    ensures Lower("Approved/Up") == "approved/up"
    ensures TrimStart("approved/up") == "approved/up" && TrimEnd("approved/up") == "approved/up"
  {
    LowerPointwise("Approved/Up", "approved/up");
    NoEdgeWhitespace("approved/up");
  }

  /** The label "Pending" the three-engine rule writes is re-tallied as removed. */
  lemma PendingRetallied()
    ensures U.NormalizeStatus("Pending") == Removed
  {
    var pending := "pending";
    LowerPointwise("Pending", pending);
    NoEdgeWhitespace(pending);
    LabelClass("Pending", pending);
    PendingLabelIsRemoved();
  }

  /** An engine verdict "UP" leaves a USR row unknown under its own label. */
  lemma UpVerdictUnknown()
    ensures P.UsrStatus("", "UP", "", "") == ("UP", Unknown)
  {
  }

  /** ... yet the re-tally counts the label "UP" active. */
  lemma UpLabelRetallied()
    ensures U.NormalizeStatus("UP") == Active
  {
    var up := "up";
    LowerPointwise("UP", up);
    NoEdgeWhitespace(up);
    LabelClass("UP", up);
    ActiveKeywordAt(up, up, 0);
  }

  /** A label whose lower case needs no trimming is classified by the keyword rule on that lower case. */
  lemma LabelClass(text: string, lower: string)
    requires Lower(text) == lower && TrimStart(lower) == lower && TrimEnd(lower) == lower
    ensures U.NormalizeStatus(text) == KeywordRule(lower)
  {
  }

  /** Where each kept row's class is the keyword rule on its label, re-tallying the records gives the same counts. */
  lemma {:induction false} RetallyMatches(es: seq<P.Extracted>, c: StatusClass)
    requires forall i :: 0 <= i < |es| ==> U.StatusOf(es[i].record) == es[i].status
    ensures U.StatusCount(P.RecordsOf(es), c) == P.CountOf(es, c)
  {
    if es != [] {
      var init, e := es[..|es| - 1], es[|es| - 1];
      SplitLast(es);
      RetallyMatches(init, c);
      P.RecordsStep(init, e);
      U.StatusCountStep(P.RecordsOf(init), e.record, c);
    }
  }

  /** A class the keyword rule gives a label is the class the re-tally gives it. */
  lemma KeywordClassRetallied(es: seq<P.Extracted>)
    requires forall i :: 0 <= i < |es| ==> es[i].status == KeywordRule(Trim(Lower(es[i].record.status)))
    ensures forall i :: 0 <= i < |es| ==> U.StatusOf(es[i].record) == es[i].status
  {
  }

  /** Where active rows carry "Approved/Up" and removed rows "Pending", re-tallying counts at least as many of each. */
  lemma {:induction false} RetallyAtLeast(es: seq<P.Extracted>)
    requires forall i :: 0 <= i < |es| ==>
      (es[i].status == Active ==> es[i].record.status == "Approved/Up") && (es[i].status == Removed ==> es[i].record.status == "Pending")
    ensures P.CountOf(es, Active) <= U.StatusCount(P.RecordsOf(es), Active)
    ensures P.CountOf(es, Removed) <= U.StatusCount(P.RecordsOf(es), Removed)
  {
    if es != [] {
      var init, e := es[..|es| - 1], es[|es| - 1];
      assert es == init + [e];
      RetallyAtLeast(init);
      P.RecordsStep(init, e);
      U.StatusCountStep(P.RecordsOf(init), e.record, Active);
      U.StatusCountStep(P.RecordsOf(init), e.record, Removed);
      ApprovedUpRetallied();
      PendingRetallied();
    }
  }

  /**
   * Outside USR, calculateSheetStats over a processed sheet's records gives back
   * its active and removed counts, and so do the sums over calculateMarketData.
   */
  lemma NonUsrRetally(rows: seq<Row>, t: ReportType, parseDate: string -> Option<int>)
    requires t != USR
    ensures var sheet := P.SheetOf(rows, t, parseDate).sheet;
      && U.StatusCount(sheet.records, Active) == sheet.activeCount
      && U.StatusCount(sheet.records, Removed) == sheet.removedCount
      && SumOf(U.MarketDataOf(sheet.records), U.MarketActive) == sheet.activeCount
      && SumOf(U.MarketDataOf(sheet.records), U.MarketRemoved) == sheet.removedCount
  {
    P.NonUsrClassFollowsLabel(rows, t, parseDate);
    var es := if |rows| < 2 then [] else P.Extract(rows[1..], P.DetectColumns(P.HeaderTexts(rows[0]), t), t, parseDate);
    KeywordClassRetallied(es);
    RetallyMatches(es, Active);
    RetallyMatches(es, Removed);
    U.MarketTotals(P.SheetOf(rows, t, parseDate).sheet.records);
  }

  /** On USR the re-tally counts at least the sheet's own active and removed rows, and may count more. */
  lemma UsrRetally(rows: seq<Row>, parseDate: string -> Option<int>)
    ensures var sheet := P.SheetOf(rows, USR, parseDate).sheet;
      && sheet.activeCount <= U.StatusCount(sheet.records, Active)
      && sheet.removedCount <= U.StatusCount(sheet.records, Removed)
  {
    P.UsrRecords(rows, parseDate);
    var es := if |rows| < 2 then [] else P.Extract(rows[1..], P.DetectColumns(P.HeaderTexts(rows[0]), USR), USR, parseDate);
    RetallyAtLeast(es);
  }

  /** parseExcelFile's removal rate is getRemovalRate of the same totals. */
  lemma RemovalRatesAgree(removed: nat, total: nat)
    ensures Percentage(removed, total) == U.GetRemovalRate(removed, total)
  {
  }
}
