/**
 * The helpers the dashboard runs over parsed records: status re-classification,
 * a generic column detector, record filtering, per-market and per-owner rollups,
 * re-tallied sheet counts, the removal rate, the progress-bar colour band and
 * the sorted distinct values of a field.
 */
module ExcelUtils {
  import opened Wrappers
  import opened Strings
  import opened Sequences
  import opened Sorting
  import opened Schema
  import opened StatusKeywords
  import opened Headers
  import opened RecordValues

  // ---------------------------------------------------------------------
  // Status and columns

  /** normalizeStatus: the keyword rule on the lower-cased, trimmed status; "" is unknown. */
  function NormalizeStatus(status: string): (c: StatusClass)
    ensures Trim(Lower(status)) == [] ==> c == Unknown
    ensures c == Active <==> exists k :: k in ActiveKeywords && Includes(Trim(Lower(status)), k)
    ensures c == Removed <==> (forall k :: k in ActiveKeywords ==> !Includes(Trim(Lower(status)), k))
                              && exists k :: k in RemovedKeywords && Includes(Trim(Lower(status)), k)
  {
    EmptyIsUnknown();
    KeywordRule(Trim(Lower(status)))
  }

  datatype DetectedColumns = DetectedColumns(status: int, market: int, month: int, contentOwner: int, url: int)

  /** detectColumns: each column is the first header holding one of its keywords, or -1. */
  function DetectColumns(headers: seq<string>): (c: DetectedColumns)
    ensures IsFirstMatch(headers, ["status", "state"], c.status)
    ensures IsFirstMatch(headers, ["market", "country", "region", "location"], c.market)
    ensures IsFirstMatch(headers, ["month", "date", "period"], c.month)
    ensures IsFirstMatch(headers, ["content owner", "owner", "content_owner", "contentowner"], c.contentOwner)
    ensures IsFirstMatch(headers, ["url", "link", "address"], c.url)
  {
    DetectedColumns(
      FirstMatch(headers, ["status", "state"]),
      FirstMatch(headers, ["market", "country", "region", "location"]),
      FirstMatch(headers, ["month", "date", "period"]),
      FirstMatch(headers, ["content owner", "owner", "content_owner", "contentowner"]),
      FirstMatch(headers, ["url", "link", "address"]))
  }

  // ---------------------------------------------------------------------
  // Filtering

  /** The three selections of the dashboard's filters; an empty list selects everything. */
  datatype Selection = Selection(months: seq<string>, markets: seq<string>, contentOwners: seq<string>)

  /** One dimension lets a value through: no selection, an empty value, or a selected value. */
  predicate Admits(selected: seq<string>, value: string) {
    !(|selected| > 0 && value != [] && value !in selected)
  }

  /** The predicate filterRecords applies to each record. */
  predicate Keeps(sel: Selection, rec: Record) {
    Admits(sel.months, rec.month) && Admits(sel.markets, rec.market) && Admits(sel.contentOwners, rec.contentOwner)
  }

  /** filterRecords: the records the selection keeps, in their order. */
  function FilterRecords(records: seq<Record>, sel: Selection): (r: seq<Record>)
    ensures forall x :: x in r <==> x in records && Keeps(sel, x)
  {
    if records == [] then []
    else (if Keeps(sel, records[0]) then [records[0]] else []) + FilterRecords(records[1..], sel)
  }

  /** With nothing selected every record is kept. */
  lemma {:induction false} FilterNothingSelected(records: seq<Record>)
    ensures FilterRecords(records, Selection([], [], [])) == records
  {
    if records != [] {
      FilterNothingSelected(records[1..]);
    }
  }

  /** The result is an order-preserving subsequence of the input. */
  lemma {:induction false} FilterSubsequence(records: seq<Record>, sel: Selection)
    ensures IsSubsequence(FilterRecords(records, sel), records)
  {
    if records != [] {
      FilterSubsequence(records[1..], sel);
      var rest := FilterRecords(records[1..], sel);
      if Keeps(sel, records[0]) {
        assert FilterRecords(records, sel) == [records[0]] + rest;
        assert ([records[0]] + rest)[1..] == rest;
      } else {
        assert FilterRecords(records, sel) == rest;
        if rest != [] {
          assert IsSubsequence(rest, records[1..]);
        }
      }
    }
  }

  /** Filtering twice with the same selection changes nothing more. */
  lemma {:induction false} FilterIdempotent(records: seq<Record>, sel: Selection)
    ensures FilterRecords(FilterRecords(records, sel), sel) == FilterRecords(records, sel)
  {
    if records != [] {
      FilterIdempotent(records[1..], sel);
      var rest := FilterRecords(records[1..], sel);
      if Keeps(sel, records[0]) {
        assert ([records[0]] + rest)[1..] == rest;
      } else {
        assert [] + rest == rest;
      }
    }
  }

  /** A dimension never excludes a record whose value for it is empty. */
  lemma EmptyValueAdmitted(sel: Selection, rec: Record)
    ensures rec.month == [] ==> Keeps(sel, rec) == Keeps(sel.(months := []), rec)
    ensures rec.market == [] ==> Keeps(sel, rec) == Keeps(sel.(markets := []), rec)
    ensures rec.contentOwner == [] ==> Keeps(sel, rec) == Keeps(sel.(contentOwners := []), rec)
  {
  }

  /** `narrow` selects within `wide` on every dimension (an empty `wide` list selects everything). */
  predicate Narrows(narrow: Selection, wide: Selection) {
    && (wide.months == [] || (narrow.months != [] && forall x :: x in narrow.months ==> x in wide.months))
    && (wide.markets == [] || (narrow.markets != [] && forall x :: x in narrow.markets ==> x in wide.markets))
    && (wide.contentOwners == [] || (narrow.contentOwners != [] && forall x :: x in narrow.contentOwners ==> x in wide.contentOwners))
  }

  /** Narrowing the selection keeps a subsequence of what the wider selection keeps. */
  lemma FilterMonotone(records: seq<Record>, narrow: Selection, wide: Selection)
    requires Narrows(narrow, wide)
    ensures IsSubsequence(FilterRecords(records, narrow), FilterRecords(records, wide))
  {
    forall rec ensures Keeps(narrow, rec) ==> Keeps(wide, rec) {
    }
    FilterStronger(records, narrow, wide);
  }

  lemma {:induction false} FilterStronger(records: seq<Record>, narrow: Selection, wide: Selection)
    requires forall rec :: Keeps(narrow, rec) ==> Keeps(wide, rec)
    ensures IsSubsequence(FilterRecords(records, narrow), FilterRecords(records, wide))
  {
    if records != [] {
      FilterStronger(records[1..], narrow, wide);
      var a := FilterRecords(records[1..], narrow);
      var b := FilterRecords(records[1..], wide);
      if Keeps(narrow, records[0]) {
        assert FilterRecords(records, narrow) == [records[0]] + a;
        assert FilterRecords(records, wide) == [records[0]] + b;
        assert ([records[0]] + a)[1..] == a && ([records[0]] + b)[1..] == b;
      } else if Keeps(wide, records[0]) {
        assert FilterRecords(records, wide) == [records[0]] + b;
        assert FilterRecords(records, narrow) == [] + a == a;
        SubsequenceSkip(a, records[0], b);
      } else {
        assert FilterRecords(records, narrow) == [] + a == a;
        assert FilterRecords(records, wide) == [] + b == b;
      }
    }
  }

  // ---------------------------------------------------------------------
  // Counts

  /** The class a record's status label is re-tallied under. */
  function StatusOf(rec: Record): StatusClass {
    NormalizeStatus(rec.status)
  }

  /** How many records are re-tallied under class `c`. */
  function StatusCount(records: seq<Record>, c: StatusClass): nat {
    if records == [] then 0
    else StatusCount(records[..|records| - 1], c) + (if StatusOf(records[|records| - 1]) == c then 1 else 0)
  }

  lemma StatusCountStep(records: seq<Record>, rec: Record, c: StatusClass)
    ensures StatusCount(records + [rec], c) == StatusCount(records, c) + (if StatusOf(rec) == c then 1 else 0)
  {
    assert (records + [rec])[..|records|] == records;
  }

  /** calculateSheetStats: the active and removed tallies under the keyword rule. */
  method CalculateSheetStats(records: seq<Record>) returns (active: nat, removed: nat)
    ensures active == StatusCount(records, Active) && removed == StatusCount(records, Removed)
    ensures active + removed <= |records|
  {
    active, removed := 0, 0;
    for i := 0 to |records|
      invariant active == StatusCount(records[..i], Active) && removed == StatusCount(records[..i], Removed)
    {
      SliceStep(records, 0, i);
      StatusCountStep(records[..i], records[i], Active);
      StatusCountStep(records[..i], records[i], Removed);
      var status := NormalizeStatus(records[i].status);
      if status == Active {
        active := active + 1;
      } else if status == Removed {
        removed := removed + 1;
      }
    }
    assert records[..|records|] == records;
    StatusCountsBounded(records);
  }

  lemma {:induction false} StatusCountsBounded(records: seq<Record>)
    ensures StatusCount(records, Active) + StatusCount(records, Removed) <= |records|
  {
    if records != [] {
      StatusCountsBounded(records[..|records| - 1]);
    }
  }

  /** getRemovalRate: removed as a percentage of total, and 0 for a zero total. */
  function GetRemovalRate(removed: int, total: int): (r: real)
    ensures total == 0 ==> r == 0.0
    ensures total != 0 ==> r * total as real == removed as real * 100.0
    ensures 0 <= removed <= total ==> 0.0 <= r <= 100.0
  {
    if total == 0 then 0.0 else (removed as real / total as real) * 100.0
  }

  /** getProgressBarColor: the colour of a rate's 20-point band. */
  function GetProgressBarColor(rate: real): (color: string)
    ensures color in ["bg-green-500", "bg-emerald-500", "bg-yellow-500", "bg-orange-500", "bg-red-500"]
    ensures color == "bg-green-500" <==> rate >= 80.0
    ensures color == "bg-red-500" <==> rate < 20.0
  {
    if rate >= 80.0 then "bg-green-500"
    else if rate >= 60.0 then "bg-emerald-500"
    else if rate >= 40.0 then "bg-yellow-500"
    else if rate >= 20.0 then "bg-orange-500"
    else "bg-red-500"
  }

  /** The band of a colour, from red (0) to green (4). */
  function ColorRank(color: string): int {
    if color == "bg-green-500" then 4
    else if color == "bg-emerald-500" then 3
    else if color == "bg-yellow-500" then 2
    else if color == "bg-orange-500" then 1
    else 0
  }

  /** The band is the number of the boundaries 20, 40, 60 and 80 that the rate reaches. */
  lemma ColorBand(rate: real)
    ensures ColorRank(GetProgressBarColor(rate)) ==
      (if rate >= 20.0 then 1 else 0) + (if rate >= 40.0 then 1 else 0) + (if rate >= 60.0 then 1 else 0) + (if rate >= 80.0 then 1 else 0)
  {
  }

  /** A higher rate never gets a lower band. */
  lemma ColorMonotone(a: real, b: real)
    requires a <= b
    ensures ColorRank(GetProgressBarColor(a)) <= ColorRank(GetProgressBarColor(b))
  {
    ColorBand(a);
    ColorBand(b);
  }

  // ---------------------------------------------------------------------
  // Distinct values

  /** getUniqueValues: the distinct non-empty values of `field`, sorted. */
  method GetUniqueValues(records: seq<Record>, field: Field) returns (r: seq<string>)
    ensures StrictlySorted(r)
    ensures forall x :: x in r <==> x != [] && HasValue(records, field, x)
  {
    var values: seq<string> := [];
    for i := 0 to |records|
      invariant values == Collect(records[..i], field, "")
    {
      SliceStep(records, 0, i);
      CollectStep(records[..i], records[i], field, "", values);
      var value := FieldOf(records[i], field);
      if value != [] {
        values := AddDistinct(values, value);
      }
    }
    assert records[..|records|] == records;
    r := SortStrings(values);
    SortStringsMembers(values);
  }

  // ---------------------------------------------------------------------
  // Grouping by market or owner

  /** The key a record is grouped under: its market or owner, "Unknown" when blank. */
  function KeyOf(rec: Record, field: Field): string {
    OrUnknown(FieldOf(rec, field))
  }

  ghost predicate HasKey(records: seq<Record>, field: Field, m: string) {
    exists i :: 0 <= i < |records| && KeyOf(records[i], field) == m
  }

  /** The keys of a Map filled record by record: each key once, in order of first appearance. */
  function KeysOf(records: seq<Record>, field: Field): (r: seq<string>)
    ensures Distinct(r)
    ensures forall m :: m in r <==> HasKey(records, field, m)
  {
    if records == [] then []
    else
      var init := records[..|records| - 1];
      var m := KeyOf(records[|records| - 1], field);
      assert forall x :: HasKey(records, field, x) <==> HasKey(init, field, x) || x == m by {
        forall x ensures HasKey(records, field, x) <==> HasKey(init, field, x) || x == m {
          if HasKey(records, field, x) && x != m {
            var i :| 0 <= i < |records| && KeyOf(records[i], field) == x;
            assert KeyOf(init[i], field) == x;
          }
          if HasKey(init, field, x) {
            var i :| 0 <= i < |init| && KeyOf(init[i], field) == x;
            assert KeyOf(records[i], field) == x;
          }
        }
      }
      AddDistinct(KeysOf(init, field), m)
  }

  lemma KeysOfStep(records: seq<Record>, rec: Record, field: Field)
    ensures KeysOf(records + [rec], field) == AddDistinct(KeysOf(records, field), KeyOf(rec, field))
  {
    assert (records + [rec])[..|records|] == records;
  }

  /** `rec` is grouped under `m` and, when a class is given, re-tallied under it. */
  predicate Counts(rec: Record, field: Field, m: string, c: Option<StatusClass>) {
    KeyOf(rec, field) == m && (c.None? || StatusOf(rec) == c.value)
  }

  /** How many records `Counts` for key `m`. */
  function Tally(records: seq<Record>, field: Field, m: string, c: Option<StatusClass>): nat {
    if records == [] then 0
    else Tally(records[..|records| - 1], field, m, c) + (if Counts(records[|records| - 1], field, m, c) then 1 else 0)
  }

  lemma TallyStep(records: seq<Record>, rec: Record, field: Field, c: Option<StatusClass>)
    ensures forall m :: Tally(records + [rec], field, m, c) == Tally(records, field, m, c) + (if Counts(rec, field, m, c) then 1 else 0)
  {
    assert (records + [rec])[..|records|] == records;
  }

  /** A record of another key leaves the tally of `m` alone. */
  lemma TallyOther(records: seq<Record>, rec: Record, field: Field, m: string, c: Option<StatusClass>)
    requires KeyOf(rec, field) != m
    ensures Tally(records + [rec], field, m, c) == Tally(records, field, m, c)
  {
    assert (records + [rec])[..|records|] == records;
  }

  /** A record of key `m` raises the re-tally of its own class under `m`, and only that one. */
  lemma TallyBump(records: seq<Record>, rec: Record, field: Field, m: string, status: StatusClass)
    requires KeyOf(rec, field) == m && status == StatusOf(rec)
    ensures Tally(records + [rec], field, m, Some(Active)) == Tally(records, field, m, Some(Active)) + (if status == Active then 1 else 0)
    ensures Tally(records + [rec], field, m, Some(Removed)) == Tally(records, field, m, Some(Removed)) + (if status == Removed then 1 else 0)
  {
    assert (records + [rec])[..|records|] == records;
  }

  /** A record of key `m` raises the count of `m` by one. */
  lemma TallyCount(records: seq<Record>, rec: Record, field: Field, m: string)
    requires KeyOf(rec, field) == m
    ensures Tally(records + [rec], field, m, None) == Tally(records, field, m, None) + 1
  {
    assert (records + [rec])[..|records|] == records;
  }

  /** A key no record has tallies nothing. */
  lemma {:induction false} TallyAbsent(records: seq<Record>, field: Field, m: string, c: Option<StatusClass>)
    requires !HasKey(records, field, m)
    ensures Tally(records, field, m, c) == 0
  {
    if records != [] {
      var init := records[..|records| - 1];
      assert !HasKey(init, field, m) by {
        forall i | 0 <= i < |init| ensures KeyOf(init[i], field) != m {
          assert init[i] == records[i];
        }
      }
      TallyAbsent(init, field, m, c);
    }
  }

  /** What the tallies of all keys add up to: every record, or every record of class `c`. */
  function Whole(records: seq<Record>, c: Option<StatusClass>): nat {
    if c.None? then |records| else StatusCount(records, c.value)
  }

  function SumTallies(records: seq<Record>, field: Field, keys: seq<string>, c: Option<StatusClass>): nat {
    if keys == [] then 0 else Tally(records, field, keys[0], c) + SumTallies(records, field, keys[1..], c)
  }

  lemma {:induction false} SumTalliesAppend(records: seq<Record>, field: Field, keys: seq<string>, m: string, c: Option<StatusClass>)
    ensures SumTallies(records, field, keys + [m], c) == SumTallies(records, field, keys, c) + Tally(records, field, m, c)
  {
    if keys != [] {
      assert (keys + [m])[1..] == keys[1..] + [m];
      SumTalliesAppend(records, field, keys[1..], m, c);
    }
  }

  /** One more record raises the sum over distinct keys by one exactly when its key is among them. */
  lemma {:induction false} SumTalliesStep(records: seq<Record>, rec: Record, field: Field, keys: seq<string>, c: Option<StatusClass>)
    requires Distinct(keys)
    ensures SumTallies(records + [rec], field, keys, c) ==
      SumTallies(records, field, keys, c) + (if KeyOf(rec, field) in keys && (c.None? || StatusOf(rec) == c.value) then 1 else 0)
  {
    if keys != [] {
      TallyStep(records, rec, field, c);
      SumTalliesStep(records, rec, field, keys[1..], c);
      assert KeyOf(rec, field) in keys <==> KeyOf(rec, field) == keys[0] || KeyOf(rec, field) in keys[1..] by {
        assert keys == [keys[0]] + keys[1..];
      }
      assert keys[0] !in keys[1..];
    }
  }

  /** Summed over all keys, the per-key tallies count every record once. */
  lemma {:induction false} SumTalliesWhole(records: seq<Record>, field: Field, c: Option<StatusClass>)
    ensures SumTallies(records, field, KeysOf(records, field), c) == Whole(records, c)
  {
    if records != [] {
      var init, rec := records[..|records| - 1], records[|records| - 1];
      assert records == init + [rec];
      SumTalliesWhole(init, field, c);
      SumTalliesWholeStep(init, rec, field, c);
    }
  }

  /** One more record keeps the sum over the keys seen equal to the whole. */
  lemma SumTalliesWholeStep(init: seq<Record>, rec: Record, field: Field, c: Option<StatusClass>)
    requires SumTallies(init, field, KeysOf(init, field), c) == Whole(init, c)
    ensures SumTallies(init + [rec], field, KeysOf(init + [rec], field), c) == Whole(init + [rec], c)
  {
    var keys := KeysOf(init, field);
    var m := KeyOf(rec, field);
    KeysOfStep(init, rec, field);
    SumTalliesStep(init, rec, field, keys, c);
    StatusCountStep(init, rec, if c.Some? then c.value else Active);
    if m !in keys {
      NewKeyTally(init, rec, field, keys, c);
    }
  }

  /** A record with a new key adds that key's tally, which counts only this record. */
  lemma NewKeyTally(init: seq<Record>, rec: Record, field: Field, keys: seq<string>, c: Option<StatusClass>)
    requires keys == KeysOf(init, field) && KeyOf(rec, field) !in keys
    ensures SumTallies(init + [rec], field, keys + [KeyOf(rec, field)], c) ==
      SumTallies(init + [rec], field, keys, c) + (if c.None? || StatusOf(rec) == c.value then 1 else 0)
  {
    var m := KeyOf(rec, field);
    SumTalliesAppend(init + [rec], field, keys, m, c);
    TallyAbsent(init, field, m, c);
    TallyStep(init, rec, field, c);
  }

  // ---------------------------------------------------------------------
  // calculateMarketData

  /** The row of market `m`: its active and removed re-tallies and their sum. */
  function MarketEntry(records: seq<Record>, m: string): MarketData {
    var active := Tally(records, Market, m, Some(Active));
    var removed := Tally(records, Market, m, Some(Removed));
    MarketData(m, active, removed, active + removed)
  }

  /** The rows built from the Map's entries, in the Map's order. */
  function MarketEntries(records: seq<Record>, markets: seq<string>): (r: seq<MarketData>)
    ensures |r| == |markets| && forall i :: 0 <= i < |markets| ==> r[i].market == markets[i]
  {
    seq(|markets|, i requires 0 <= i < |markets| => MarketEntry(records, markets[i]))
  }

  function MarketActive(e: MarketData): int { e.activeCount }
  function MarketRemoved(e: MarketData): int { e.removedCount }
  function MarketTotal(e: MarketData): int { e.totalUrls }

  /** What calculateMarketData returns: one row per market, most URLs first, ties in order of first appearance. */
  function MarketDataOf(records: seq<Record>): seq<MarketData> {
    SortByKeyDesc(MarketEntries(records, KeysOf(records, Market)), MarketTotal)
  }

  /** The Map after `records`: their markets in insertion order, each with its two re-tallies. */
  ghost predicate MarketMapAfter(records: seq<Record>, marketMap: map<string, (nat, nat)>, markets: seq<string>) {
    markets == KeysOf(records, Market)
    && (forall m :: m in marketMap <==> m in markets)
    && forall m :: m in marketMap ==>
      marketMap[m] == (Tally(records, Market, m, Some(Active)), Tally(records, Market, m, Some(Removed)))
  }

  /** The body of the records.forEach of calculateMarketData. */
  method TallyMarket(done: seq<Record>, rec: Record, marketMap: map<string, (nat, nat)>, markets: seq<string>)
    returns (marketMap': map<string, (nat, nat)>, markets': seq<string>)
    requires MarketMapAfter(done, marketMap, markets)
    ensures MarketMapAfter(done + [rec], marketMap', markets')
  {
    var market := OrUnknown(rec.market);
    var active, removed := 0, 0;
    if market in marketMap {
      active, removed := marketMap[market].0, marketMap[market].1;
      markets' := markets;
    } else {
      TallyAbsent(done, Market, market, Some(Active));
      TallyAbsent(done, Market, market, Some(Removed));
      markets' := markets + [market];
    }
    active, removed := CountStatus(done, rec, active, removed);
    marketMap' := marketMap[market := (active, removed)];
    MarketMapStep(done, rec, marketMap, markets, active, removed, markets');
  }

  /** The increment of the record's market entry: active or removed by its normalised status, or neither. */
  method CountStatus(done: seq<Record>, rec: Record, active: nat, removed: nat) returns (active': nat, removed': nat)
    requires active == Tally(done, Market, OrUnknown(rec.market), Some(Active))
    requires removed == Tally(done, Market, OrUnknown(rec.market), Some(Removed))
    ensures active' == Tally(done + [rec], Market, OrUnknown(rec.market), Some(Active))
    ensures removed' == Tally(done + [rec], Market, OrUnknown(rec.market), Some(Removed))
  {
    var status := NormalizeStatus(rec.status);
    active', removed' := active, removed;
    if status == Active {
      active' := active + 1;
    } else if status == Removed {
      removed' := removed + 1;
    }
    MarketCountsStep(done, rec, status, active, removed, active', removed');
  }

  /** The re-tallies of a record's market after it: one more of its own class. */
  lemma MarketCountsStep(done: seq<Record>, rec: Record, status: StatusClass, active: nat, removed: nat, active': nat, removed': nat)
    requires status == StatusOf(rec)
    requires active == Tally(done, Market, OrUnknown(rec.market), Some(Active))
    requires removed == Tally(done, Market, OrUnknown(rec.market), Some(Removed))
    requires active' == active + (if status == Active then 1 else 0)
    requires removed' == removed + (if status == Removed then 1 else 0)
    ensures active' == Tally(done + [rec], Market, OrUnknown(rec.market), Some(Active))
    ensures removed' == Tally(done + [rec], Market, OrUnknown(rec.market), Some(Removed))
  {
    TallyBump(done, rec, Market, OrUnknown(rec.market), status);
  }

  /** The Map after one more record: its market's entry holds the new re-tallies, appended when new. */
  lemma MarketMapStep(done: seq<Record>, rec: Record, marketMap: map<string, (nat, nat)>, markets: seq<string>,
    active: nat, removed: nat, markets': seq<string>)
    requires MarketMapAfter(done, marketMap, markets)
    requires active == Tally(done + [rec], Market, OrUnknown(rec.market), Some(Active))
    requires removed == Tally(done + [rec], Market, OrUnknown(rec.market), Some(Removed))
    requires markets' == if OrUnknown(rec.market) in marketMap then markets else markets + [OrUnknown(rec.market)]
    ensures MarketMapAfter(done + [rec], marketMap[OrUnknown(rec.market) := (active, removed)], markets')
  {
    MarketKeysStep(done, rec, marketMap, markets, markets');
    MarketTalliesStep(done, rec, marketMap, OrUnknown(rec.market), active, removed);
  }

  /** The Map's keys after one more record: its market is appended when new. */
  lemma MarketKeysStep(done: seq<Record>, rec: Record, marketMap: map<string, (nat, nat)>, markets: seq<string>, markets': seq<string>)
    requires MarketMapAfter(done, marketMap, markets)
    requires markets' == if OrUnknown(rec.market) in marketMap then markets else markets + [OrUnknown(rec.market)]
    ensures markets' == KeysOf(done + [rec], Market)
  {
    KeysOfStep(done, rec, Market);
  }

  /** The Map's tallies after one more record: only its own market's entry changes. */
  lemma MarketTalliesStep(done: seq<Record>, rec: Record, marketMap: map<string, (nat, nat)>, market: string, active: nat, removed: nat)
    requires forall m :: m in marketMap ==>
      marketMap[m] == (Tally(done, Market, m, Some(Active)), Tally(done, Market, m, Some(Removed)))
    requires market == OrUnknown(rec.market)
    requires active == Tally(done + [rec], Market, market, Some(Active))
    requires removed == Tally(done + [rec], Market, market, Some(Removed))
    ensures forall m :: m in marketMap[market := (active, removed)] ==>
      marketMap[market := (active, removed)][m] == (Tally(done + [rec], Market, m, Some(Active)), Tally(done + [rec], Market, m, Some(Removed)))
  {
    var marketMap' := marketMap[market := (active, removed)];
    forall m | m in marketMap'
      ensures marketMap'[m] == (Tally(done + [rec], Market, m, Some(Active)), Tally(done + [rec], Market, m, Some(Removed)))
    {
      if m != market {
        TallyOther(done, rec, Market, m, Some(Active));
        TallyOther(done, rec, Market, m, Some(Removed));
        assert marketMap'[m] == marketMap[m];
      }
    }
  }

  /** The `.map` over the Map's entries. */
  method MarketRows(records: seq<Record>, marketMap: map<string, (nat, nat)>, markets: seq<string>) returns (entries: seq<MarketData>)
    requires forall m :: m in markets ==>
      m in marketMap && marketMap[m] == (Tally(records, Market, m, Some(Active)), Tally(records, Market, m, Some(Removed)))
    ensures entries == MarketEntries(records, markets)
  {
    entries := [];
    for j := 0 to |markets|
      invariant |entries| == j
      invariant forall k :: 0 <= k < j ==> entries[k] == MarketEntry(records, markets[k])
    {
      var market := markets[j];
      var (active, removed) := marketMap[market];
      var entry := MarketData(market, active, removed, active + removed);
      assert entry == MarketEntry(records, market);
      ghost var before := entries;
      entries := entries + [entry];
      forall k | 0 <= k < j + 1 ensures entries[k] == MarketEntry(records, markets[k]) {
        if k < j {
          assert entries[k] == before[k];
        }
      }
    }
  }

  /** calculateMarketData. */
  method CalculateMarketData(records: seq<Record>) returns (result: seq<MarketData>)
    ensures result == MarketDataOf(records)
  {
    var marketMap: map<string, (nat, nat)> := map[];
    var markets: seq<string> := [];
    for i := 0 to |records|
      invariant MarketMapAfter(records[..i], marketMap, markets)
    {
      SliceStep(records, 0, i);
      marketMap, markets := TallyMarket(records[..i], records[i], marketMap, markets);
    }
    assert records[..|records|] == records;
    var entries := MarketRows(records, marketMap, markets);
    result := SortByKeyDesc(entries, MarketTotal);
  }

  /** Every row of calculateMarketData is a market of the records (a blank one counted as "Unknown") with its own tallies. */
  lemma MarketRowsTally(records: seq<Record>)
    ensures var r := MarketDataOf(records);
      forall i :: 0 <= i < |r| ==>
        && HasKey(records, Market, r[i].market)
        && r[i].activeCount == Tally(records, Market, r[i].market, Some(Active))
        && r[i].removedCount == Tally(records, Market, r[i].market, Some(Removed))
        && r[i].totalUrls == r[i].activeCount + r[i].removedCount
  {
    var entries := MarketEntries(records, KeysOf(records, Market));
    var r := MarketDataOf(records);
    forall i | 0 <= i < |r|
      ensures r[i] == MarketEntry(records, r[i].market) && HasKey(records, Market, r[i].market)
    {
      assert r[i] in multiset(entries);
      var k :| 0 <= k < |entries| && entries[k] == r[i];
    }
  }

  /** Every market of the records has exactly one row, and the rows run from most URLs to fewest. */
  lemma MarketRowsCover(records: seq<Record>)
    ensures var r := MarketDataOf(records);
      && (forall m :: HasKey(records, Market, m) ==> exists i :: 0 <= i < |r| && r[i].market == m)
      && (forall i, j :: 0 <= i < j < |r| ==> r[i].market != r[j].market)
      && NonIncreasing(r, MarketTotal)
  {
    var keys := KeysOf(records, Market);
    RowsCoverKeys(MarketEntries(records, keys), MarketDataOf(records), (e: MarketData) => e.market, keys);
  }

  /** The rows' active, removed and total columns add up to the record-level re-tallies. */
  lemma MarketTotals(records: seq<Record>)
    ensures SumOf(MarketDataOf(records), MarketActive) == StatusCount(records, Active)
    ensures SumOf(MarketDataOf(records), MarketRemoved) == StatusCount(records, Removed)
    ensures SumOf(MarketDataOf(records), MarketTotal) == StatusCount(records, Active) + StatusCount(records, Removed)
  {
    var keys := KeysOf(records, Market);
    var entries := MarketEntries(records, keys);
    MarketEntriesSums(records, keys);
    SumTalliesWhole(records, Market, Some(Active));
    SumTalliesWhole(records, Market, Some(Removed));
    SumOfPermutation(MarketDataOf(records), entries, MarketActive);
    SumOfPermutation(MarketDataOf(records), entries, MarketRemoved);
    SumOfPermutation(MarketDataOf(records), entries, MarketTotal);
  }

  lemma {:induction false} MarketEntriesSums(records: seq<Record>, markets: seq<string>)
    ensures SumOf(MarketEntries(records, markets), MarketActive) == SumTallies(records, Market, markets, Some(Active))
    ensures SumOf(MarketEntries(records, markets), MarketRemoved) == SumTallies(records, Market, markets, Some(Removed))
    ensures SumOf(MarketEntries(records, markets), MarketTotal) ==
      SumTallies(records, Market, markets, Some(Active)) + SumTallies(records, Market, markets, Some(Removed))
  {
    if markets != [] {
      assert MarketEntries(records, markets)[1..] == MarketEntries(records, markets[1..]);
      MarketEntriesSums(records, markets[1..]);
    }
  }

  // ---------------------------------------------------------------------
  // calculateContentOwners

  /** The row of owner `m`: how many records it has, and their share of all records. */
  function OwnerEntry(records: seq<Record>, m: string): ContentOwnerData {
    var count := Tally(records, ContentOwner, m, None);
    ContentOwnerData(m, count, Percentage(count, |records|))
  }

  function OwnerEntries(records: seq<Record>, owners: seq<string>): (r: seq<ContentOwnerData>)
    ensures |r| == |owners| && forall i :: 0 <= i < |owners| ==> r[i].name == owners[i]
  {
    seq(|owners|, i requires 0 <= i < |owners| => OwnerEntry(records, owners[i]))
  }

  function OwnerCount(e: ContentOwnerData): int { e.count }

  /** What calculateContentOwners returns: one row per owner, most records first, ties in order of first appearance. */
  function ContentOwnersOf(records: seq<Record>): seq<ContentOwnerData> {
    SortByKeyDesc(OwnerEntries(records, KeysOf(records, ContentOwner)), OwnerCount)
  }

  /** The Map after `records`: their owners in insertion order, each with its number of records. */
  ghost predicate OwnerMapAfter(records: seq<Record>, ownerMap: map<string, nat>, owners: seq<string>) {
    owners == KeysOf(records, ContentOwner)
    && (forall m :: m in ownerMap <==> m in owners)
    && forall m :: m in ownerMap ==> ownerMap[m] == Tally(records, ContentOwner, m, None)
  }

  /** The body of the records.forEach of calculateContentOwners, but for `total++`. */
  method TallyOwner(done: seq<Record>, rec: Record, ownerMap: map<string, nat>, owners: seq<string>)
    returns (ownerMap': map<string, nat>, owners': seq<string>)
    requires OwnerMapAfter(done, ownerMap, owners)
    ensures OwnerMapAfter(done + [rec], ownerMap', owners')
  {
    var owner := OrUnknown(rec.contentOwner);
    var count := 0;
    if owner in ownerMap {
      count := ownerMap[owner];
      owners' := owners;
    } else {
      TallyAbsent(done, ContentOwner, owner, None);
      owners' := owners + [owner];
    }
    assert count == Tally(done, ContentOwner, owner, None);
    TallyCount(done, rec, ContentOwner, owner);
    ownerMap' := ownerMap[owner := count + 1];
    assert ownerMap'[owner] == Tally(done + [rec], ContentOwner, owner, None);
    forall m | m in ownerMap' && m != owner
      ensures ownerMap'[m] == Tally(done + [rec], ContentOwner, m, None)
    {
      TallyOther(done, rec, ContentOwner, m, None);
      assert ownerMap'[m] == ownerMap[m];
    }
    KeysOfStep(done, rec, ContentOwner);
    assert owners' == KeysOf(done + [rec], ContentOwner);
  }

  /** The `.map` over the Map's entries, with `total` the number of records. */
  method OwnerRows(records: seq<Record>, ownerMap: map<string, nat>, owners: seq<string>, total: nat)
    returns (entries: seq<ContentOwnerData>)
    requires OwnerMapAfter(records, ownerMap, owners) && total == |records|
    ensures entries == OwnerEntries(records, owners)
  {
    entries := [];
    for j := 0 to |owners|
      invariant |entries| == j
      invariant forall k :: 0 <= k < j ==> entries[k] == OwnerEntry(records, owners[k])
    {
      var name := owners[j];
      var count := ownerMap[name];
      var percentage := if total > 0 then (count as real / total as real) * 100.0 else 0.0;
      var entry := ContentOwnerData(name, count, percentage);
      assert entry == OwnerEntry(records, name);
      ghost var before := entries;
      entries := entries + [entry];
      forall k | 0 <= k < j + 1 ensures entries[k] == OwnerEntry(records, owners[k]) {
        if k < j {
          assert entries[k] == before[k];
        }
      }
    }
  }

  /** calculateContentOwners. */
  method CalculateContentOwners(records: seq<Record>) returns (result: seq<ContentOwnerData>)
    ensures result == ContentOwnersOf(records)
  {
    var ownerMap: map<string, nat> := map[];
    var owners: seq<string> := [];
    var total := 0;
    for i := 0 to |records|
      invariant OwnerMapAfter(records[..i], ownerMap, owners) && total == i
    {
      SliceStep(records, 0, i);
      ownerMap, owners := TallyOwner(records[..i], records[i], ownerMap, owners);
      total := total + 1;
    }
    assert records[..|records|] == records;
    var entries := OwnerRows(records, ownerMap, owners, total);
    result := SortByKeyDesc(entries, OwnerCount);
  }

  /** Every row of calculateContentOwners is an owner of the records (a blank one counted as "Unknown") with its count and share. */
  lemma OwnerRowsTally(records: seq<Record>)
    ensures var r := ContentOwnersOf(records);
      forall i :: 0 <= i < |r| ==>
        && HasKey(records, ContentOwner, r[i].name)
        && r[i].count == Tally(records, ContentOwner, r[i].name, None)
        && r[i].percentage == Percentage(r[i].count, |records|)
  {
    var entries := OwnerEntries(records, KeysOf(records, ContentOwner));
    var r := ContentOwnersOf(records);
    forall i | 0 <= i < |r|
      ensures r[i] == OwnerEntry(records, r[i].name) && HasKey(records, ContentOwner, r[i].name)
    {
      assert r[i] in multiset(entries);
      var k :| 0 <= k < |entries| && entries[k] == r[i];
    }
  }

  /** Every owner of the records has exactly one row, and the rows run from most records to fewest. */
  lemma OwnerRowsCover(records: seq<Record>)
    ensures var r := ContentOwnersOf(records);
      && (forall m :: HasKey(records, ContentOwner, m) ==> exists i :: 0 <= i < |r| && r[i].name == m)
      && (forall i, j :: 0 <= i < j < |r| ==> r[i].name != r[j].name)
      && NonIncreasing(r, OwnerCount)
  {
    var keys := KeysOf(records, ContentOwner);
    RowsCoverKeys(OwnerEntries(records, keys), ContentOwnersOf(records), (e: ContentOwnerData) => e.name, keys);
  }

  /** Rows made one per distinct key, in any order, have one row for each key and no key twice. */
  lemma RowsCoverKeys<T>(entries: seq<T>, r: seq<T>, name: T -> string, keys: seq<string>)
    requires |entries| == |keys| && forall i :: 0 <= i < |keys| ==> name(entries[i]) == keys[i]
    requires Distinct(keys) && multiset(r) == multiset(entries)
    ensures forall m :: m in keys ==> exists i :: 0 <= i < |r| && name(r[i]) == m
    ensures forall i, j :: 0 <= i < j < |r| ==> name(r[i]) != name(r[j])
  {
    forall m | m in keys ensures exists i :: 0 <= i < |r| && name(r[i]) == m {
      var k :| 0 <= k < |keys| && keys[k] == m;
      assert entries[k] in multiset(r);
      var i :| 0 <= i < |r| && r[i] == entries[k];
    }
    assert Distinct(entries);
    PermutationDistinct(entries, r);
    forall i, j | 0 <= i < j < |r| ensures name(r[i]) != name(r[j]) {
      assert r[i] in multiset(entries) && r[j] in multiset(entries);
      var a :| 0 <= a < |entries| && entries[a] == r[i];
      var b :| 0 <= b < |entries| && entries[b] == r[j];
    }
  }

  lemma {:induction false} OwnerEntriesSum(records: seq<Record>, owners: seq<string>)
    ensures SumOf(OwnerEntries(records, owners), OwnerCount) == SumTallies(records, ContentOwner, owners, None)
  {
    if owners != [] {
      assert OwnerEntries(records, owners)[1..] == OwnerEntries(records, owners[1..]);
      OwnerEntriesSum(records, owners[1..]);
    }
  }

  /** The owners' counts add up to the number of records. */
  lemma OwnerCountsSum(records: seq<Record>)
    ensures SumOf(ContentOwnersOf(records), OwnerCount) == |records|
  {
    var keys := KeysOf(records, ContentOwner);
    OwnerEntriesSum(records, keys);
    SumTalliesWhole(records, ContentOwner, None);
    SumOfPermutation(ContentOwnersOf(records), OwnerEntries(records, keys), OwnerCount);
  }

  function PercentSum(s: seq<ContentOwnerData>): real {
    if s == [] then 0.0 else s[0].percentage + PercentSum(s[1..])
  }

  lemma {:induction false} PercentSumScaled(s: seq<ContentOwnerData>, total: nat)
    requires total > 0
    requires forall i :: 0 <= i < |s| ==> s[i].percentage == Percentage(s[i].count, total)
    ensures PercentSum(s) == (SumOf(s, OwnerCount) as real / total as real) * 100.0
  {
    if s != [] {
      PercentSumScaled(s[1..], total);
      ShareAdd(s[0].count as real, SumOf(s[1..], OwnerCount) as real, total as real);
    }
  }

  lemma ShareAdd(a: real, b: real, t: real)
    requires t > 0.0
    ensures (a / t) * 100.0 + (b / t) * 100.0 == ((a + b) / t) * 100.0
  {
    var x, y := a / t, b / t;
    assert x * t == a && y * t == b;
    assert (x + y) * t == a + b;
  }

  /** When there are records, the owners' percentages add up to 100. */
  lemma OwnerPercentagesSum(records: seq<Record>)
    requires records != []
    ensures PercentSum(ContentOwnersOf(records)) == 100.0
  {
    var r := ContentOwnersOf(records);
    OwnerRowsTally(records);
    OwnerCountsSum(records);
    PercentSumScaled(r, |records|);
    WholeShare(|records| as real);
  }

  lemma WholeShare(n: real)
    requires n > 0.0
    ensures (n / n) * 100.0 == 100.0
  {
  }
}
