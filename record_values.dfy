/**
 * The insertion-ordered sets of record values both files build: months,
 * markets and content owners in the parser, any field in getUniqueValues.
 */
module RecordValues {
  import opened Schema
  import opened Sequences

  /** `value || "Unknown"`: the label of a blank market, owner or status. */
  function OrUnknown(value: string): string {
    if value == [] then "Unknown" else value
  }

  predicate HasValue(records: seq<Record>, field: Field, x: string) {
    exists i :: 0 <= i < |records| && FieldOf(records[i], field) == x
  }

  /**
   * What a JavaScript Set holds after each record's `field` is added in turn,
   * skipping the value `excluded`: every other value once, in order of first appearance.
   */
  function Collect(records: seq<Record>, field: Field, excluded: string): (r: seq<string>)
    ensures Distinct(r)
    ensures forall x :: x in r <==> x != excluded && HasValue(records, field, x)
  {
    if records == [] then []
    else
      var init := records[..|records| - 1];
      var v := FieldOf(records[|records| - 1], field);
      var acc := Collect(init, field, excluded);
      assert forall x :: HasValue(records, field, x) <==> HasValue(init, field, x) || x == v by {
        forall x ensures HasValue(records, field, x) <==> HasValue(init, field, x) || x == v {
          if HasValue(records, field, x) && x != v {
            var i :| 0 <= i < |records| && FieldOf(records[i], field) == x;
            assert FieldOf(init[i], field) == x;
          }
          if HasValue(init, field, x) {
            var i :| 0 <= i < |init| && FieldOf(init[i], field) == x;
            assert FieldOf(records[i], field) == x;
          }
        }
      }
      if v == excluded then acc else AddDistinct(acc, v)
  }

  /** Adding one more record extends the set by its value, unless excluded or already present. */
  lemma CollectStep(records: seq<Record>, rec: Record, field: Field, excluded: string, acc: seq<string>)
    requires acc == Collect(records, field, excluded)
    ensures Collect(records + [rec], field, excluded) ==
      (if FieldOf(rec, field) == excluded then acc else AddDistinct(acc, FieldOf(rec, field)))
  {
    assert (records + [rec])[..|records|] == records;
  }
}
