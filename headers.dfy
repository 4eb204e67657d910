/**
 * Column detection: the index of the first header (left to right) whose
 * lower-cased, trimmed text contains any keyword of a list, or -1.
 */
module Headers {
  import opened Strings

  predicate HeaderMatches(header: string, keywords: seq<string>) {
    IncludesAny(Trim(Lower(header)), keywords)
  }

  /** `i` is -1 when no header matches, else the least index of a matching header. */
  ghost predicate IsFirstMatch(headers: seq<string>, keywords: seq<string>, i: int) {
    if i == -1 then
      forall j :: 0 <= j < |headers| ==> !HeaderMatches(headers[j], keywords)
    else
      && 0 <= i < |headers|
      && HeaderMatches(headers[i], keywords)
      && forall j :: 0 <= j < i ==> !HeaderMatches(headers[j], keywords)
  }

  function FirstMatchFrom(headers: seq<string>, keywords: seq<string>, start: nat): (i: int)
    requires start <= |headers|
    requires forall j :: 0 <= j < start ==> !HeaderMatches(headers[j], keywords)
    ensures IsFirstMatch(headers, keywords, i)
    decreases |headers| - start
  {
    if start == |headers| then -1
    else if HeaderMatches(headers[start], keywords) then start
    else
      assert forall j :: 0 <= j < start + 1 ==> !HeaderMatches(headers[j], keywords) by {
        forall j | 0 <= j < start + 1 ensures !HeaderMatches(headers[j], keywords) {
          if j < start { } }
      }
      FirstMatchFrom(headers, keywords, start + 1)
  }

  /** The column a keyword list selects, as a function of the headers. */
  function FirstMatch(headers: seq<string>, keywords: seq<string>): (i: int)
    ensures IsFirstMatch(headers, keywords, i)
  {
    FirstMatchFrom(headers, keywords, 0)
  }

  lemma FirstMatchUnique(headers: seq<string>, keywords: seq<string>, i: int, j: int)
    requires IsFirstMatch(headers, keywords, i) && IsFirstMatch(headers, keywords, j)
    ensures i == j
  {
  }

  /**
   * Any keyword may match any header, so the order of a keyword list gives no
   * priority: lists with the same keywords select the same column.
   */
  lemma KeywordOrderIrrelevant(headers: seq<string>, keywords1: seq<string>, keywords2: seq<string>)
    requires forall k :: k in keywords1 <==> k in keywords2
    ensures FirstMatch(headers, keywords1) == FirstMatch(headers, keywords2)
  {
    assert forall h :: HeaderMatches(h, keywords1) == HeaderMatches(h, keywords2);
    FirstMatchUnique(headers, keywords1, FirstMatch(headers, keywords1), FirstMatch(headers, keywords2));
  }

  /**
   * findColumnIndex (both copies, which differ only in how they read a missing header):
   * the first header, left to right, whose trimmed lower-case text holds a keyword.
   */
  method FindColumnIndex(headers: seq<string>, keywords: seq<string>) returns (index: int)
    ensures IsFirstMatch(headers, keywords, index)
    ensures index == FirstMatch(headers, keywords)
  {
    var i := 0;
    while i < |headers|
      invariant 0 <= i <= |headers|
      invariant forall j :: 0 <= j < i ==> !HeaderMatches(headers[j], keywords)
    {
      var matches := HeaderMatches(headers[i], keywords);
      if matches {
        assert IsFirstMatch(headers, keywords, i);
        FirstMatchUnique(headers, keywords, i, FirstMatch(headers, keywords));
        return i;
      }
      assert forall j :: 0 <= j < i + 1 ==> !HeaderMatches(headers[j], keywords) by {
        forall j | 0 <= j < i + 1 ensures !HeaderMatches(headers[j], keywords) {
          if j < i { }
        }
      }
      i := i + 1;
    }
    FirstMatchUnique(headers, keywords, -1, FirstMatch(headers, keywords));
    return -1;
  }
}
