/**
 * The generic status rule both the parser and the utilities apply: a
 * lower-cased, trimmed status is active when it contains an active keyword,
 * else removed when it contains a removed keyword, else unknown.
 */
module StatusKeywords {
  import opened Strings

  datatype StatusClass = Active | Removed | Unknown

  const ActiveKeywords: seq<string> := ["active", "up", "live", "online", "available", "approved"]
  const RemovedKeywords: seq<string> := ["removed", "down", "offline", "deleted", "taken down", "unavailable", "pending"]

  /** The keyword rule on an already lower-cased, trimmed status. */
  function KeywordRule(lower: string): (c: StatusClass)
    ensures c == Active <==> exists k :: k in ActiveKeywords && Includes(lower, k)
    ensures c == Removed <==> (forall k :: k in ActiveKeywords ==> !Includes(lower, k))
                              && exists k :: k in RemovedKeywords && Includes(lower, k)
  {
    if IncludesAny(lower, ActiveKeywords) then Active
    else if IncludesAny(lower, RemovedKeywords) then Removed
    else Unknown
  }

  /** No keyword occurs in the empty status. */
  lemma EmptyIsUnknown()
    ensures KeywordRule("") == Unknown
  {
    assert forall k :: k in ActiveKeywords ==> |k| > 0;
    assert forall k :: k in RemovedKeywords ==> |k| > 0;
  }

  /**
   * "available" lies inside "unavailable" and active keywords are tried
   * first, so a status holding "unavailable" is active and the removed
   * keyword "unavailable" never decides a classification.
   */
  lemma UnavailableIsActive(lower: string)
    requires Includes(lower, "unavailable")
    ensures KeywordRule(lower) == Active
  {
    IncludesInner(lower, "unavailable", 2, 11);
    assert "unavailable"[2..11] == "available";
    assert "available" in ActiveKeywords;
  }

  /** A status holding an active keyword anywhere is active, whatever else it holds. */
  lemma ActiveKeywordAt(lower: string, k: string, i: int)
    requires k in ActiveKeywords && OccursAt(lower, k, i)
    ensures KeywordRule(lower) == Active
  {
    OccursIncludes(lower, k, i);
  }

  /** The label the USR rule gives an all-pending row is removed under the keyword rule too. */
  lemma PendingLabelIsRemoved()
    ensures KeywordRule("pending") == Removed
  {
    PendingHasNoActiveKeyword("pending");
    OccursIncludes("pending", "pending", 0);
    assert "pending" in RemovedKeywords;
  }

  lemma PendingHasNoActiveKeyword(s: string)
    requires s == "pending"
    ensures !IncludesAny(s, ActiveKeywords)
  {
    MissingCharacter(s, "active", 0);
    MissingCharacter(s, "up", 0);
    MissingCharacter(s, "live", 0);
    MissingCharacter(s, "online", 0);
    MissingCharacter(s, "available", 0);
    MissingCharacter(s, "approved", 0);
  }

  /** The placeholder status "Unknown" stays unknown under the keyword rule. */
  lemma UnknownLabelIsUnknown()
    ensures KeywordRule("unknown") == Unknown
  {
    UnknownHasNoActiveKeyword();
    UnknownHasNoRemovedKeyword("unknown");
  }

  lemma UnknownHasNoActiveKeyword()
    ensures !IncludesAny("unknown", ActiveKeywords)
  {
    var s := "unknown";
    MissingCharacter(s, "active", 0);
    MissingCharacter(s, "up", 1);
    MissingCharacter(s, "live", 0);
    MissingCharacter(s, "online", 2);
    MissingCharacter(s, "available", 0);
    MissingCharacter(s, "approved", 0);
  }

  lemma UnknownHasNoRemovedKeyword(s: string)
    requires s == "unknown"
    ensures !IncludesAny(s, RemovedKeywords)
  {
    MissingCharacter(s, "removed", 0);
    MissingCharacter(s, "down", 0);
    MissingCharacter(s, "offline", 1);
    MissingCharacter(s, "deleted", 0);
    MissingCharacter(s, "taken down", 0);
    MissingCharacter(s, "unavailable", 2);
    MissingCharacter(s, "pending", 0);
  }
}
