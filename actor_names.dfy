/**
  `get_actor_display_name`: a display name longer than `truncate`
  characters is cut and ends in an ellipsis.
 */
module ActorNames {

  /** The ellipsis character appended to a truncated name. */
  const Ellipsis: char := '…'

  /** Python's `s[:k]`: a negative bound counts from the end, bounds past either end are clipped. */
  function SlicePrefix(s: string, k: int): (r: string)
    ensures k >= 0 ==> |r| == (if k <= |s| then k else |s|)
    ensures k < 0 ==> |r| == (if |s| + k >= 0 then |s| + k else 0)
    ensures r == s[..|r|]
  {
    if k >= |s| then s
    else if k >= 0 then s[..k]
    else if |s| + k >= 0 then s[..|s| + k]
    else []
  }

  /** A name that fits is kept; a longer one keeps its first `truncate - 1` characters and gains an ellipsis. */
  function Truncate(name: string, truncate: int): (r: string)
    ensures |name| <= truncate ==> r == name
    ensures truncate >= 1 && |name| > truncate ==>
      |r| == truncate && r[..truncate - 1] == name[..truncate - 1] && r[truncate - 1] == Ellipsis
  {
    if |name| > truncate then SlicePrefix(name, truncate - 1) + [Ellipsis] else name
  }

  /** For the positive limits the callers pass, the result never exceeds the limit. */
  lemma TruncateBound(name: string, truncate: int)
    requires truncate >= 1
    ensures |Truncate(name, truncate)| <= truncate
    ensures Truncate(name, truncate) == name <==> |name| <= truncate
  {
    if |name| > truncate {
      assert |Truncate(name, truncate)| == truncate < |name|;
    }
  }

  /** Truncating twice with the same limit changes nothing more. */
  lemma TruncateIdempotent(name: string, truncate: int)
    requires truncate >= 1
    ensures Truncate(Truncate(name, truncate), truncate) == Truncate(name, truncate)
  {
    TruncateBound(name, truncate);
  }
}
