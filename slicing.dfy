/** Python's `s[start:stop]` on a list, negative indices and all. */
module Slicing {
  import opened Wrappers

  /** How a slice bound is adjusted to a list of length `n`: a negative bound
      counts from the end, and the result is clamped to `0..n`. */
  function AdjustBound(i: int, n: nat): (r: nat)
    ensures r <= n
  {
    if i < 0 then (if i + n < 0 then 0 else i + n)
    else if i > n then n
    else i
  }

  /** `s[start:stop]`, where `stop == None` runs to the end. */
  function PySlice<T>(s: seq<T>, start: int, stop: Option<int>): seq<T> {
    var lo := AdjustBound(start, |s|);
    var hi := if stop.Some? then AdjustBound(stop.value, |s|) else |s|;
    if lo <= hi then s[lo..hi] else []
  }

  function Min(a: int, b: int): int {
    if a <= b then a else b
  }

  /** For a non-negative offset and limit, `s[offset:offset + limit]` is the run of at most
      `limit` elements starting at `offset`; without a limit it is everything from `offset` on. */
  lemma WindowSlice<T>(s: seq<T>, offset: int, limit: Option<int>)
    requires offset >= 0 && (limit.Some? ==> limit.value >= 0)
    ensures var page := PySlice(s, offset, if limit.Some? then Some(offset + limit.value) else None);
            && (limit.Some? ==> page == s[Min(offset, |s|)..Min(offset + limit.value, |s|)] && |page| <= limit.value)
            && (limit.None? ==> page == s[Min(offset, |s|)..])
  {
  }

  /** A slice holds only elements of the list it was cut from. */
  lemma PySliceMembers<T>(s: seq<T>, start: int, stop: Option<int>)
    ensures forall x :: x in PySlice(s, start, stop) ==> x in s
  {
    var lo := AdjustBound(start, |s|);
    var hi := if stop.Some? then AdjustBound(stop.value, |s|) else |s|;
    if lo <= hi {
      forall x | x in s[lo..hi] ensures x in s {
        var i :| 0 <= i < hi - lo && s[lo..hi][i] == x;
        assert s[lo + i] == x;
      }
    }
  }
}
