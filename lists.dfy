/** Python list operations shared by the message buffers. */
module Lists {
  /** The first position of `x` in `s`, as `list.index` finds it. */
  function IndexOf<T(==)>(s: seq<T>, x: T): (r: nat)
    requires x in s
    ensures r < |s| && s[r] == x
    ensures forall k :: 0 <= k < r ==> s[k] != x
    decreases |s|
  {
    if s[0] == x then 0
    else
      assert x in s[1..];
      1 + IndexOf(s[1..], x)
  }

  /** `s.remove(x)`: the first occurrence of `x` goes, everything else stays in order. */
  function RemoveFirst<T(==)>(s: seq<T>, x: T): (r: seq<T>)
    requires x in s
    ensures |r| == |s| - 1
    ensures forall y :: y in s && y != x ==> y in r
    ensures forall y :: y in r ==> y in s
    ensures multiset(r) == multiset(s) - multiset{x}
    ensures forall k :: 0 <= k < IndexOf(s, x) ==> r[k] == s[k]
    ensures forall k :: IndexOf(s, x) <= k < |r| ==> r[k] == s[k + 1]
  {
    var j := IndexOf(s, x);
    assert s == s[..j] + [x] + s[j + 1..];
    s[..j] + s[j + 1..]
  }
}
