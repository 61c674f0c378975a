/** The ordered list of stop listeners: lookup of the first occurrence and
    removal of the first occurrence, as `ArrayList.contains` and
    `ArrayList.remove(Object)` do. Duplicates are allowed. */
module ListenerRegistry {
  import opened Failures

  /** The list with its first occurrence of `x` deleted; unchanged when
      `x` does not occur. */
  function RemoveFirst<T(==)>(s: seq<T>, x: T): (r: seq<T>)
    ensures x !in s ==> r == s
    ensures x in s ==> |r| == |s| - 1
    ensures multiset(r) == multiset(s) - multiset{x}
  {
    if s == [] then []
    else
      assert s == [s[0]] + s[1..];
      if s[0] == x then s[1..] else [s[0]] + RemoveFirst(s[1..], x)
  }

  /** Scans the list from the front for `x`: the index of its first
      occurrence, or None when it does not occur. */
  method FirstIndex<T(==)>(s: seq<T>, x: T) returns (r: Option<nat>)
    ensures r.None? <==> x !in s
    ensures r.Some? ==> r.value < |s| && s[r.value] == x && x !in s[..r.value]
  {
    var i := 0;
    while i < |s|
      invariant 0 <= i <= |s|
      invariant x !in s[..i]
    {
      if s[i] == x {
        return Some(i);
      }
      i := i + 1;
    }
    assert s[..i] == s;
    return None;
  }

  /** Removing the first occurrence deletes exactly that position and keeps
      the order of every other entry. */
  lemma {:induction false} RemoveFirstAt<T>(s: seq<T>, x: T, i: nat)
    requires i < |s| && s[i] == x && x !in s[..i]
    ensures RemoveFirst(s, x) == s[..i] + s[i + 1..]
  {
    if i > 0 {
      assert s[0] in s[..i];
      assert x !in s[1..][..i - 1] by {
        assert s[1..][..i - 1] == s[1..i];
        assert forall k :: 1 <= k < i ==> s[k] in s[..i];
      }
      RemoveFirstAt(s[1..], x, i - 1);
      assert s[1..][..i - 1] + s[1..][i..] == s[1..i] + s[i + 1..];
      assert s[..i] == [s[0]] + s[1..i];
    }
  }

  /** Appending `x` and then removing `x` removes the earliest copy: the new
      copy stays when `x` was already registered. */
  lemma {:induction false} AppendThenRemove<T>(s: seq<T>, x: T)
    ensures RemoveFirst(s + [x], x) == if x in s then RemoveFirst(s, x) + [x] else s
  {
    if s == [] {
      assert [] + [x] == [x];
    } else if s[0] == x {
      assert (s + [x])[1..] == s[1..] + [x];
    } else {
      assert s == [s[0]] + s[1..];
      assert (s + [x])[1..] == s[1..] + [x];
      AppendThenRemove(s[1..], x);
    }
  }
}
