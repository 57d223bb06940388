/**
 * Membership-checked list updates. The tracker guards every `append` and
 * `remove` on a list with an `in` test: the event buffer of the sampler and
 * the host's render-handler lists are both updated this way.
 */
module ListOps {

  /** No element occurs twice. */
  ghost predicate NoDuplicates<T>(s: seq<T>) {
    forall i, j :: 0 <= i < j < |s| ==> s[i] != s[j]
  }

  /** How many times `x` occurs in `s`. */
  function Count<T(==)>(s: seq<T>, x: T): (n: nat)
    ensures n == 0 <==> x !in s
  {
    if s == [] then 0 else (if s[0] == x then 1 else 0) + Count(s[1..], x)
  }

  /** Counting over a list with one element put in front. */
  lemma CountCons<T>(e: T, s: seq<T>, x: T)
    ensures Count([e] + s, x) == (if e == x then 1 else 0) + Count(s, x)
  {
    assert ([e] + s)[1..] == s;
  }

  /** Counting over a list with one element appended. */
  lemma {:induction false} CountSnoc<T>(s: seq<T>, e: T, x: T)
    ensures Count(s + [e], x) == Count(s, x) + (if e == x then 1 else 0)
  {
    if s != [] {
      assert (s + [e])[1..] == s[1..] + [e];
      CountSnoc(s[1..], e, x);
    }
  }

  /** `if x not in s: s.append(x)` */
  function AppendIfAbsent<T(==, !new)>(s: seq<T>, x: T): (r: seq<T>)
    ensures x in r
    ensures |s| <= |r| && r[..|s|] == s
    ensures Count(r, x) == if x in s then Count(s, x) else 1
    ensures forall y :: y != x ==> Count(r, y) == Count(s, y)
    ensures NoDuplicates(s) ==> NoDuplicates(r)
  {
    if x in s then s
    else
      assert forall y :: Count(s + [x], y) == Count(s, y) + (if x == y then 1 else 0) by {
        forall y { CountSnoc(s, x, y); }
      }
      s + [x]
  }

  /** The position of the first occurrence of `x` in `s`. */
  function FirstIndex<T(==)>(s: seq<T>, x: T): (k: nat)
    requires x in s
    ensures k < |s| && s[k] == x && x !in s[..k]
  {
    if s[0] == x then 0
    else
      var k := FirstIndex(s[1..], x);
      assert s[..k + 1] == [s[0]] + s[1..][..k];
      k + 1
  }

  /** `if x in s: s.remove(x)`: the first occurrence of `x`, if any, is dropped. */
  function RemoveIfPresent<T(==, !new)>(s: seq<T>, x: T): (r: seq<T>)
    ensures x !in s ==> r == s
    ensures x in s ==> |r| == |s| - 1 && Count(r, x) == Count(s, x) - 1
    ensures forall y :: y != x ==> Count(r, y) == Count(s, y)
  {
    if s == [] then []
    else if s[0] == x then
      assert forall y :: Count(s, y) == (if s[0] == y then 1 else 0) + Count(s[1..], y);
      s[1..]
    else
      var t := RemoveIfPresent(s[1..], x);
      assert forall y :: Count([s[0]] + t, y) == (if s[0] == y then 1 else 0) + Count(t, y) by {
        forall y { CountCons(s[0], t, y); }
      }
      [s[0]] + t
  }

  /** Dropping position `k` of the tail, then putting the head back, drops position `k + 1`. */
  lemma DropAfterHead<T>(s: seq<T>, k: nat)
    requires k + 1 < |s|
    ensures [s[0]] + (s[1..][..k] + s[1..][k + 1..]) == s[..k + 1] + s[k + 2..]
  {
    assert s[..k + 1] == [s[0]] + s[1..][..k];
    assert s[k + 2..] == s[1..][k + 1..];
  }

  /** `remove` drops the first occurrence and keeps every other element in order. */
  lemma {:induction false} RemoveIfPresentFirst<T(!new)>(s: seq<T>, x: T)
    requires x in s
    ensures RemoveIfPresent(s, x) == s[..FirstIndex(s, x)] + s[FirstIndex(s, x) + 1..]
  {
    if s[0] == x {
      assert RemoveIfPresent(s, x) == s[1..];
      assert s[..0] + s[1..] == s[1..];
    } else {
      var k := FirstIndex(s[1..], x);
      assert FirstIndex(s, x) == k + 1;
      RemoveIfPresentFirst(s[1..], x);
      assert RemoveIfPresent(s, x) == [s[0]] + (s[1..][..k] + s[1..][k + 1..]);
      DropAfterHead(s, k);
    }
  }

  /** Registering an absent element and then unregistering it restores the list. */
  lemma {:induction false} RemoveUndoesAppend<T(!new)>(s: seq<T>, x: T)
    requires x !in s
    ensures RemoveIfPresent(AppendIfAbsent(s, x), x) == s
  {
    if s != [] {
      assert (s + [x])[1..] == s[1..] + [x];
      RemoveUndoesAppend(s[1..], x);
    }
  }

  /** A second guarded append changes nothing. */
  lemma AppendIfAbsentIdempotent<T(!new)>(s: seq<T>, x: T)
    ensures AppendIfAbsent(AppendIfAbsent(s, x), x) == AppendIfAbsent(s, x)
  {
  }
}
