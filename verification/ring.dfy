/** Ring-buffer arithmetic.  Both protocols keep their window and their overflow queue in
    arrays whose indices advance modulo the array length. */
module Rings {

  /** The only reduction a ring index ever needs: at most one turn past the end. */
  function Wrap(i: nat, n: nat): nat
    requires 0 < n
  {
    if i < n then i else i - n
  }

  lemma ModIsWrap(i: nat, n: nat)
    requires 0 < n && i < 2 * n
    ensures i % n == Wrap(i, n) && 0 <= i % n < n
  {
    if i < n {
      ModOfQuotient(i, n, 0, i);
    } else {
      ModOfQuotient(i, n, 1, i - n);
    }
  }

  lemma ProductSign(a: int, b: int)
    requires a >= 0 && b >= 0
    ensures a * b >= 0
  {
  }

  lemma MultipleAwayFromZero(d: int, n: int)
    requires 0 < n
    ensures d > 0 ==> d * n >= n
    ensures d < 0 ==> d * n <= -n
  {
    if d > 0 {
      ProductSign(d - 1, n);
      assert d * n == (d - 1) * n + n;
    } else if d < 0 {
      ProductSign(-d - 1, n);
      assert d * n == -((-d - 1) * n) - n;
    }
  }

  /** The only multiple of `n` closer to zero than `n` is zero. */
  lemma SmallMultiple(d: int, n: int)
    requires 0 < n && -n < d * n < n
    ensures d == 0
  {
    MultipleAwayFromZero(d, n);
  }

  /** Quotient and remainder are unique. */
  lemma DivisionUnique(n: nat, q: int, r: nat, q': int, r': nat)
    requires r < n && r' < n && q * n + r == q' * n + r'
    ensures q == q' && r == r'
  {
    assert (q - q') * n == q * n - q' * n;
    SmallMultiple(q - q', n);
  }

  lemma ModOfQuotient(i: nat, n: nat, q: nat, r: nat)
    requires 0 < n && r < n && i == q * n + r
    ensures i % n == r && i / n == q
  {
    DivisionUnique(n, i / n, i % n, q, r);
  }

  lemma SmallMod(k: nat, w: nat)
    requires k < w
    ensures k % w == k
  {
    ModOfQuotient(k, w, 0, k);
  }

  /** Two numbers less than one turn apart share a slot only when they are equal. */
  lemma SameSlot(a: nat, b: nat, n: nat)
    requires 0 < n && a % n == b % n && a < b + n && b < a + n
    ensures a == b
  {
    assert (a / n - b / n) * n == (a / n) * n - (b / n) * n;
    SmallMultiple(a / n - b / n, n);
  }

  lemma DistinctSlots(a: nat, b: nat, n: nat)
    requires 0 < n && a < b < a + n
    ensures a % n != b % n
  {
    if a % n == b % n {
      SameSlot(a, b, n);
    }
  }

  /** Moving less than a turn moves the slot as far, around the end. */
  lemma ModAdd(a: nat, i: nat, n: nat)
    requires i < n
    ensures (a + i) % n == Wrap(a % n + i, n)
  {
    var q, r := a / n, a % n;
    assert a == q * n + r;
    assert (q + 1) * n == q * n + n;
    ModOfQuotient(a + i, n, if r + i < n then q else q + 1, Wrap(r + i, n));
  }

  lemma ModTurns(a: nat, t: nat, n: nat)
    requires 0 < n
    ensures t * n >= 0 && (a + t * n) % n == a % n
  {
    var q, r := a / n, a % n;
    assert a == q * n + r;
    ProductSign(t, n);
    assert (q + t) * n == q * n + t * n;
    ModOfQuotient(a + t * n, n, q + t, r);
  }

  /** Two numbers share a slot exactly when they are whole turns apart. */
  lemma ModDifference(a: nat, b: nat, n: nat)
    requires 0 < n && a <= b
    ensures a % n == b % n <==> (b - a) % n == 0
  {
    var t, u := (b - a) / n, (b - a) % n;
    assert b - a == t * n + u;
    ModAdd(a, u, n);
    ModTurns(a + u, t, n);
  }

  /** Moving one step moves the slot one step; moving a full turn does not move it. */
  lemma ModStep(a: nat, n: nat)
    requires 0 < n
    ensures (a + 1) % n == (a % n + 1) % n
    ensures (a + n) % n == a % n
  {
    var q, r := a / n, a % n;
    assert a == q * n + r;
    ModOfQuotient(a + n, n, q + 1, r);
    ModIsWrap(r + 1, n);
    if r + 1 < n {
      ModOfQuotient(a + 1, n, q, r + 1);
    } else {
      ModOfQuotient(a + 1, n, q + 1, 0);
    }
  }

  /** The `len` elements that start at `front`, in ring order. */
  function Segment<T>(a: seq<T>, front: nat, len: nat): (s: seq<T>)
    requires front < |a| && len <= |a|
    ensures |s| == len
    ensures forall i :: 0 <= i < len ==> s[i] == a[Wrap(front + i, |a|)]
  {
    seq(len, i requires 0 <= i < len => a[Wrap(front + i, |a|)])
  }

  /** Writing just past the segment and lengthening it appends one element. */
  lemma SegmentPush<T>(a: seq<T>, front: nat, len: nat, x: T)
    requires front < |a| && len < |a|
    ensures Segment(a[Wrap(front + len, |a|) := x], front, len + 1) == Segment(a, front, len) + [x]
  {
  }

  /** Advancing the front drops the first element. */
  lemma SegmentPop<T>(a: seq<T>, front: nat, len: nat)
    requires front < |a| && 0 < len <= |a|
    ensures Segment(a, Wrap(front + 1, |a|), len - 1) == Segment(a, front, len)[1..]
    ensures Segment(a, front, len)[0] == a[front]
  {
  }

  /** Writing inside the segment replaces exactly that element. */
  lemma SegmentSet<T>(a: seq<T>, front: nat, len: nat, i: nat, x: T)
    requires front < |a| && i < len <= |a|
    ensures Segment(a[Wrap(front + i, |a|) := x], front, len) == Segment(a, front, len)[i := x]
  {
  }

  /** The `n` elements read from `front` on, going round as often as it takes. */
  function Cycle<T>(a: seq<T>, front: nat, n: nat): (s: seq<T>)
    requires a != []
    ensures |s| == n
  {
    seq(n, i requires 0 <= i < n => a[Slot(front + i, |a|)])
  }

  function Slot(i: nat, n: nat): (k: nat)
    requires 0 < n
    ensures k == i % n && k < n
  {
    i % n
  }

  /** Writing just past the end also replaces every element a whole number of turns before it. */
  lemma CyclePush<T>(a: seq<T>, front: nat, n: nat, x: T, i: nat)
    requires a != [] && i <= n
    ensures Cycle(a[Slot(front + n, |a|) := x], front, n + 1)[i]
         == if i == n || (n - i) % |a| == 0 then x else Cycle(a, front, n)[i]
  {
    var a' := a[Slot(front + n, |a|) := x];
    assert |a'| == |a| && (front + n) - (front + i) == n - i;
    ModDifference(front + i, front + n, |a|);
    assert Cycle(a', front, n + 1)[i] == a'[Slot(front + i, |a|)];
  }

  lemma CyclePop<T>(a: seq<T>, front: nat, n: nat)
    requires a != [] && front < |a| && 0 < n
    ensures Cycle(a, front, n)[0] == a[front]
    ensures Cycle(a, Slot(front + 1, |a|), n - 1) == Cycle(a, front, n)[1..]
  {
    SmallMod(front, |a|);
    assert Cycle(a, front, n)[0] == a[Slot(front + 0, |a|)];
    var s, t := Cycle(a, Slot(front + 1, |a|), n - 1), Cycle(a, front, n)[1..];
    forall i | 0 <= i < n - 1 ensures s[i] == t[i] {
      ModAbsorb(front + 1, i, |a|);
      assert s[i] == a[Slot(Slot(front + 1, |a|) + i, |a|)];
      assert t[i] == Cycle(a, front, n)[i + 1] == a[Slot(front + (i + 1), |a|)];
    }
  }

  lemma ModAbsorb(a: nat, i: nat, n: nat)
    requires 0 < n
    ensures (a % n + i) % n == (a + i) % n
  {
    var q := a / n;
    assert a == q * n + a % n;
    ProductSign(q, n);
    ModTurns(a % n + i, q, n);
  }
}
