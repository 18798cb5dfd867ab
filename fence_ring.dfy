/** The per-render-target fence list: a ring walked by `fence_idx`, into which a
    new fence is inserted at the cursor when a frame needs more scenes than the
    target was created for. */
module FenceRing {

  /** `s` with `x` inserted in front of position `i` (std::vector::insert). */
  function Inserted<T>(s: seq<T>, i: nat, x: T): (r: seq<T>)
    requires i <= |s|
    ensures |r| == |s| + 1
  {
    s[..i] + [x] + s[i..]
  }

  /** The inserted element sits at `i`, the ones before it keep their
      positions, the ones after it move up by one, and nothing is lost. */
  lemma InsertedPositions<T>(s: seq<T>, i: nat, x: T)
    requires i <= |s|
    ensures Inserted(s, i, x)[i] == x
    ensures forall j :: 0 <= j < i ==> Inserted(s, i, x)[j] == s[j]
    ensures forall j :: i <= j < |s| ==> Inserted(s, i, x)[j + 1] == s[j]
    ensures multiset(Inserted(s, i, x)) == multiset(s) + multiset{x}
  {
    assert s == s[..i] + s[i..];
  }

  /** One step of the cyclic cursor over a ring of `n` slots. */
  function Advanced(i: nat, n: nat): (r: nat)
    requires i < n
    ensures r < n
  {
    if i + 1 == n then 0 else i + 1
  }

  /** The cursor after `k` steps. */
  function AdvancedBy(i: nat, n: nat, k: nat): (r: nat)
    requires i < n
    ensures r < n
    decreases k
  {
    if k == 0 then i else Advanced(AdvancedBy(i, n, k - 1), n)
  }

  /** The order in which the slots of `s` are handed out, starting at cursor `i`. */
  function RingOrder<T>(s: seq<T>, i: nat): seq<T>
    requires i <= |s|
  {
    s[i..] + s[..i]
  }

  /** Within one lap the cursor is `k` slots further round the ring. */
  lemma {:induction false} AdvancedByWithinLap(i: nat, n: nat, k: nat)
    requires i < n && k < n
    ensures AdvancedBy(i, n, k) == if i + k < n then i + k else i + k - n
    decreases k
  {
    if k > 0 {
      AdvancedByWithinLap(i, n, k - 1);
    }
  }

  /** A slot is not handed out again before the cursor has gone once round
      the ring. */
  lemma ReuseDistance(i: nat, n: nat, k: nat)
    requires i < n
    requires 0 < k < n
    ensures AdvancedBy(i, n, k) != i
  {
    AdvancedByWithinLap(i, n, k);
  }

  /** No element occurs twice. */
  predicate Distinct<T(==)>(s: seq<T>)
  {
    forall i, j :: 0 <= i < j < |s| ==> s[i] != s[j]
  }

  /** Inserting an element the sequence does not hold keeps its elements
      distinct. */
  lemma InsertedDistinct<T>(s: seq<T>, i: nat, x: T)
    requires i <= |s| && Distinct(s) && x !in s
    ensures Distinct(Inserted(s, i, x))
  {
    var r := Inserted(s, i, x);
    InsertedPositions(s, i, x);
    forall a, b | 0 <= a < b < |r|
      ensures r[a] != r[b]
    {
      if b < i {
        assert r[a] == s[a] && r[b] == s[b];
      } else if b == i {
        assert r[a] == s[a];
      } else if a < i {
        assert r[a] == s[a] && r[b] == s[b - 1];
      } else if a == i {
        assert r[b] == s[b - 1];
      } else {
        assert r[a] == s[a - 1] && r[b] == s[b - 1];
      }
    }
  }

  /** In a ring of distinct fences, the fence at the cursor is not handed
      out again before the cursor has gone once round the ring. */
  lemma NotReusedWithinLap<T>(s: seq<T>, i: nat, k: nat)
    requires Distinct(s) && i < |s| && 0 < k < |s|
    ensures s[AdvancedBy(i, |s|, k)] != s[i]
  {
    ReuseDistance(i, |s|, k);
  }

  /** After exactly one lap the cursor is back where it started: every fence
      is used once per `n` submissions. */
  lemma FullLapReturns(i: nat, n: nat)
    requires i < n
    ensures AdvancedBy(i, n, n) == i
  {
    AdvancedByWithinLap(i, n, n - 1);
  }

  /** Inserting at the cursor makes the new element the very next one handed
      out, and leaves the order of all the others as it was. */
  lemma InsertedAtCursorIsNext<T>(s: seq<T>, i: nat, x: T)
    requires i <= |s|
    ensures RingOrder(Inserted(s, i, x), i) == [x] + RingOrder(s, i)
  {
    var r := Inserted(s, i, x);
    assert r[i..] == [x] + s[i..];
    assert r[..i] == s[..i];
  }

  /** Using the slot at the cursor and advancing rotates the ring order by one. */
  lemma AdvanceRotates<T>(s: seq<T>, i: nat)
    requires i < |s|
    ensures RingOrder(s, Advanced(i, |s|)) == RingOrder(s, i)[1..] + [s[i]]
  {
    if i + 1 == |s| {
      assert s[i..] == [s[i]];
      assert s[..i + 1] == s[..i] + [s[i]];
    } else {
      assert s[i..] == [s[i]] + s[i + 1..];
      assert s[..i + 1] == s[..i] + [s[i]];
    }
  }
}
