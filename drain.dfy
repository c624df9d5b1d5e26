/**
 * The de-duplication processStack performs while draining its queue: it
 * remembers the rectangles it has drawn (rectDone) and skips any later equal
 * one. Rectangles compare by value, as their JSON serializations do.
 */
module Drain {

  /** The rectangles drawn from queue q when those in done were already drawn. */
  function DedupFrom<T(==)>(q: seq<T>, done: seq<T>): seq<T>
    decreases |q|
  {
    if q == [] then []
    else if q[0] in done then DedupFrom(q[1..], done)
    else [q[0]] + DedupFrom(q[1..], done + [q[0]])
  }

  /** The rectangles a whole drain draws, in the order it draws them. */
  function Dedup<T(==)>(q: seq<T>): seq<T> {
    DedupFrom(q, [])
  }

  predicate NoDuplicates<T(==)>(s: seq<T>) {
    forall i, j :: 0 <= i < j < |s| ==> s[i] != s[j]
  }

  /** Position of the first occurrence of x in q. */
  function FirstIndex<T(==)>(q: seq<T>, x: T): (k: nat)
    requires x in q
    ensures k < |q| && q[k] == x
    decreases |q|
  {
    if q[0] == x then 0 else 1 + FirstIndex(q[1..], x)
  }

  /** x and y both arrived in q, x first. */
  predicate Before<T(==)>(q: seq<T>, x: T, y: T) {
    x in q && y in q && FirstIndex(q, x) < FirstIndex(q, y)
  }

  /** The rectangles of r are drawn in the order in which they first arrived in q. */
  predicate InArrivalOrder<T(==)>(r: seq<T>, q: seq<T>) {
    forall i, j :: 0 <= i < j < |r| ==> Before(q, r[i], r[j])
  }

  /** One step of the drain: the head is skipped when already drawn, else drawn and remembered. */
  lemma DedupFromStep<T>(q: seq<T>, done: seq<T>)
    requires q != []
    ensures q[0] in done ==> done + DedupFrom(q, done) == done + DedupFrom(q[1..], done)
    ensures q[0] !in done ==> done + DedupFrom(q, done) == (done + [q[0]]) + DedupFrom(q[1..], done + [q[0]])
  {
  }

  lemma {:induction false} DedupFromMember<T>(q: seq<T>, done: seq<T>, x: T)
    ensures x in DedupFrom(q, done) <==> x in q && x !in done
    decreases |q|
  {
    if q != [] {
      if q[0] in done {
        DedupFromMember(q[1..], done, x);
      } else {
        DedupFromMember(q[1..], done + [q[0]], x);
      }
      assert q == [q[0]] + q[1..];
    }
  }

  lemma {:induction false} DedupFromNoDuplicates<T>(q: seq<T>, done: seq<T>)
    ensures NoDuplicates(DedupFrom(q, done))
    decreases |q|
  {
    if q != [] {
      if q[0] in done {
        DedupFromNoDuplicates(q[1..], done);
      } else {
        var rest := DedupFrom(q[1..], done + [q[0]]);
        DedupFromNoDuplicates(q[1..], done + [q[0]]);
        DedupFromMember(q[1..], done + [q[0]], q[0]);
        assert q[0] !in rest;
      }
    }
  }

  /** Past a different head, first positions shift by one. */
  lemma FirstIndexTail<T>(q: seq<T>, x: T)
    requires q != [] && x in q[1..] && x != q[0]
    ensures x in q && FirstIndex(q, x) == 1 + FirstIndex(q[1..], x)
  {
    assert q == [q[0]] + q[1..];
  }

  /** A rectangle drawn after the head was not the head: its first position shifts by one. */
  lemma DrawnPastHead<T>(q: seq<T>, done: seq<T>, x: T)
    requires q != [] && x in DedupFrom(q[1..], if q[0] in done then done else done + [q[0]])
    ensures x in q && x != q[0] && FirstIndex(q, x) == 1 + FirstIndex(q[1..], x)
  {
    var done' := if q[0] in done then done else done + [q[0]];
    DedupFromMember(q[1..], done', x);
    assert q[0] in done';
    FirstIndexTail(q, x);
  }

  /** The order step for one pair of drawn positions. */
  lemma DedupFromOrderPair<T>(q: seq<T>, done: seq<T>, i: int, j: int)
    requires q != []
    requires InArrivalOrder(DedupFrom(q[1..], if q[0] in done then done else done + [q[0]]), q[1..])
    requires 0 <= i < j < |DedupFrom(q, done)|
    ensures Before(q, DedupFrom(q, done)[i], DedupFrom(q, done)[j])
  {
    var r := DedupFrom(q, done);
    var rest := DedupFrom(q[1..], if q[0] in done then done else done + [q[0]]);
    if q[0] in done {
      assert r == rest;
      DrawnPastHead(q, done, rest[i]);
      DrawnPastHead(q, done, rest[j]);
    } else {
      assert r == [q[0]] + rest;
      assert r[j] == rest[j - 1];
      DrawnPastHead(q, done, rest[j - 1]);
      if i > 0 {
        assert r[i] == rest[i - 1];
        DrawnPastHead(q, done, rest[i - 1]);
      } else {
        assert r[i] == q[0];
      }
    }
  }

  lemma {:induction false} DedupFromOrder<T>(q: seq<T>, done: seq<T>)
    ensures InArrivalOrder(DedupFrom(q, done), q)
    decreases |q|
  {
    if q != [] {
      DedupFromOrder(q[1..], if q[0] in done then done else done + [q[0]]);
      var r := DedupFrom(q, done);
      forall i, j | 0 <= i < j < |r|
        ensures Before(q, r[i], r[j])
      {
        DedupFromOrderPair(q, done, i, j);
      }
    }
  }

  /**
   * A drain draws each distinct queued rectangle exactly once, every queued
   * rectangle is drawn, and the drawn rectangles come in order of first arrival.
   */
  lemma DedupDrawsEachOnceInArrivalOrder<T>(q: seq<T>)
    ensures forall x :: x in Dedup(q) <==> x in q
    ensures NoDuplicates(Dedup(q))
    ensures InArrivalOrder(Dedup(q), q)
  {
    forall x ensures x in Dedup(q) <==> x in q {
      DedupFromMember(q, [], x);
    }
    DedupFromNoDuplicates(q, []);
    DedupFromOrder(q, []);
  }

  /** A queue of one rectangle pushed three times with another in between draws just the two. */
  lemma DedupExample()
    ensures Dedup([1, 2, 1, 1]) == [1, 2]
  {
  }
}
