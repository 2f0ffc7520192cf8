/** The simulator's pending events: what a list of events means (as a sequence) and the doubly linked
    list that holds it. */
module EventLists {
  import opened Packets

  datatype Side = SideA | SideB

  /** A pending event.  `origin` records which sequence number a copy was sent for before the channel
      touched it; no handler reads it. */
  datatype Event =
    | TimeOut(time: real, entity: Side, seqno: int)
    | FromLayer5(time: real)
    | FromLayer3(time: real, entity: Side, pkt: Packet, origin: int)

  // ---------- the list as a sequence ----------

  ghost predicate Sorted(evs: seq<Event>) {
    forall i, j :: 0 <= i < j < |evs| ==> evs[i].time <= evs[j].time
  }

  /** The first position whose event is strictly later than `t`. */
  function InsertPosition(evs: seq<Event>, t: real): (k: nat)
    ensures k <= |evs|
    ensures forall i :: 0 <= i < k ==> evs[i].time <= t
    ensures k < |evs| ==> t < evs[k].time
  {
    if evs == [] || t < evs[0].time then 0 else 1 + InsertPosition(evs[1..], t)
  }

  lemma {:induction false} InsertPositionUnique(evs: seq<Event>, t: real, k: nat)
    requires k <= |evs|
    requires forall i :: 0 <= i < k ==> evs[i].time <= t
    requires k < |evs| ==> t < evs[k].time
    ensures k == InsertPosition(evs, t)
  {
    if k == 0 {
    } else {
      assert evs[0].time <= t;
      InsertPositionUnique(evs[1..], t, k - 1);
    }
  }

  function Insert(evs: seq<Event>, e: Event): seq<Event> {
    var k := InsertPosition(evs, e.time);
    evs[..k] + [e] + evs[k..]
  }

  predicate IsTimer(e: Event, entity: Side, seqno: int) {
    e.TimeOut? && e.seqno == seqno && e.entity == entity
  }

  /** The first timer of `entity` for `seqno`, or the length of the list. */
  function TimerPosition(evs: seq<Event>, entity: Side, seqno: int): (k: nat)
    ensures k <= |evs|
    ensures forall i :: 0 <= i < k ==> !IsTimer(evs[i], entity, seqno)
    ensures k < |evs| ==> IsTimer(evs[k], entity, seqno)
  {
    if evs == [] || IsTimer(evs[0], entity, seqno) then 0 else 1 + TimerPosition(evs[1..], entity, seqno)
  }

  function RemoveTimer(evs: seq<Event>, entity: Side, seqno: int): seq<Event> {
    var k := TimerPosition(evs, entity, seqno);
    if k < |evs| then evs[..k] + evs[k + 1..] else evs
  }

  /** `after` is `before` with `e` behind every event that is not later. */
  ghost predicate Joins(before: seq<Event>, e: Event, after: seq<Event>) {
    exists k: nat :: JoinsAt(before, e, after, k)
  }

  ghost predicate JoinsAt(before: seq<Event>, e: Event, after: seq<Event>, k: nat) {
    && k <= |before| && after == before[..k] + [e] + before[k..]
    && (forall i :: 0 <= i < k ==> before[i].time <= e.time) && (k < |before| ==> e.time < before[k].time)
  }

  lemma InsertJoins(evs: seq<Event>, e: Event)
    ensures Joins(evs, e, Insert(evs, e))
  {
    assert JoinsAt(evs, e, Insert(evs, e), InsertPosition(evs, e.time));
  }

  /** `after` is `before` without its first timer of `entity` for `n`, if it has any. */
  ghost predicate Cancels(before: seq<Event>, entity: Side, n: int, after: seq<Event>) {
    if forall i :: 0 <= i < |before| ==> before[i] != TimeOut(before[i].time, entity, n) then after == before
    else exists k: nat :: CancelsAt(before, entity, n, after, k)
  }

  ghost predicate CancelsAt(before: seq<Event>, entity: Side, n: int, after: seq<Event>, k: nat) {
    && k < |before| && before[k] == TimeOut(before[k].time, entity, n) && after == before[..k] + before[k + 1..]
    && forall i :: 0 <= i < k ==> before[i] != TimeOut(before[i].time, entity, n)
  }

  lemma RemoveCancels(evs: seq<Event>, entity: Side, n: int)
    ensures Cancels(evs, entity, n, RemoveTimer(evs, entity, n))
  {
    var k := TimerPosition(evs, entity, n);
    if k < |evs| {
      assert evs[k] == TimeOut(evs[k].time, entity, n);
      forall i | 0 <= i < k ensures evs[i] != TimeOut(evs[i].time, entity, n) {
        assert !IsTimer(evs[i], entity, n);
      }
      assert CancelsAt(evs, entity, n, RemoveTimer(evs, entity, n), k);
    } else {
      forall i | 0 <= i < |evs| ensures evs[i] != TimeOut(evs[i].time, entity, n) {
        assert !IsTimer(evs[i], entity, n);
      }
    }
  }

  // ---------- the doubly linked list ----------

  class EventNode {
    const ev: Event
    var prev: EventNode?
    var next: EventNode?

    constructor (ev: Event)
      ensures this.ev == ev
    {
      this.ev := ev;
      prev, next := null, null;
    }
  }

  /** The i-th node, or null outside the sequence. */
  ghost function At(ns: seq<EventNode>, i: int): EventNode? {
    if 0 <= i < |ns| then ns[i] else null
  }

  ghost predicate Distinct(ns: seq<EventNode>) {
    forall i, j :: 0 <= i < j < |ns| ==> ns[i] != ns[j]
  }

  /** Forward and backward pointers agree with the sequence. */
  ghost predicate Linked(ns: seq<EventNode>)
    reads ns
  {
    && (forall i {:trigger ns[i].next} :: 0 <= i < |ns| ==> ns[i].next == At(ns, i + 1))
    && (forall i {:trigger ns[i].prev} :: 0 <= i < |ns| ==> ns[i].prev == At(ns, i - 1))
  }

  ghost function Evs(ns: seq<EventNode>): (s: seq<Event>)
    ensures |s| == |ns| && forall i :: 0 <= i < |s| ==> s[i] == ns[i].ev
  {
    seq(|ns|, i requires 0 <= i < |ns| => ns[i].ev)
  }

  lemma Spliced(ns: seq<EventNode>, k: nat, p: EventNode)
    requires Distinct(ns) && k <= |ns| && p !in ns
    ensures Distinct(ns[..k] + [p] + ns[k..])
    ensures forall n :: n in ns[..k] + [p] + ns[k..] ==> n == p || n in ns
    ensures forall i :: 0 <= i < |ns| ==> ns[i] != p
    ensures Evs(ns[..k] + [p] + ns[k..]) == Evs(ns)[..k] + [p.ev] + Evs(ns)[k..]
  {
  }

  lemma Unspliced(ns: seq<EventNode>, k: nat)
    requires Distinct(ns) && k < |ns|
    ensures Distinct(ns[..k] + ns[k + 1..])
    ensures forall n :: n in ns[..k] + ns[k + 1..] ==> n in ns
    ensures Evs(ns[..k] + ns[k + 1..]) == Evs(ns)[..k] + Evs(ns)[k + 1..]
  {
  }

  /** The four pointer writes of an insertion at position `k` relink the list. */
  lemma InsertRelinks(ns: seq<EventNode>, k: nat, p: EventNode)
    requires k <= |ns|
    requires p.next == At(ns, k) && p.prev == At(ns, k - 1)
    requires forall i {:trigger ns[i].next} :: 0 <= i < |ns| ==> ns[i].next == if i + 1 == k then p else At(ns, i + 1)
    requires forall i {:trigger ns[i].prev} :: 0 <= i < |ns| ==> ns[i].prev == if i == k then p else At(ns, i - 1)
    ensures Linked(ns[..k] + [p] + ns[k..])
  {
  }

  /** The two pointer writes of a removal at position `k` relink the remaining nodes. */
  lemma RemoveRelinks(ns: seq<EventNode>, k: nat)
    requires k < |ns|
    requires forall i {:trigger ns[i].next} :: 0 <= i < |ns| && i != k ==> ns[i].next == At(ns, if i + 1 == k then k + 1 else i + 1)
    requires forall i {:trigger ns[i].prev} :: 0 <= i < |ns| && i != k ==> ns[i].prev == At(ns, if i == k + 1 then k - 1 else i - 1)
    ensures Linked(ns[..k] + ns[k + 1..])
  {
  }

  class EventList {
    var evlist: EventNode?
    ghost var nodes: seq<EventNode>
    ghost var Repr: set<object>

    ghost predicate Valid()
      reads this, Repr
      ensures Valid() ==> this in Repr
    {
      && this in Repr
      && (forall n :: n in nodes ==> n in Repr)
      && Distinct(nodes)
      && evlist == At(nodes, 0)
      && Linked(nodes)
    }

    ghost function NodeAt(i: int): EventNode?
      reads this
    {
      At(nodes, i)
    }

    ghost function Contents(): (s: seq<Event>)
      reads this
    {
      Evs(nodes)
    }

    constructor ()
      ensures Valid() && fresh(Repr)
      ensures Contents() == []
    {
      evlist := null;
      nodes := [];
      Repr := {this};
    }

    /** Walks to the first node later than `t`; `qold` is the node walked past last. */
    method Locate(t: real) returns (qold: EventNode?, q: EventNode?, ghost k: nat)
      requires Valid()
      ensures k == InsertPosition(Contents(), t) && q == NodeAt(k)
      ensures qold == NodeAt(if k == 0 then 0 else k - 1)
    {
      q, qold, k := evlist, evlist, 0;
      while q != null && t >= q.ev.time
        invariant 0 <= k <= |nodes| && q == NodeAt(k) && qold == NodeAt(if k == 0 then 0 else k - 1)
        invariant forall i :: 0 <= i < k ==> nodes[i].ev.time <= t
        decreases |nodes| - k
      {
        qold := q;
        q := q.next;
        k := k + 1;
      }
      InsertPositionUnique(Contents(), t, k);
    }

    /** The pointer writes of an insertion in front of `q`, which stands at position `k`. */
    method Link(p: EventNode, qold: EventNode?, q: EventNode?, ghost k: nat)
      requires Valid() && p !in Repr && k <= |nodes|
      requires q == NodeAt(k) && qold == NodeAt(if k == 0 then 0 else k - 1)
      modifies this`evlist, nodes, p
      ensures nodes == old(nodes) && evlist == if k == 0 then p else old(evlist)
      ensures p.next == NodeAt(k) && p.prev == NodeAt(k - 1)
      ensures forall i {:trigger nodes[i].next} :: 0 <= i < |nodes| ==>
                nodes[i].next == if i + 1 == k then p else NodeAt(i + 1)
      ensures forall i {:trigger nodes[i].prev} :: 0 <= i < |nodes| ==>
                nodes[i].prev == if i == k then p else NodeAt(i - 1)
    {
      if evlist == null {
        evlist := p;
        p.next := null;
        p.prev := null;
      } else if q == null {
        qold.next := p;
        p.prev := qold;
        p.next := null;
      } else if q == evlist {
        p.next := evlist;
        p.prev := null;
        p.next.prev := p;
        evlist := p;
      } else {
        p.next := q;
        p.prev := q.prev;
        q.prev.next := p;
        q.prev := p;
      }
    }

    /** Inserts in time order, behind every event with the same time. */
    method InsertEvent(p: EventNode)
      requires Valid() && p !in Repr
      modifies Repr, p
      ensures Valid() && Repr == old(Repr) + {p}
      ensures Contents() == Insert(old(Contents()), p.ev)
    {
      var qold, q, k := Locate(p.ev.time);
      Link(p, qold, q, k);
      ghost var ns := nodes;
      InsertRelinks(ns, k, p);
      Spliced(ns, k, p);
      nodes := ns[..k] + [p] + ns[k..];
      Repr := Repr + {p};
    }

    /** The main loop's removal of the next event; None when the list is empty. */
    method PopEvent() returns (q: EventNode?)
      requires Valid()
      modifies Repr
      ensures Valid() && Repr == old(Repr)
      ensures q == null <==> old(Contents()) == []
      ensures q == null ==> Contents() == []
      ensures q != null ==> q.ev == old(Contents())[0] && Contents() == old(Contents())[1..]
    {
      q := evlist;
      if q != null {
        evlist := evlist.next;
        if evlist != null {
          evlist.prev := null;
        }
        nodes := nodes[1..];
      }
    }

    /** Takes the node at position `k` out of the list. */
    method Unlink(q: EventNode, ghost k: nat)
      requires Valid() && q == NodeAt(k)
      modifies Repr
      ensures Valid() && Repr == old(Repr)
      ensures Contents() == old(Contents())[..k] + old(Contents())[k + 1..]
    {
      if q.next == null && q.prev == null {
        evlist := null;
      } else if q.next == null {
        q.prev.next := null;
      } else if q == evlist {
        q.next.prev := null;
        evlist := q.next;
      } else {
        q.next.prev := q.prev;
        q.prev.next := q.next;
      }
      ghost var ns := nodes;
      RemoveRelinks(ns, k);
      Unspliced(ns, k);
      nodes := ns[..k] + ns[k + 1..];
    }

    /** Cancels the first pending timer of `entity` for `seqno`; false is the source's warning. */
    method StopTimer(entity: Side, seqno: int) returns (found: bool)
      requires Valid()
      modifies Repr
      ensures Valid() && Repr == old(Repr)
      ensures found <==> exists i :: 0 <= i < |old(Contents())| && IsTimer(old(Contents())[i], entity, seqno)
      ensures Contents() == RemoveTimer(old(Contents()), entity, seqno)
    {
      var q := evlist;
      ghost var k := 0;
      ghost var p := TimerPosition(Contents(), entity, seqno);
      while q != null
        invariant 0 <= k <= p && q == NodeAt(k)
        decreases |nodes| - k
      {
        if q.ev.TimeOut? && q.ev.seqno == seqno && q.ev.entity == entity {
          Unlink(q, k);
          return true;
        }
        q := q.next;
        k := k + 1;
      }
      return false;
    }
  }
}
