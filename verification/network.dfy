/** The emulated network below the protocols: a clock, the pending events and the channel pattern. */
module Networks {
  import opened Packets
  import opened EventLists

  const RTT := 15.0
  const CHANNEL_DELAY := RTT / 2.0 - 1.0

  datatype Fate = Delivered | Corrupted | Lost

  /** The fate that the cyclic channel pattern assigns to the i-th transmission. */
  function FateOf(pattern: seq<char>, i: nat): Fate
    requires pattern != []
  {
    var c := pattern[i % |pattern|];
    if c == 'x' then Lost else if c == '-' then Corrupted else Delivered
  }

  function OtherSide(s: Side): Side {
    if s.SideA? then SideB else SideA
  }

  datatype Net = Net(time: real, events: seq<Event>, transmissions: nat)

  /** What a protocol handler asks of the layer below. */
  datatype Action =
    | Send(pkt: Packet, origin: int)
    | StartTimer(seqno: int)
    | StopTimer(seqno: int)

  function Arriving(pkt: Packet, fate: Fate): Packet
  {
    if fate.Corrupted? then Tamper(pkt) else pkt
  }

  function Perform(net: Net, pattern: seq<char>, from: Side, a: Action): Net
    requires pattern != []
  {
    match a
    case Send(pkt, origin) =>
      var fate := FateOf(pattern, net.transmissions);
      var net1 := net.(transmissions := net.transmissions + 1);
      if fate.Lost? then net1
      else
        var e := FromLayer3(net.time + CHANNEL_DELAY, OtherSide(from), Arriving(pkt, fate), origin);
        net1.(events := Insert(net.events, e))
    case StartTimer(n) =>
      net.(events := Insert(net.events, TimeOut(net.time + RTT, from, n)))
    case StopTimer(n) =>
      net.(events := RemoveTimer(net.events, from, n))
  }

  function PerformAll(net: Net, pattern: seq<char>, from: Side, acts: seq<Action>): Net
    requires pattern != []
    decreases |acts|
  {
    if acts == [] then net
    else PerformAll(Perform(net, pattern, from, acts[0]), pattern, from, acts[1..])
  }

  lemma {:induction false} PerformAppend(net: Net, pattern: seq<char>, from: Side, xs: seq<Action>, ys: seq<Action>)
    requires pattern != []
    ensures PerformAll(net, pattern, from, xs + ys)
         == PerformAll(PerformAll(net, pattern, from, xs), pattern, from, ys)
    decreases |xs|
  {
    if xs == [] {
      assert xs + ys == ys;
    } else {
      assert (xs + ys)[0] == xs[0] && (xs + ys)[1..] == xs[1..] + ys;
      PerformAppend(Perform(net, pattern, from, xs[0]), pattern, from, xs[1..], ys);
    }
  }

  lemma PerformOne(net: Net, pattern: seq<char>, from: Side, a: Action)
    requires pattern != []
    ensures PerformAll(net, pattern, from, [a]) == Perform(net, pattern, from, a)
  {
    assert [a][1..] == [];
    assert PerformAll(Perform(net, pattern, from, a), pattern, from, []) == Perform(net, pattern, from, a);
  }

  lemma PerformTwo(net: Net, pattern: seq<char>, from: Side, a: Action, b: Action)
    requires pattern != []
    ensures PerformAll(net, pattern, from, [a, b]) == Perform(Perform(net, pattern, from, a), pattern, from, b)
  {
    assert [a, b] == [a] + [b];
    PerformAppend(net, pattern, from, [a], [b]);
    PerformOne(net, pattern, from, a);
    PerformOne(Perform(net, pattern, from, a), pattern, from, b);
  }

  ghost predicate CarriedAs(c: char, p: Packet, q: Packet) {
    if c == '-' then Damaged(p, q) else q == p
  }

  /** What the channel does with a packet: an `x` in the pattern loses it; otherwise exactly one arrival joins the events,
      6.5 later and at the other side, of the packet damaged where the pattern has a `-`, and as it was sent where it has
      anything else. */
  lemma ChannelExact(net: Net, pattern: seq<char>, from: Side, p: Packet, origin: int)
    requires pattern != []
    ensures var c := pattern[net.transmissions % |pattern|];
            var net' := Perform(net, pattern, from, Send(p, origin));
            && net'.time == net.time && net'.transmissions == net.transmissions + 1
            && (c == 'x' ==> net'.events == net.events)
            && (c != 'x' ==>
                  exists q: Packet ::
                    && CarriedAs(c, p, q)
                    && Joins(net.events, FromLayer3(net.time + 6.5, if from == SideA then SideB else SideA, q, origin),
                             net'.events))
  {
    hide Insert, Tamper, Joins, Damaged;
    var c := pattern[net.transmissions % |pattern|];
    var q := if c == '-' then Tamper(p) else p;
    TamperDamages(p);
    assert CarriedAs(c, p, q);
    InsertJoins(net.events, FromLayer3(net.time + 6.5, if from == SideA then SideB else SideA, q, origin));
  }

  /** A timer goes off 15 after it was started; cancelling takes the first one of that side and number. */
  lemma TimerExact(net: Net, pattern: seq<char>, from: Side, n: int)
    requires pattern != []
    ensures var net' := Perform(net, pattern, from, StartTimer(n));
            net' == net.(events := net'.events) && Joins(net.events, TimeOut(net.time + 15.0, from, n), net'.events)
    ensures var net' := Perform(net, pattern, from, StopTimer(n));
            net' == net.(events := net'.events) && Cancels(net.events, from, n, net'.events)
  {
    hide Insert, RemoveTimer, Joins, Cancels;
    InsertJoins(net.events, TimeOut(net.time + 15.0, from, n));
    RemoveCancels(net.events, from, n);
  }

  class Network {
    const pattern: seq<char>
    const evlist: EventList
    var time: real
    var cp: int
    ghost var Repr: set<object>

    ghost predicate Valid()
      reads this, Repr
      ensures Valid() ==> this in Repr
    {
      && this in Repr && evlist in Repr && evlist.Repr <= Repr && this !in evlist.Repr
      && evlist.Valid()
      && pattern != [] && -1 <= cp
    }

    ghost function State(): Net
      requires Valid()
      reads this, Repr
    {
      Net(time, evlist.Contents(), cp + 1)
    }

    constructor (pattern: seq<char>)
      requires pattern != []
      ensures Valid() && fresh(Repr) && this.pattern == pattern
      ensures State() == Net(0.0, [], 0)
    {
      this.pattern := pattern;
      evlist := new EventList();
      time := 0.0;
      cp := -1;
      new;
      Repr := {this} + evlist.Repr;
    }

    method InsertNew(e: Event)
      requires Valid()
      modifies Repr
      ensures Valid() && fresh(Repr - old(Repr))
      ensures State() == old(State()).(events := Insert(old(State()).events, e))
    {
      var evptr := new EventNode(e);
      evlist.InsertEvent(evptr);
      Repr := Repr + {evptr};
    }

    /** Hands a packet to the channel, which loses it, damages it or delivers it after a fixed delay. */
    method ToLayer3(from: Side, packet: Packet, origin: int)
      requires Valid()
      modifies Repr
      ensures Valid() && fresh(Repr - old(Repr))
      ensures State() == Perform(old(State()), pattern, from, Send(packet, origin))
    {
      hide Insert;
      cp := cp + 1;
      if pattern[cp % |pattern|] == 'x' {
        return;
      }
      var mypkt := packet;
      if pattern[cp % |pattern|] == '-' {
        mypkt := mypkt.(payload := mypkt.payload[0 := LETTER_Z], seqnum := TAMPERED, acknum := TAMPERED);
      }
      var to := if from.SideA? then SideB else SideA;
      InsertNew(FromLayer3(time + CHANNEL_DELAY, to, mypkt, origin));
    }

    method StartTimerR(entity: Side, seqno: int)
      requires Valid()
      modifies Repr
      ensures Valid() && fresh(Repr - old(Repr))
      ensures State() == Perform(old(State()), pattern, entity, StartTimer(seqno))
    {
      InsertNew(TimeOut(time + RTT, entity, seqno));
    }

    /** Not found is where the source prints its warning that no such timer was running. */
    method StopTimerR(entity: Side, seqno: int) returns (found: bool)
      requires Valid()
      modifies Repr
      ensures Valid() && fresh(Repr - old(Repr))
      ensures found <==> exists i :: 0 <= i < |old(State()).events| && IsTimer(old(State()).events[i], entity, seqno)
      ensures State() == Perform(old(State()), pattern, entity, StopTimer(seqno))
    {
      ghost var evs := State().events;
      found := evlist.StopTimer(entity, seqno);
      assert found <==> exists i :: 0 <= i < |evs| && IsTimer(evs[i], entity, seqno);
    }

    /** The main loop's first lines: take the next event off the list and move the clock to it. */
    method NextEvent() returns (eventptr: EventNode?)
      requires Valid()
      modifies Repr
      ensures Valid() && fresh(Repr - old(Repr))
      ensures eventptr == null <==> old(State()).events == []
      ensures eventptr == null ==> State() == old(State())
      ensures eventptr != null ==>
                var s := old(State());
                eventptr.ev == s.events[0] && State() == s.(time := s.events[0].time, events := s.events[1..])
    {
      eventptr := evlist.PopEvent();
      if eventptr != null {
        time := eventptr.ev.time;
      }
    }
  }
}
