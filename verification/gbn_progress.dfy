/** What Go-Back-N achieves and what it does not: exactly which message lists can be delivered and acknowledged, and
    exactly when the number that corruption writes can be mistaken for a real one. */
module GbnProgress {
  import opened Rings
  import opened Packets
  import opened GbnEntities
  import opened GbnProtocol

  /** Everything submitted has been delivered and acknowledged. */
  ghost predicate Completed(g: Gbn, ms: seq<Payload>) {
    g.submitted == ms && g.snd.base == g.snd.next == g.expected == |ms| && g.delivered == ms
  }

  // ---------- good steps ----------

  /** `k` messages are submitted and `d` of them delivered, in a window that starts at `base`; every packet and every
      acknowledgment of them is there to arrive. */
  ghost predicate Underway(w: nat, g: Gbn, ms: seq<Payload>, base: nat, d: nat, k: nat) {
    && base <= k && d <= k <= |ms| && SenderOk(w, g.snd, ms[..k]) && g.submitted == ms[..k] && g.delivered == ms[..d]
    && g.snd.base == base && g.snd.next == k && g.expected == d
    && (forall n: nat | n < k :: DataPacket(n, ms[n]) in g.dataNet)
    && (forall n: nat | n < d :: AckPacket(n) in g.ackNet)
  }

  lemma SubmitNext(w: nat, g: Gbn, ms: seq<Payload>, base: nat, d: nat, k: nat)
    requires Underway(w, g, ms, base, d, k) && k < |ms| && k < base + w
    ensures g.snd.Shaped() && Enabled(g, Submit(ms[k])) && Underway(w, Apply(g, Submit(ms[k])), ms, base, d, k + 1)
  {
    assert ms[..k + 1] == ms[..k] + [ms[k]];
    SubmitOk(w, g.snd, ms[..k], ms[k]);
    SubmitWithRoom(g, ms[k]);
  }

  lemma DeliverNext(w: nat, g: Gbn, ms: seq<Payload>, base: nat, d: nat, k: nat)
    requires Underway(w, g, ms, base, d, k) && d < k
    ensures g.snd.Shaped() && Enabled(g, DataArrives(DataPacket(d, ms[d])))
    ensures Underway(w, Apply(g, DataArrives(DataPacket(d, ms[d]))), ms, base, d + 1, k)
  {
    assert ms[..d + 1] == ms[..d] + [ms[d]];
    ExpectedArrives(g, ms[d]);
  }

  /** The acknowledgment of everything in flight, unless it carries the number 0. */
  lemma AcknowledgeAll(w: nat, g: Gbn, ms: seq<Payload>, base: nat, k: nat)
    requires Underway(w, g, ms, base, k, k) && base < k && 1 < k
    ensures g.snd.Shaped() && Enabled(g, AckArrives(AckPacket(k - 1)))
    ensures Underway(w, Apply(g, AckArrives(AckPacket(k - 1))), ms, k, k, k)
  {
    hide SenderMid, Sends;
    var s, p := g.snd, AckPacket(k - 1);
    OwnChecksumAccepted(Packet(NOTUSED, k - 1, 0, ZeroPayload));
    OkEmpty(w, s, ms[..k]);
    AcceptedOk(w, s, ms[..k], k - 1);
    RefillNothing(PopAcked(s.(base := k)));
  }

  lemma OkEmpty(w: nat, s: Sender, submitted: seq<Payload>)
    requires SenderOk(w, s, submitted) && s.next == |submitted|
    ensures s.Shaped() && s.queue == []
  {
  }

  lemma RefillNothing(s: Sender)
    requires s.Shaped() && s.queue == []
    ensures Refill(s) == Effect(s, [])
  {
  }

  // ---------- runs that complete ----------

  lemma StartRun(w: nat, ms: seq<Payload>) returns (states: seq<Gbn>, steps: seq<Step>)
    requires 0 < w
    ensures Run(w, states, steps) && Underway(w, states[|steps|], ms, 0, 0, 0)
  {
    var winbuf := seq(w, _ => Packet(0, 0, 0, ZeroPayload));
    var g := Gbn(Sender(0, 0, winbuf, 0, 0, 0, [], 0, 0, 0), 0, {}, {}, multiset{}, [], []);
    states, steps := [g], [];
    SmallMod(0, w);
  }

  lemma SubmitOne(w: nat, ms: seq<Payload>, base: nat, d: nat, k: nat, states: seq<Gbn>, steps: seq<Step>)
    returns (states': seq<Gbn>, steps': seq<Step>)
    requires Run(w, states, steps) && Underway(w, states[|steps|], ms, base, d, k) && k < |ms| && k < base + w
    ensures Run(w, states', steps') && Underway(w, states'[|steps'|], ms, base, d, k + 1)
  {
    hide Underway, Apply, Enabled;
    var g := states[|steps|];
    SubmitNext(w, g, ms, base, d, k);
    RunExtend(w, states, steps, Submit(ms[k]));
    states', steps' := states + [Apply(g, Submit(ms[k]))], steps + [Submit(ms[k])];
  }

  lemma DeliverOne(w: nat, ms: seq<Payload>, base: nat, d: nat, k: nat, states: seq<Gbn>, steps: seq<Step>)
    returns (states': seq<Gbn>, steps': seq<Step>)
    requires Run(w, states, steps) && Underway(w, states[|steps|], ms, base, d, k) && d < k <= |ms|
    ensures Run(w, states', steps') && Underway(w, states'[|steps'|], ms, base, d + 1, k)
  {
    hide Underway, Apply, Enabled;
    var g, step := states[|steps|], DataArrives(DataPacket(d, ms[d]));
    DeliverNext(w, g, ms, base, d, k);
    RunExtend(w, states, steps, step);
    states', steps' := states + [Apply(g, step)], steps + [step];
  }

  lemma AcknowledgeOnce(w: nat, ms: seq<Payload>, base: nat, k: nat, states: seq<Gbn>, steps: seq<Step>)
    returns (states': seq<Gbn>, steps': seq<Step>)
    requires Run(w, states, steps) && Underway(w, states[|steps|], ms, base, k, k) && base < k && 1 < k
    ensures Run(w, states', steps') && Underway(w, states'[|steps'|], ms, k, k, k)
  {
    hide Underway, Apply, Enabled;
    var g, step := states[|steps|], AckArrives(AckPacket(k - 1));
    AcknowledgeAll(w, g, ms, base, k);
    RunExtend(w, states, steps, step);
    states', steps' := states + [Apply(g, step)], steps + [step];
  }

  lemma FirstTwo(w: nat, ms: seq<Payload>) returns (states: seq<Gbn>, steps: seq<Step>)
    requires 2 <= w && 2 <= |ms|
    ensures Run(w, states, steps) && Underway(w, states[|steps|], ms, 0, 2, 2)
  {
    hide Underway, Run;
    states, steps := StartRun(w, ms);
    states, steps := SubmitOne(w, ms, 0, 0, 0, states, steps);
    states, steps := SubmitOne(w, ms, 0, 0, 1, states, steps);
    states, steps := DeliverOne(w, ms, 0, 0, 2, states, steps);
    states, steps := DeliverOne(w, ms, 0, 1, 2, states, steps);
  }

  /** The first two messages go together, so that packet 0 is acknowledged with packet 1; the rest one by one. */
  lemma {:induction false} Complete(w: nat, ms: seq<Payload>, k: nat) returns (states: seq<Gbn>, steps: seq<Step>)
    requires 2 <= w && 2 <= k <= |ms|
    ensures Run(w, states, steps) && Underway(w, states[|steps|], ms, k, k, k)
  {
    hide Underway, Run;
    if k == 2 {
      states, steps := FirstTwo(w, ms);
      states, steps := AcknowledgeOnce(w, ms, 0, 2, states, steps);
    } else {
      states, steps := Complete(w, ms, k - 1);
      states, steps := SubmitOne(w, ms, k - 1, k - 1, k - 1, states, steps);
      states, steps := DeliverOne(w, ms, k - 1, k - 1, k, states, steps);
      states, steps := AcknowledgeOnce(w, ms, k - 1, k, states, steps);
    }
  }

  /** A run that delivers all of `ms` and has it acknowledged exists exactly when there is nothing to send, or when
      window and list both have at least two places.  ACK 0 is discarded, so packet 0 is only ever acknowledged
      together with packet 1. */
  lemma CompletionExact(w: nat, ms: seq<Payload>)
    requires 0 < w
    ensures (exists states: seq<Gbn>, steps: seq<Step> :: Run(w, states, steps) && Completed(states[|steps|], ms))
       <==> ms == [] || (2 <= w && 2 <= |ms|)
  {
    forall states: seq<Gbn>, steps: seq<Step> | Run(w, states, steps) && Completed(states[|steps|], ms)
      ensures ms == [] || (2 <= w && 2 <= |ms|)
    {
      if w == 1 || |ms| == 1 {
        RunInv(w, states, steps, |steps|);
      }
    }
    if ms == [] {
      var states, steps := StartRun(w, ms);
      assert Completed(states[|steps|], ms);
    } else if 2 <= w && 2 <= |ms| {
      var states, steps := Complete(w, ms, |ms|);
      assert ms[..|ms|] == ms;
      assert Completed(states[|steps|], ms);
    }
  }

  /** With a window of one no run ever delivers more than one message. */
  lemma WindowOfOneDeliversOne(states: seq<Gbn>, steps: seq<Step>, k: nat)
    requires Run(1, states, steps) && k < |states|
    ensures |states[k].delivered| <= 1
  {
    RunInv(1, states, steps, k);
  }

  // ---------- the bound on sequence numbers ----------

  /** B expects the number that corruption writes, and the corrupted form of a packet whose corruption escapes the
      checksum arrives. */
  lemma SlippedArrives(w: nat, g: Gbn, ms: seq<Payload>, n: nat)
    requires Underway(w, g, ms, TAMPERED, TAMPERED, TAMPERED) && |ms| == TAMPERED && n < TAMPERED && Slips(n, ms[n])
    ensures var step := DataArrives(Tamper(DataPacket(n, ms[n])));
            g.snd.Shaped() && Enabled(g, step) && |Apply(g, step).delivered| > |ms| && Apply(g, step).submitted == ms
  {
    TamperedDataAccepted(n, ms[n]);
    assert DataPacket(n, ms[n]) in g.dataNet;
    assert ms[..TAMPERED] == ms;
  }

  /** Up to the number that corruption writes, a run that submits `ms` and delivers something else exists exactly
      when the list is that long, the window has at least two places, and the corruption of some message escapes the
      checksum: exactly when `Detectable` fails. */
  lemma BoundExact(w: nat, ms: seq<Payload>)
    requires 0 < w && |ms| <= 999999
    ensures (exists states: seq<Gbn>, steps: seq<Step> ::
               Run(w, states, steps) && states[|steps|].submitted == ms && !(states[|steps|].delivered <= ms))
       <==> !Detectable(w, ms)
  {
    forall states: seq<Gbn>, steps: seq<Step>
      | Run(w, states, steps) && states[|steps|].submitted == ms && Detectable(w, ms)
      ensures states[|steps|].delivered <= ms
    {
      Safety(w, states, steps, |steps|);
    }
    if !Detectable(w, ms) {
      var n: nat :| n < |ms| && Slips(n, ms[n]);
      var states, steps := Complete(w, ms, TAMPERED);
      var g, step := states[|steps|], DataArrives(Tamper(DataPacket(n, ms[n])));
      SlippedArrives(w, g, ms, n);
      RunExtend(w, states, steps, step);
      var states', steps' := states + [Apply(g, step)], steps + [step];
      assert states'[|steps'|] == Apply(g, step);
    }
  }
}
