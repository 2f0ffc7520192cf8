/** Packets and their checksum, shared by Go-Back-N and Selective Repeat. */
module Packets {

  type Byte = b: int | 0 <= b < 256

  /** The 20 data bytes of a message, which are also the payload of its packet. */
  type Payload = s: seq<Byte> | |s| == 20 witness seq(20, _ => 0)

  datatype Packet = Packet(seqnum: int, acknum: int, checksum: int, payload: Payload)

  const NOTUSED := 0

  // Unsigned 32-bit arithmetic is written out: a word wraps at WORD, and the fold splits it at HALF.
  const WORD := 0x1_0000_0000
  const HALF := 0x1_0000

  /** Signed 32-bit fields. */
  predicate Int32(x: int) {
    -0x8000_0000 <= x < 0x8000_0000
  }

  function ByteSum(s: seq<Byte>): (n: nat)
    ensures s != [] ==> s[0] <= n
    ensures n <= 255 * |s|
  {
    if s == [] then 0 else ByteSum(s[..|s| - 1]) + s[|s| - 1]
  }

  /** What the checksum covers, as one number.  Only the addition of the two header fields and the
      first byte can wrap; every later addition starts from a folded sum. */
  function Total(p: Packet): nat {
    (p.seqnum + p.acknum + p.payload[0]) % WORD + (ByteSum(p.payload) - p.payload[0])
  }

  /** The end-around-carry residue: 0 only for 0, otherwise the representative in 1..65535. */
  function Residue(n: nat): (r: nat)
    ensures r < HALF
    ensures r % 65535 == n % 65535
    ensures r == 0 <==> n == 0
  {
    if n == 0 then 0 else (n - 1) % 65535 + 1
  }

  lemma ResidueUnique(n: nat, r: nat)
    requires r < HALF && r % 65535 == n % 65535 && (r == 0 <==> n == 0)
    ensures r == Residue(n)
  {
  }

  /** One end-around carry of a 32-bit sum. */
  function Fold(x: nat): (r: nat)
    requires x < WORD
    ensures r % 65535 == x % 65535
    ensures r == 0 <==> x == 0
    ensures r <= 0x1FFFE && r <= x
  {
    if HALF <= x then
      assert x == HALF * (x / HALF) + x % HALF;
      x % HALF + x / HALF
    else x
  }

  /** The accumulation loop that both checksum routines run. */
  method FoldedSum(p: Packet) returns (sum: nat)
    ensures sum == Residue(Total(p))
  {
    sum := p.seqnum % WORD;
    WordAdd(p.seqnum, p.acknum);
    sum := (sum + p.acknum) % WORD;
    var i := 0;
    while i < 20
      invariant 0 <= i <= 20
      invariant i == 0 ==> sum == (p.seqnum + p.acknum) % WORD
      invariant i > 0 ==> Represents(sum, PartialTotal(p, i))
      invariant sum < WORD && (i == 1 ==> sum <= 0x1FFFE) && (i == 2 ==> sum <= HALF) && (i >= 3 ==> sum < HALF)
    {
      PartialStep(p, i);
      if i == 0 {
        WordAdd(p.seqnum + p.acknum, p.payload[0]);
      } else {
        FoldStep(sum, PartialTotal(p, i), p.payload[i]);
      }
      sum := Fold((sum + p.payload[i]) % WORD);
      i := i + 1;
    }
    assert p.payload[..20] == p.payload;
    ResidueUnique(Total(p), sum);
  }

  /** `sum` stands for `total` in end-around-carry arithmetic. */
  ghost predicate Represents(sum: nat, total: nat) {
    sum % 65535 == total % 65535 && (sum == 0 <==> total == 0)
  }

  lemma LowHalf(x: int)
    ensures x % WORD % HALF == x % HALF
  {
  }

  lemma WordAdd(x: int, y: int)
    ensures (x % WORD + y) % WORD == (x + y) % WORD
  {
  }

  /** `Total` restricted to the first `i` bytes. */
  ghost function PartialTotal(p: Packet, i: nat): nat
    requires 0 < i <= 20
  {
    (p.seqnum + p.acknum + p.payload[0]) % WORD + (ByteSum(p.payload[..i]) - p.payload[0])
  }

  /** Adding one byte and folding keeps the residue class, and keeps zero apart from 65535. */
  lemma FoldStep(sum: nat, total: nat, b: Byte)
    requires sum <= 0x1FFFE && Represents(sum, total)
    ensures (sum + b) % WORD == sum + b
    ensures Represents(Fold(sum + b), total + b)
    ensures Fold(sum + b) <= HALF
    ensures sum <= HALF ==> Fold(sum + b) < HALF
  {
    CongruenceShift(sum, total, b);
  }

  lemma PartialStep(p: Packet, i: nat)
    requires i < 20
    ensures i == 0 ==> PartialTotal(p, 1) == (p.seqnum + p.acknum + p.payload[0]) % WORD
    ensures i > 0 ==> PartialTotal(p, i + 1) == PartialTotal(p, i) + p.payload[i]
  {
    assert p.payload[..i + 1][..i] == p.payload[..i];
  }

  /** The packet with its checksum filled in: the complement of the residue, as a signed int. */
  function Seal(p: Packet): Packet {
    p.(checksum := -1 - Residue(Total(p)))
  }

  /** What the receiver checks: the low 16 bits of checksum and residue are complementary. */
  predicate Accepts(p: Packet) {
    (Residue(Total(p)) + p.checksum) % HALF == HALF - 1
  }

  method ComputeChecksum(packet: Packet) returns (sealed: Packet)
    ensures sealed == Seal(packet)
    ensures Accepts(sealed)
  {
    var sum := FoldedSum(packet);
    sealed := packet.(checksum := -1 - sum % HALF);
  }

  method CheckCorrupted(packet: Packet) returns (corrupted: bool)
    ensures corrupted == !Accepts(packet)
  {
    var sum := FoldedSum(packet);
    LowHalf(sum + packet.checksum);
    sum := (sum + packet.checksum) % WORD;
    corrupted := sum % HALF != HALF - 1;
  }

  /** A packet that carries the checksum computed for `q` is accepted exactly when both totals have
      the same residue: equal modulo 65535, and both zero or both non-zero. */
  lemma AcceptsForeignChecksum(p: Packet, q: Packet)
    requires p.checksum == Seal(q).checksum
    ensures Accepts(p) <==>
              Total(p) % 65535 == Total(q) % 65535 && (Total(p) == 0 <==> Total(q) == 0)
  {
    var a, b := Residue(Total(p)), Residue(Total(q));
    assert Accepts(p) <==> a == b;
    if Total(p) % 65535 == Total(q) % 65535 && (Total(p) == 0 <==> Total(q) == 0) {
      ResidueUnique(Total(p), b);
    }
  }

  /** A packet's own checksum is always accepted. */
  lemma OwnChecksumAccepted(p: Packet)
    ensures Accepts(Seal(p))
  {
    AcceptsForeignChecksum(Seal(p), p);
  }

  /** The checksum filled in is the only number from -65536 to -1 with which the packet passes. */
  lemma SealExact(p: Packet, c: int)
    requires -65536 <= c <= -1
    ensures -65536 <= Seal(p).checksum <= -1 && Seal(p) == p.(checksum := Seal(p).checksum)
    ensures Accepts(p.(checksum := c)) <==> c == Seal(p).checksum
  {
    hide Residue;
    assert Total(p.(checksum := c)) == Total(p);
  }

  /** Only the low 16 bits of the checksum matter. */
  lemma AcceptsLowBits(p: Packet, k: int)
    ensures Accepts(p.(checksum := p.checksum + 65536 * k)) <==> Accepts(p)
  {
    hide Residue;
    var q := p.(checksum := p.checksum + 65536 * k);
    assert Total(q) == Total(p);
    assert (Residue(Total(p)) + p.checksum + 65536 * k) % 65536 == (Residue(Total(p)) + p.checksum) % 65536;
  }

  /** No wrap in the first addition: true of every packet that either protocol builds, except for the cumulative
      ACK -1 of Go-Back-N. */
  predicate NoWrap(p: Packet) {
    0 <= p.seqnum && 0 <= p.acknum && p.seqnum + p.acknum + 255 < WORD
  }

  lemma TotalNoWrap(p: Packet)
    requires NoWrap(p)
    ensures Total(p) == p.seqnum + p.acknum + ByteSum(p.payload)
  {
  }

  /** Adding the same number to both sides keeps and reflects congruence. */
  lemma CongruenceShift(x: int, y: int, c: int)
    ensures (x + c) % 65535 == (y + c) % 65535 <==> x % 65535 == y % 65535
    ensures x % 65535 == y % 65535 <==> (x - y) % 65535 == 0
  {
  }

  lemma {:induction false} ByteSumUpdate(s: seq<Byte>, i: nat, b: Byte)
    requires i < |s|
    ensures ByteSum(s[i := b]) == ByteSum(s) - s[i] + b
  {
    var n := |s| - 1;
    if i == n {
      assert s[i := b][..n] == s[..n];
    } else {
      assert s[i := b][..n] == s[..n][i := b];
      ByteSumUpdate(s[..n], i, b);
    }
  }

  /** The part of the total that the first addition wraps, and the rest. */
  function Wrapped(p: Packet): nat {
    (p.seqnum + p.acknum + p.payload[0]) % WORD
  }

  function Rest(p: Packet): (n: nat)
    ensures Total(p) == Wrapped(p) + n
  {
    ByteSum(p.payload) - p.payload[0]
  }

  /** Two different bytes that the wrap of the first addition separates: one makes the sum of header and first byte a
      multiple of the word size, the other one less. */
  predicate Straddles(p: Packet, b: Byte) {
    var high := if p.payload[0] < b then b else p.payload[0];
    (b - p.payload[0] == 1 || p.payload[0] - b == 1) && (p.seqnum + p.acknum + high) % WORD == 0
  }

  lemma FirstByteResidue(h: int, x: Byte, y: Byte)
    requires x < y
    ensures (h + x) % WORD % 65535 == (h + y) % WORD % 65535 <==> y == x + 1 && (h + y) % WORD == 0
    ensures y == x + 1 && (h + y) % WORD == 0 ==> (h + x) % WORD == WORD - 1
  {
    var u, v := (h + x) % WORD, (h + y) % WORD;
    assert WORD == 65535 * 65537 + 1;
    assert v == u + (y - x) || v == u + (y - x) - WORD;
    CongruenceShift(u, v, 0);
  }

  /** Packets that differ in what the first addition covers only. */
  lemma SameRest(q: Packet, p: Packet)
    requires q.checksum == Seal(p).checksum && Rest(q) == Rest(p)
    ensures Accepts(q) <==> Wrapped(q) % 65535 == Wrapped(p) % 65535
                            && (Wrapped(q) == 0 && Rest(p) == 0 <==> Wrapped(p) == 0 && Rest(p) == 0)
  {
    hide Accepts, Seal, Wrapped, Rest, Total;
    AcceptsForeignChecksum(q, p);
    CongruenceShift(Wrapped(q), Wrapped(p), Rest(p));
  }

  lemma FirstByteAccepted(p: Packet, b: Byte)
    requires b != p.payload[0]
    ensures Accepts(Seal(p).(payload := p.payload[0 := b])) <==> Straddles(p, b) && Rest(p) != 0
  {
    hide Accepts, Total;
    var q := Seal(p).(payload := p.payload[0 := b]);
    ByteSumUpdate(p.payload, 0, b);
    SameRest(q, p);
    if b < p.payload[0] {
      FirstByteResidue(p.seqnum + p.acknum, b, p.payload[0]);
    } else {
      FirstByteResidue(p.seqnum + p.acknum, p.payload[0], b);
    }
  }

  lemma LaterByteRejected(p: Packet, i: nat, b: Byte)
    requires 0 < i < 20 && b != p.payload[i]
    ensures !Accepts(Seal(p).(payload := p.payload[i := b]))
  {
    hide Residue, AckPacket;
    hide Accepts;
    var q := Seal(p).(payload := p.payload[i := b]);
    ByteSumUpdate(p.payload, i, b);
    AcceptsForeignChecksum(q, p);
    assert Total(q) == Total(p) - p.payload[i] + b;
    CongruenceShift(Total(q), Total(p), 0);
  }

  /** Exactly which changes of one payload byte of a sealed packet go unnoticed, whatever the header: the first byte
      moves by one across the wrap of a 32-bit sum, and the other bytes are not all zero. */
  lemma ByteChangeAccepted(p: Packet, i: nat, b: Byte)
    requires i < 20 && b != p.payload[i]
    ensures Accepts(Seal(p).(payload := p.payload[i := b])) <==> i == 0 && Straddles(p, b) && Rest(p) != 0
  {
    hide Accepts, Seal, Straddles, Rest;
    if i == 0 {
      FirstByteAccepted(p, b);
    } else {
      LaterByteRejected(p, i, b);
    }
  }

  /** Changing any one payload byte of a packet that either protocol builds is detected. */
  lemma ByteChangeRejected(p: Packet, i: nat, b: Byte)
    requires i < 20 && b != p.payload[i]
    requires NoWrap(p) || p == AckPacket(-1)
    ensures !Accepts(Seal(p).(payload := p.payload[i := b]))
  {
    hide Accepts, Residue;
    ByteChangeAccepted(p, i, b);
    if p == AckPacket(-1) {
      assert p.payload == ZeroPayload;
      ZeroSum(20);
      assert ZeroPayload[..20] == ZeroPayload;
    }
  }

  lemma WrappedNoWrap(p: Packet)
    requires NoWrap(p)
    ensures Wrapped(p) == p.seqnum + p.acknum + p.payload[0]
  {
  }

  /** Changing the header fields of a sealed packet goes unnoticed exactly when it moves the wrapped part of the total
      by a multiple of 65535 without passing through a zero total. */
  lemma HeaderChangeAccepted(p: Packet, seqnum: int, acknum: int)
    ensures var q := Seal(p).(seqnum := seqnum, acknum := acknum);
            Accepts(q) <==> Wrapped(q) % 65535 == Wrapped(p) % 65535 && (Total(q) == 0 <==> Total(p) == 0)
  {
    hide Accepts;
    SameRest(Seal(p).(seqnum := seqnum, acknum := acknum), p);
  }

  /** Without a wrap, exactly when it moves the sum of the fields by a multiple of 65535. */
  lemma HeaderSumAccepted(p: Packet, seqnum: nat, acknum: nat)
    requires NoWrap(p) && NoWrap(p.(seqnum := seqnum, acknum := acknum))
    ensures Accepts(Seal(p).(seqnum := seqnum, acknum := acknum)) <==>
              (seqnum + acknum) % 65535 == (p.seqnum + p.acknum) % 65535
              && (seqnum + acknum + ByteSum(p.payload) == 0 <==> p.seqnum + p.acknum + ByteSum(p.payload) == 0)
  {
    hide Accepts, Wrapped, Residue, Total;
    var q := Seal(p).(seqnum := seqnum, acknum := acknum);
    HeaderChangeAccepted(p, seqnum, acknum);
    WrappedNoWrap(p);
    WrappedNoWrap(q);
    TotalNoWrap(p);
    TotalNoWrap(q);
    CongruenceShift(seqnum + acknum, p.seqnum + p.acknum, p.payload[0]);
  }

  // ---------- what the emulated channel does to a packet ----------

  const TAMPERED := 999999
  const LETTER_Z: Byte := 90

  /** The channel's corruption: both header fields and the first payload byte are overwritten,
      the checksum is left alone. */
  function Tamper(p: Packet): Packet {
    p.(seqnum := TAMPERED, acknum := TAMPERED, payload := p.payload[0 := LETTER_Z])
  }

  function DataPacket(n: int, m: Payload): Packet {
    Seal(Packet(n, NOTUSED, 0, m))
  }

  const ZeroPayload: Payload := [0, 0, 0, 0, 0, 0, 0, 0, 0, 0, 0, 0, 0, 0, 0, 0, 0, 0, 0, 0]

  function AckPacket(n: int): Packet {
    Seal(Packet(NOTUSED, n, 0, ZeroPayload))
  }

  /** What the two programs put into their packets. */
  lemma BuiltPackets(n: int, m: Payload)
    ensures var p := DataPacket(n, m);
            p.seqnum == n && p.acknum == 0 && p.payload == m && Accepts(p) && -65536 <= p.checksum <= -1
    ensures var p := AckPacket(n);
            && p.seqnum == 0 && p.acknum == n && (forall i :: 0 <= i < 20 ==> p.payload[i] == 0)
            && Accepts(p) && -65536 <= p.checksum <= -1
  {
    hide Accepts, Residue, Total;
    OwnChecksumAccepted(Packet(n, NOTUSED, 0, m));
    OwnChecksumAccepted(Packet(NOTUSED, n, 0, ZeroPayload));
  }

  /** What the channel's corruption does: both numbers become 999999 and the first byte the letter Z, all else stays. */
  ghost predicate Damaged(p: Packet, q: Packet) {
    && q.seqnum == 999999 && q.acknum == 999999 && q.checksum == p.checksum && q.payload[0] == 90
    && forall i :: 1 <= i < 20 ==> q.payload[i] == p.payload[i]
  }

  lemma TamperDamages(p: Packet)
    ensures Damaged(p, Tamper(p))
  {
  }

  lemma TamperedTotal(p: Packet)
    requires NoWrap(p)
    ensures Total(Tamper(p)) == Total(p) - p.seqnum - p.acknum - p.payload[0] + 2000088
  {
    ByteSumUpdate(p.payload, 0, LETTER_Z);
  }

  /** The checksum does not cover itself. */
  lemma SealedTotal(p: Packet)
    ensures Total(Seal(p)) == Total(p)
  {
  }

  /** Exactly which data packets survive the channel's corruption undetected. */
  lemma TamperedDataAccepted(n: nat, m: Payload)
    requires Int32(n)
    ensures Accepts(Tamper(DataPacket(n, m))) <==> (n + m[0]) % 65535 == 34038
  {
    hide Accepts, Residue, Total, ByteSum;
    var p := Packet(n, NOTUSED, 0, m);
    AcceptsForeignChecksum(Tamper(Seal(p)), p);
    TamperedTotal(Seal(p));
    SealedTotal(p);
    TotalNoWrap(p);
    CongruenceShift(2000088, n + m[0], ByteSum(m) - m[0]);
  }

  lemma {:induction false} ZeroSum(k: nat)
    requires k <= 20
    ensures ByteSum(ZeroPayload[..k]) == 0
  {
    if k > 0 {
      assert ZeroPayload[..k][..k - 1] == ZeroPayload[..k - 1];
      ZeroSum(k - 1);
    }
  }

  /** Exactly which acknowledgments survive it, the cumulative ACK -1 of Go-Back-N included. */
  lemma TamperedAckAccepted(n: int)
    requires -1 <= n && Int32(n)
    ensures Accepts(Tamper(AckPacket(n))) <==> n % 65535 == 34038
  {
    var p := Packet(NOTUSED, n, 0, ZeroPayload);
    assert ZeroPayload[..20] == ZeroPayload;
    ZeroSum(20);
    ByteSumUpdate(ZeroPayload, 0, LETTER_Z);
    AcceptsForeignChecksum(Tamper(Seal(p)), p);
    assert Total(p) == n % WORD && Total(Tamper(Seal(p))) == 2000088;
    assert n == -1 ==> Total(p) % 65535 == 0;
  }

  /** Every data packet below 33783 and every ACK below 34038 is rejected after corruption. */
  lemma CorruptionDetected(n: nat, m: Payload)
    ensures n < 33783 ==> !Accepts(Tamper(DataPacket(n, m)))
    ensures n < 34038 ==> !Accepts(Tamper(AckPacket(n)))
  {
    hide Accepts, DataPacket, AckPacket, Tamper;
    if n < 34038 {
      TamperedDataAccepted(n, m);
      TamperedAckAccepted(n);
    }
  }

  /** Both bounds are the best possible. */
  lemma CorruptionBoundsTight()
    ensures Accepts(Tamper(DataPacket(33783, ZeroPayload[0 := 255])))
    ensures Accepts(Tamper(AckPacket(34038)))
  {
    TamperedDataAccepted(33783, ZeroPayload[0 := 255]);
    TamperedAckAccepted(34038);
  }
}
