/**
 * The parsers of the two account kinds, against the documented layout. A key is its 32 bytes; the Base58
 * spelling of it is not modelled, nor is the hash behind a discriminator.
 */
module Accounts {
  import opened Prelude
  import opened Watcher

  type Byte = x: int | 0 <= x < 256
  type Bytes = seq<Byte>

  const MAX_BENEFICIARIES := 20
  const TWO63 := 0x8000_0000_0000_0000
  const TWO64 := 0x1_0000_0000_0000_0000

  // ---- little-endian numbers ----

  /** The k lowest bytes of n, lowest first. */
  function LittleEndian(n: nat, k: nat): (r: Bytes)
    ensures |r| == k
  {
    if k == 0 then [] else [n % 256] + LittleEndian(n / 256, k - 1)
  }

  function Number(s: Bytes): nat {
    if s == [] then 0 else s[0] + 256 * Number(s[1..])
  }

  function Limit(k: nat): (r: nat)
    ensures r >= 1
  {
    if k == 0 then 1 else 256 * Limit(k - 1)
  }

  lemma {:induction false} NumberInverts(n: nat, k: nat)
    requires n < Limit(k)
    ensures Number(LittleEndian(n, k)) == n
  {
    if k > 0 {
      NumberInverts(n / 256, k - 1);
      assert LittleEndian(n, k)[1..] == LittleEndian(n / 256, k - 1);
    }
  }

  lemma {:induction false} LittleEndianInverts(s: Bytes)
    ensures Number(s) < Limit(|s|)
    ensures LittleEndian(Number(s), |s|) == s
  {
    if s != [] {
      LittleEndianInverts(s[1..]);
      assert Number(s) / 256 == Number(s[1..]);
      assert s == [s[0]] + s[1..];
    }
  }

  lemma LimitValues()
    ensures Limit(2) == 65_536 && Limit(4) == 4_294_967_296 && Limit(8) == TWO64
  {
    assert Limit(4) == 256 * (256 * Limit(2));
    assert Limit(8) == 256 * (256 * (256 * (256 * Limit(4))));
  }

  /** Two's complement in 64 bits. */
  function Signed(n: nat): int {
    if n < TWO63 then n else n - TWO64
  }

  function Unsigned(i: int): int {
    if i >= 0 then i else i + TWO64
  }

  predicate IsI64(i: int) {
    -TWO63 <= i < TWO63
  }

  function I64(i: int): (r: Bytes)
    requires IsI64(i)
    ensures |r| == 8
  {
    LittleEndian(Unsigned(i), 8)
  }

  function ReadI64(data: Bytes, o: nat): int
    requires o + 8 <= |data|
  {
    Signed(Number(data[o..o + 8]))
  }

  function ReadU32(data: Bytes, o: nat): nat
    requires o + 4 <= |data|
  {
    Number(data[o..o + 4])
  }

  function ReadU16(data: Bytes, o: nat): nat
    requires o + 2 <= |data|
  {
    Number(data[o..o + 2])
  }

  /** A signed number read is in range and is the one whose bytes stand there. */
  lemma ReadI64Exact(data: Bytes, o: nat, i: int)
    requires o + 8 <= |data|
    ensures IsI64(ReadI64(data, o)) && I64(ReadI64(data, o)) == data[o..o + 8]
    ensures IsI64(i) && data[o..o + 8] == I64(i) ==> ReadI64(data, o) == i
  {
    LimitValues();
    LittleEndianInverts(data[o..o + 8]);
    if IsI64(i) {
      NumberInverts(Unsigned(i), 8);
    }
  }

  function At(s: Bytes, i: nat): int
    requires i < |s|
  {
    s[i]
  }

  /** The bytes of a read number, lowest first; the top byte of a signed one carries the sign. */
  lemma ReadsByByte(data: Bytes, o: nat)
    ensures o + 2 <= |data| ==> ReadU16(data, o) == At(data, o) + 0x100 * At(data, o + 1)
    ensures o + 4 <= |data| ==>
              ReadU32(data, o) == At(data, o) + 0x100 * At(data, o + 1) + 0x1_0000 * At(data, o + 2) + 0x100_0000 * At(data, o + 3)
    ensures o + 8 <= |data| ==>
              ReadI64(data, o) ==
              At(data, o) + 0x100 * At(data, o + 1) + 0x1_0000 * At(data, o + 2) + 0x100_0000 * At(data, o + 3)
              + 0x1_0000_0000 * At(data, o + 4) + 0x100_0000_0000 * At(data, o + 5) + 0x1_0000_0000_0000 * At(data, o + 6)
              + 0x100_0000_0000_0000 * (if At(data, o + 7) < 128 then At(data, o + 7) else At(data, o + 7) - 256)
  {
    if o + 2 <= |data| { BytesOf2(data[o..o + 2]); }
    if o + 4 <= |data| { BytesOf4(data[o..o + 4]); }
    if o + 8 <= |data| { BytesOf8(data[o..o + 8]); }
  }

  lemma BytesOf2(s: Bytes)
    requires |s| == 2
    ensures Number(s) == At(s, 0) + 0x100 * At(s, 1)
  {
    assert Number(s[1..]) == At(s, 1) + 256 * Number(s[1..][1..]);
  }

  lemma BytesOf4(s: Bytes)
    requires |s| == 4
    ensures Number(s) == At(s, 0) + 0x100 * At(s, 1) + 0x1_0000 * At(s, 2) + 0x100_0000 * At(s, 3)
  {
    var t := s[1..];
    assert Number(t) == At(t, 0) + 256 * Number(t[1..]);
    BytesOf2(t[1..]);
  }

  lemma BytesOf8(s: Bytes)
    requires |s| == 8
    ensures Number(s) == At(s, 0) + 0x100 * At(s, 1) + 0x1_0000 * At(s, 2) + 0x100_0000 * At(s, 3)
                         + 0x1_0000_0000 * At(s, 4) + 0x100_0000_0000 * At(s, 5) + 0x1_0000_0000_0000 * At(s, 6) + 0x100_0000_0000_0000 * At(s, 7)
  {
    var t := s[1..];
    assert Number(t) == At(t, 0) + 256 * Number(t[1..]);
    var u := t[1..];
    assert Number(u) == At(u, 0) + 256 * Number(u[1..]);
    var w := u[1..];
    assert Number(w) == At(w, 0) + 256 * Number(w[1..]);
    BytesOf4(w[1..]);
  }

  // ---- the layouts ----

  datatype Beneficiary = Beneficiary(wallet: Bytes, shareBps: int)

  datatype VaultConfig = VaultConfig(
    owner: Bytes, interval: int, grace: int, executed: bool, active: bool, beneficiaries: seq<Beneficiary>)

  predicate IsBeneficiary(b: Beneficiary) {
    |b.wallet| == 32 && 0 <= b.shareBps < 65_536
  }

  predicate Storable(c: VaultConfig) {
    && |c.owner| == 32 && IsI64(c.interval) && IsI64(c.grace)
    && |c.beneficiaries| <= MAX_BENEFICIARIES
    && forall i :: 0 <= i < |c.beneficiaries| ==> IsBeneficiary(c.beneficiaries[i])
  }

  function BeneficiaryBytes(b: Beneficiary): (r: Bytes)
    requires IsBeneficiary(b)
    ensures |r| == 34
  {
    b.wallet + LittleEndian(b.shareBps, 2)
  }

  function ListBytes(bs: seq<Beneficiary>): (r: Bytes)
    requires forall i :: 0 <= i < |bs| ==> IsBeneficiary(bs[i])
    ensures |r| == 34 * |bs|
  {
    if bs == [] then [] else ListBytes(bs[..|bs| - 1]) + BeneficiaryBytes(bs[|bs| - 1])
  }

  /** What the layout leaves free: the discriminator, the agent key, the flag bytes and whatever follows. */
  datatype Filler = Filler(head: Bytes, agent: Bytes, executed: Byte, active: Byte, rest: Bytes)

  predicate Fills(f: Filler, c: VaultConfig) {
    |f.head| == 8 && |f.agent| == 32 && (f.executed != 0 <==> c.executed) && (f.active != 0 <==> c.active)
  }

  /** head, owner, agent, interval, grace, count. */
  function HeaderBytes(c: VaultConfig, f: Filler): (r: Bytes)
    requires Storable(c) && Fills(f, c)
    ensures |r| == 92
  {
    f.head + c.owner + f.agent + I64(c.interval) + I64(c.grace) + LittleEndian(|c.beneficiaries|, 4)
  }

  /** The header, the beneficiaries, the two flags, the rest. */
  function VaultBytes(c: VaultConfig, f: Filler): Bytes
    requires Storable(c) && Fills(f, c)
  {
    HeaderBytes(c, f) + ListBytes(c.beneficiaries) + [f.executed, f.active] + f.rest
  }

  // ---- the parser ----

  datatype Fault = TooShort | CountOutOfRange | TooShortForBeneficiaries
  datatype Parsed<T> = Good(value: T) | Bad(fault: Fault)

  /** The fault that a buffer's length and count call for, if any. */
  function FaultOf(data: Bytes): Option<Fault> {
    if |data| < 92 then Some(TooShort)
    else
      var count := ReadU32(data, 88);
      if count > MAX_BENEFICIARIES then Some(CountOutOfRange)
      else if |data| < 92 + 34 * count + 2 then Some(TooShortForBeneficiaries)
      else None
  }

  /** `data` is a layout of c. */
  ghost predicate IsLayout(data: Bytes, c: VaultConfig) {
    Storable(c) && exists f: Filler :: Fills(f, c) && data == VaultBytes(c, f)
  }

  /**
   * Every index below is inside the buffer. Exactly the short buffers and the counts above 20 are refused,
   * and an accepted buffer is a layout of the value returned.
   */
  method ParseVaultConfig(data: Bytes) returns (r: Parsed<VaultConfig>)
    ensures r.Bad? <==> FaultOf(data).Some?
    ensures r.Bad? ==> FaultOf(data) == Some(r.fault)
    ensures r.Good? ==> IsLayout(data, r.value)
  {
    hide ListBytes, BeneficiaryBytes, IsLayout, Number;
    var o := 8;
    if |data| < o + 32 + 32 + 8 + 8 + 4 { return Bad(TooShort); }
    var owner := data[o..o + 32];
    o := o + 32;
    o := o + 32;
    var interval := ReadI64(data, o);
    o := o + 8;
    var grace := ReadI64(data, o);
    o := o + 8;
    var count := ReadU32(data, o);
    o := o + 4;
    if count > MAX_BENEFICIARIES { return Bad(CountOutOfRange); }
    if |data| < o + count * 34 + 2 { return Bad(TooShortForBeneficiaries); }
    var beneficiaries: seq<Beneficiary> := [];
    ListEmpty();
    var i := 0;
    while i < count
      invariant 0 <= i <= count && |beneficiaries| == i && o == 92 + 34 * i
      invariant forall j :: 0 <= j < i ==> IsBeneficiary(beneficiaries[j])
      invariant ListBytes(beneficiaries) == data[92..o]
    {
      var b := Beneficiary(data[o..o + 32], ReadU16(data, o + 32));
      BeneficiaryExact(data, o, b);
      ListExtends(data, beneficiaries, o, b);
      beneficiaries := beneficiaries + [b];
      o := o + 34;
      i := i + 1;
    }
    var executed := data[o] != 0;
    var active := data[o + 1] != 0;
    var c := VaultConfig(owner, interval, grace, executed, active, beneficiaries);
    ParsedIsLayout(data, c, o);
    r := Good(c);
  }

  lemma BeneficiaryExact(data: Bytes, o: nat, b: Beneficiary)
    requires o + 34 <= |data| && b == Beneficiary(data[o..o + 32], ReadU16(data, o + 32))
    ensures IsBeneficiary(b) && BeneficiaryBytes(b) == data[o..o + 34]
  {
    LimitValues();
    LittleEndianInverts(data[o + 32..o + 34]);
    assert data[o..o + 34] == data[o..o + 32] + data[o + 32..o + 34];
  }

  lemma ListEmpty()
    ensures ListBytes([]) == []
  {
  }

  lemma ListExtends(data: Bytes, bs: seq<Beneficiary>, o: nat, b: Beneficiary)
    requires 92 <= o && o + 34 <= |data| && IsBeneficiary(b) && BeneficiaryBytes(b) == data[o..o + 34]
    requires forall j :: 0 <= j < |bs| ==> IsBeneficiary(bs[j])
    requires ListBytes(bs) == data[92..o]
    ensures ListBytes(bs + [b]) == data[92..o + 34]
  {
    hide BeneficiaryBytes, ListBytes, IsBeneficiary;
    ListAppend(bs, b);
    SliceJoin(data, 92, o, o + 34);
  }

  lemma ListAppend(bs: seq<Beneficiary>, b: Beneficiary)
    requires IsBeneficiary(b) && forall j :: 0 <= j < |bs| ==> IsBeneficiary(bs[j])
    ensures ListBytes(bs + [b]) == ListBytes(bs) + BeneficiaryBytes(b)
  {
    hide BeneficiaryBytes, IsBeneficiary;
    assert (bs + [b])[..|bs|] == bs;
  }

  lemma SliceJoin(data: Bytes, a: nat, b: nat, c: nat)
    requires a <= b <= c <= |data|
    ensures data[a..c] == data[a..b] + data[b..c]
  {
  }

  lemma ParsedIsLayout(data: Bytes, c: VaultConfig, o: nat)
    requires 92 <= o && o + 2 <= |data| && |c.beneficiaries| == ReadU32(data, 88) <= MAX_BENEFICIARIES
    requires forall j :: 0 <= j < |c.beneficiaries| ==> IsBeneficiary(c.beneficiaries[j])
    requires c.owner == data[8..40] && c.interval == ReadI64(data, 72) && c.grace == ReadI64(data, 80)
    requires ListBytes(c.beneficiaries) == data[92..o]
    requires c.executed == (data[o] != 0) && c.active == (data[o + 1] != 0)
    ensures IsLayout(data, c)
  {
    hide HeaderBytes, VaultBytes, ListBytes, I64, ReadI64, ReadU32, Number, LittleEndian;
    var f := Filler(data[..8], data[40..72], data[o], data[o + 1], data[o + 2..]);
    ReadI64Exact(data, 72, 0);
    ReadI64Exact(data, 80, 0);
    HeaderExact(data, c, f);
    Reassembled(data, c, f, o);
  }

  lemma HeaderExact(data: Bytes, c: VaultConfig, f: Filler)
    requires 92 <= |data| && Storable(c) && Fills(f, c) && |c.beneficiaries| == ReadU32(data, 88)
    requires c.owner == data[8..40] && c.interval == ReadI64(data, 72) && c.grace == ReadI64(data, 80)
    requires f.head == data[..8] && f.agent == data[40..72]
    ensures HeaderBytes(c, f) == data[..92]
  {
    ReadI64Exact(data, 72, 0);
    ReadI64Exact(data, 80, 0);
    LittleEndianInverts(data[88..92]);
    hide LittleEndian, I64, Storable, Fills, ReadI64, ReadU32;
    assert data[..40] == data[..8] + data[8..40];
    assert data[..72] == data[..40] + data[40..72];
    assert data[..80] == data[..72] + data[72..80];
    assert data[..88] == data[..80] + data[80..88];
    assert data[..92] == data[..88] + data[88..92];
  }

  lemma Reassembled(data: Bytes, c: VaultConfig, f: Filler, o: nat)
    requires 92 <= o && o + 2 <= |data| && Storable(c) && Fills(f, c)
    requires HeaderBytes(c, f) == data[..92] && ListBytes(c.beneficiaries) == data[92..o]
    requires f.executed == data[o] && f.active == data[o + 1] && f.rest == data[o + 2..]
    ensures data == VaultBytes(c, f)
  {
    hide HeaderBytes, ListBytes, Storable, Fills;
    assert data[..o] == data[..92] + data[92..o];
    assert data[..o + 2] == data[..o] + [f.executed, f.active];
    assert data == data[..o + 2] + data[o + 2..];
  }

  /** A buffer is accepted exactly if its four count bytes name at most twenty beneficiaries and it is long enough for them and the flags. */
  lemma AcceptedExactlyWhenComplete(data: Bytes)
    ensures FaultOf(data).None? <==>
            && |data| >= 94
            && data[89] == 0 && data[90] == 0 && data[91] == 0 && data[88] <= 20
            && |data| >= 94 + 34 * At(data, 88)
  {
    hide Number;
    ReadsByByte(data, 88);
  }

  // ---- a buffer is the layout of at most one value ----

  lemma {:induction false} ListBytesInjective(a: seq<Beneficiary>, b: seq<Beneficiary>)
    requires forall i :: 0 <= i < |a| ==> IsBeneficiary(a[i])
    requires forall i :: 0 <= i < |b| ==> IsBeneficiary(b[i])
    requires |a| == |b| && ListBytes(a) == ListBytes(b)
    ensures a == b
  {
    if a != [] {
      var n := |a| - 1;
      var x, y := a[n], b[n];
      assert ListBytes(a)[..34 * n] == ListBytes(a[..n]) && ListBytes(a)[34 * n..] == BeneficiaryBytes(x);
      assert ListBytes(b)[..34 * n] == ListBytes(b[..n]) && ListBytes(b)[34 * n..] == BeneficiaryBytes(y);
      ListBytesInjective(a[..n], b[..n]);
      assert BeneficiaryBytes(x)[..32] == x.wallet && BeneficiaryBytes(y)[..32] == y.wallet;
      assert BeneficiaryBytes(x)[32..] == LittleEndian(x.shareBps, 2);
      assert BeneficiaryBytes(y)[32..] == LittleEndian(y.shareBps, 2);
      LimitValues();
      NumberInverts(x.shareBps, 2);
      NumberInverts(y.shareBps, 2);
      assert a == a[..n] + [x] && b == b[..n] + [y];
    }
  }

  lemma HeaderParts(c: VaultConfig, f: Filler)
    requires Storable(c) && Fills(f, c)
    ensures var h := HeaderBytes(c, f);
            && h[8..40] == c.owner && h[72..80] == I64(c.interval) && h[80..88] == I64(c.grace)
            && h[88..92] == LittleEndian(|c.beneficiaries|, 4)
  {
    hide LittleEndian, I64;
  }

  lemma ThreeParts(a: Bytes, b: Bytes, c: Bytes)
    ensures var data := a + b + c;
            data[..|a|] == a && data[|a|..|a| + |b|] == b && data[|a| + |b|..] == c
  {
  }

  lemma SliceOfPrefix(data: Bytes, h: Bytes, a: nat, b: nat)
    requires a <= b <= |h| <= |data| && data[..|h|] == h
    ensures data[a..b] == h[a..b]
  {
    assert forall i :: a <= i < b ==> data[i] == data[..|h|][i];
  }

  /** What stands where in a layout. */
  lemma LayoutParts(c: VaultConfig, f: Filler)
    requires Storable(c) && Fills(f, c)
    ensures var data := VaultBytes(c, f); var o := 92 + 34 * |c.beneficiaries|;
            && |data| == o + 2 + |f.rest|
            && data[8..40] == c.owner && data[72..80] == I64(c.interval) && data[80..88] == I64(c.grace)
            && data[88..92] == LittleEndian(|c.beneficiaries|, 4) && data[92..o] == ListBytes(c.beneficiaries)
            && data[o] == f.executed && data[o + 1] == f.active
  {
    HeaderParts(c, f);
    hide HeaderBytes, ListBytes, LittleEndian, I64, Storable, Fills;
    var data, h, list := VaultBytes(c, f), HeaderBytes(c, f), ListBytes(c.beneficiaries);
    var tail := [f.executed, f.active] + f.rest;
    assert data == h + list + tail;
    ThreeParts(h, list, tail);
    SliceOfPrefix(data, h, 8, 40);
    SliceOfPrefix(data, h, 72, 80);
    SliceOfPrefix(data, h, 80, 88);
    SliceOfPrefix(data, h, 88, 92);
    assert tail[0] == f.executed && tail[1] == f.active;
    assert data[92 + |list|..][0] == tail[0] && data[92 + |list|..][1] == tail[1];
  }

  /** Any value within the limits, laid out with any filler, is accepted; two values never share a layout. */
  lemma LayoutDeterminesValue(c: VaultConfig, f: Filler, d: VaultConfig)
    requires Storable(c) && Fills(f, c)
    ensures FaultOf(VaultBytes(c, f)).None?
    ensures IsLayout(VaultBytes(c, f), d) ==> d == c
  {
    hide HeaderBytes, ListBytes, I64, ReadI64, LittleEndian;
    var data := VaultBytes(c, f);
    LayoutParts(c, f);
    LimitValues();
    NumberInverts(|c.beneficiaries|, 4);
    if IsLayout(data, d) {
      var g: Filler :| Fills(g, d) && data == VaultBytes(d, g);
      LayoutParts(d, g);
      NumberInverts(|d.beneficiaries|, 4);
      ReadI64Exact(data, 72, c.interval);
      ReadI64Exact(data, 72, d.interval);
      ReadI64Exact(data, 80, c.grace);
      ReadI64Exact(data, 80, d.grace);
      ListBytesInjective(c.beneficiaries, d.beneficiaries);
    }
  }

  /** Main result for the parser: writing a value out in any layout and parsing it gives the value back. */
  method ParseWritten(c: VaultConfig, f: Filler) returns (r: Parsed<VaultConfig>)
    requires Storable(c) && Fills(f, c)
    ensures r == Good(c)
  {
    r := ParseVaultConfig(VaultBytes(c, f));
    LayoutDeterminesValue(c, f, if r.Good? then r.value else c);
  }

  // ---- the heartbeat record ----

  datatype Heartbeat = Heartbeat(vault: Bytes, lastHeartbeat: int)

  /** head, vault, last heartbeat, rest. */
  function HeartbeatBytes(head: Bytes, h: Heartbeat, rest: Bytes): Bytes
    requires IsI64(h.lastHeartbeat)
  {
    head + h.vault + I64(h.lastHeartbeat) + rest
  }

  /** Exactly the buffers under 48 bytes are refused; the value is the one whose layout the buffer is. */
  method ParseHeartbeat(data: Bytes) returns (r: Parsed<Heartbeat>)
    ensures r.Bad? <==> |data| < 48
    ensures r.Good? ==> |r.value.vault| == 32 && IsI64(r.value.lastHeartbeat)
                        && data == HeartbeatBytes(data[..8], r.value, data[48..])
  {
    var o := 8;
    if |data| < o + 32 + 8 { return Bad(TooShort); }
    var vault := data[o..o + 32];
    o := o + 32;
    var last := ReadI64(data, o);
    ReadI64Exact(data, o, 0);
    assert data == data[..8] + data[8..40] + data[40..48] + data[48..];
    r := Good(Heartbeat(vault, last));
  }

  lemma HeartbeatReadsBack(head: Bytes, h: Heartbeat, rest: Bytes, other: Heartbeat)
    requires |head| == 8 && |h.vault| == 32 && IsI64(h.lastHeartbeat)
    requires |other.vault| == 32 && IsI64(other.lastHeartbeat)
    requires var data := HeartbeatBytes(head, h, rest); data == HeartbeatBytes(data[..8], other, data[48..])
    ensures other == h
  {
    var data := HeartbeatBytes(head, h, rest);
    assert data[8..40] == h.vault && data[40..48] == I64(h.lastHeartbeat);
    assert data[8..40] == other.vault && data[40..48] == I64(other.lastHeartbeat);
    ReadI64Exact(data, 40, h.lastHeartbeat);
    ReadI64Exact(data, 40, other.lastHeartbeat);
  }

  // ---- fetched accounts ----

  datatype Account = Account(owner: Bytes, data: Bytes)

  /** The program id and the two 8-byte discriminators. */
  datatype Program = Program(id: Bytes, vaultHead: Bytes, heartbeatHead: Bytes)

  predicate HasHead(head: Bytes, data: Bytes) {
    |data| >= 8 && data[..8] == head
  }

  /** An account that the program owns and that records t for this vault. */
  ghost predicate Records(p: Program, a: Option<Account>, vault: Bytes, t: int) {
    && a.Some? && a.value.owner == p.id && IsI64(t)
    && exists rest: Bytes :: a.value.data == HeartbeatBytes(p.heartbeatHead, Heartbeat(vault, t), rest)
  }

  /** A timestamp comes back exactly when the account is the program's record for the vault, and it is the recorded one. */
  method ReadHeartbeatFromAccount(p: Program, account: Option<Account>, vault: Bytes) returns (r: Option<int>)
    requires |p.heartbeatHead| == 8 && |vault| == 32
    ensures forall t :: r == Some(t) <==> Records(p, account, vault, t)
  {
    if account.None? || account.value.owner != p.id { return None; }
    var data := account.value.data;
    if !HasHead(p.heartbeatHead, data) { return None; }
    var hb := ParseHeartbeat(data);
    forall t | Records(p, account, vault, t) ensures hb == Good(Heartbeat(vault, t)) {
      var rest: Bytes :| data == HeartbeatBytes(p.heartbeatHead, Heartbeat(vault, t), rest);
      HeartbeatReadsBack(p.heartbeatHead, Heartbeat(vault, t), rest, hb.value);
    }
    if hb.Bad? || hb.value.vault != vault { return None; }
    r := Some(hb.value.lastHeartbeat);
  }

  /** A vault account that can be trusted: the program's, with its discriminator and a layout. */
  ghost predicate HoldsVault(p: Program, a: Option<Account>, c: VaultConfig) {
    a.Some? && a.value.owner == p.id && HasHead(p.vaultHead, a.value.data) && IsLayout(a.value.data, c)
  }

  /**
   * What the watcher sees after the fetch: a vault exactly when the account holds one, with that vault's flags
   * and interval, and a heartbeat exactly when the second account records one for it.
   */
  method ReadVaultState(p: Program, vault: Bytes, vaultAccount: Option<Account>, heartbeatAccount: Option<Account>)
      returns (r: VaultRead)
    requires |p.vaultHead| == 8 && |p.heartbeatHead| == 8 && |vault| == 32
    ensures r == Absent || r.Present?
    ensures forall c :: HoldsVault(p, vaultAccount, c) ==>
              r.Present? && r.active == c.active && r.executed == c.executed && r.interval == c.interval
    ensures r.Present? ==> exists c :: HoldsVault(p, vaultAccount, c)
    ensures r.Present? ==> forall t :: r.heartbeat == Some(t) <==> Records(p, heartbeatAccount, vault, t)
  {
    var heartbeat := ReadHeartbeatFromAccount(p, heartbeatAccount, vault);
    r := Absent;
    if vaultAccount.Some? && vaultAccount.value.owner == p.id && HasHead(p.vaultHead, vaultAccount.value.data) {
      var data := vaultAccount.value.data;
      var cfg := ParseVaultConfig(data);
      forall c | IsLayout(data, c) ensures cfg == Good(c) {
        var f: Filler :| Fills(f, c) && data == VaultBytes(c, f);
        LayoutDeterminesValue(c, f, if cfg.Good? then cfg.value else c);
      }
      if cfg.Good? {
        r := Present(cfg.value.active, cfg.value.executed, cfg.value.interval, heartbeat);
        assert HoldsVault(p, vaultAccount, cfg.value);
      }
    }
  }
}
