/** The binary pool snapshot of extension/src/pool-stats.js: its decoder against a writer of the same
    layout, and the hexadecimal text around it. */
module PoolStats {
  import opened Basics

  type Byte = b: int | 0 <= b < 256

  datatype Error =
    | InvalidHex
    | Truncated
    | UnsupportedVersion
    | ProfileMismatch
    | InvalidLastBlock
    | InvalidSignature
    | TrailingBytes
    | InvalidFields
    | InvalidLifetime
    | TooLarge

  datatype Result<+T> = Ok(value: T) | Err(error: Error) {
    predicate IsFailure() { Err? }
    function PropagateFailure<U>(): Result<U>
      requires Err?
    { Err(error) }
    function Extract(): T
      requires Ok?
    { value }
  }

  const PROFILE_ID := 0xff00

  // ---- hexadecimal text ----

  function HexDigit(n: int): char
    requires 0 <= n < 16
  {
    if n < 10 then '0' + n as char else 'a' + (n - 10) as char
  }

  predicate IsHexDigit(c: char) {
    '0' <= c <= '9' || 'a' <= c <= 'f'
  }

  function DigitValue(c: char): (n: int)
    requires IsHexDigit(c)
    ensures 0 <= n < 16 && HexDigit(n) == c
  {
    if c <= '9' then c as int - '0' as int else c as int - 'a' as int + 10
  }

  predicate IsHexText(text: string) {
    |text| % 2 == 0 && forall i :: 0 <= i < |text| ==> IsHexDigit(text[i])
  }

  function HexOf(bytes: seq<Byte>): (text: string)
    ensures |text| == 2 * |bytes| && IsHexText(text)
  {
    if bytes == [] then ""
    else HexOf(bytes[..|bytes| - 1]) + [HexDigit(bytes[|bytes| - 1] / 16), HexDigit(bytes[|bytes| - 1] % 16)]
  }

  function BytesOf(text: string): (bytes: seq<Byte>)
    requires IsHexText(text)
    ensures |text| == 2 * |bytes|
  {
    if text == "" then []
    else
      var n := |text| - 2;
      BytesOf(text[..n]) + [DigitValue(text[n]) * 16 + DigitValue(text[n + 1])]
  }

  lemma HexOfMore(bytes: seq<Byte>, b: Byte)
    ensures HexOf(bytes + [b]) == HexOf(bytes) + [HexDigit(b / 16), HexDigit(b % 16)]
  {
    hide HexDigit, DigitValue;
    assert (bytes + [b])[..|bytes|] == bytes;
  }

  lemma BytesOfMore(text: string, c: char, d: char)
    requires IsHexText(text) && IsHexDigit(c) && IsHexDigit(d)
    ensures IsHexText(text + [c, d]) && BytesOf(text + [c, d]) == BytesOf(text) + [DigitValue(c) * 16 + DigitValue(d)]
  {
    hide HexDigit, IsHexDigit;
    assert (text + [c, d])[..|text|] == text;
  }

  lemma {:induction false} HexOfBytes(text: string)
    requires IsHexText(text)
    ensures HexOf(BytesOf(text)) == text
  {
    hide HexDigit, DigitValue, BytesOf, HexOf;
    if text == "" {
      assert BytesOf(text) == [];
      assert HexOf([]) == "";
    } else {
      var n := |text| - 2;
      var c, d := text[n], text[n + 1];
      HexOfBytes(text[..n]);
      ByteOfDigits(c, d);
      BytesOfMore(text[..n], c, d);
      HexOfMore(BytesOf(text[..n]), DigitValue(c) * 16 + DigitValue(d));
      assert text == text[..n] + [c, d];
    }
  }

  lemma {:induction false} BytesOfHex(bytes: seq<Byte>)
    ensures BytesOf(HexOf(bytes)) == bytes
  {
    hide HexDigit, DigitValue, BytesOf, HexOf;
    if bytes == [] {
      assert HexOf(bytes) == "";
      assert BytesOf("") == [];
    } else {
      var n := |bytes| - 1;
      BytesOfHex(bytes[..n]);
      DigitsOfByte(bytes[n]);
      HexOfMore(bytes[..n], bytes[n]);
      HexDigitIsHex(bytes[n]);
      BytesOfMore(HexOf(bytes[..n]), HexDigit(bytes[n] / 16), HexDigit(bytes[n] % 16));
      assert bytes == bytes[..n] + [bytes[n]];
    }
  }

  lemma HexDigitIsHex(b: Byte)
    ensures IsHexDigit(HexDigit(b / 16)) && IsHexDigit(HexDigit(b % 16))
  {
  }

  lemma ByteOfDigits(c: char, d: char)
    requires IsHexDigit(c) && IsHexDigit(d)
    ensures var b := DigitValue(c) * 16 + DigitValue(d); HexDigit(b / 16) == c && HexDigit(b % 16) == d
  {
  }

  lemma DigitsOfByte(b: Byte)
    ensures DigitValue(HexDigit(b / 16)) == b / 16 && DigitValue(HexDigit(b % 16)) == b % 16
  {
  }

  /** boundedHex: the bytes of a non-empty text of pairs of digits, up to a length. */
  method BoundedHex(value: string, maximumLength: nat) returns (r: Result<seq<Byte>>)
    ensures r.Ok? <==> value != "" && |value| <= maximumLength && IsHexText(value)
    ensures r.Ok? ==> HexOf(r.value) == value
  {
    if value == "" || |value| > maximumLength || |value| % 2 != 0 ||
      !(forall i :: 0 <= i < |value| ==> IsHexDigit(value[i])) {
      return Err(InvalidHex);
    }
    var bytes: seq<Byte> := [];
    for i := 0 to |value| / 2
      invariant |bytes| == i && bytes == BytesOf(value[..2 * i])
    {
      assert value[..2 * (i + 1)][..2 * i] == value[..2 * i];
      bytes := bytes + [DigitValue(value[2 * i]) * 16 + DigitValue(value[2 * i + 1])];
    }
    assert value[..2 * (|value| / 2)] == value;
    HexOfBytes(value);
    return Ok(bytes);
  }

  /** What a hexadecimal digit stands for. */
  ghost function Sixteenths(c: char): int {
    if '0' <= c <= '9' then c as int - 48 else if 'a' <= c <= 'f' then c as int - 87 else -1
  }

  /** The text has the two digits of every byte at its place, the higher one first. */
  lemma {:induction false} HexTextAt(bytes: seq<Byte>, i: nat)
    requires i < |bytes|
    ensures Sixteenths(HexOf(bytes)[2 * i]) == bytes[i] / 16 && Sixteenths(HexOf(bytes)[2 * i + 1]) == bytes[i] % 16
  {
    var n := |bytes| - 1;
    assert bytes == bytes[..n] + [bytes[n]];
    HexOfMore(bytes[..n], bytes[n]);
    if i < n {
      HexTextAt(bytes[..n], i);
    }
  }

  // ---- little-endian numbers ----

  function LittleEndian(n: nat, width: nat): (bytes: seq<Byte>)
    ensures |bytes| == width
  {
    if width == 0 then [] else [n % 256] + LittleEndian(n / 256, width - 1)
  }

  function Number(bytes: seq<Byte>): nat {
    if bytes == [] then 0 else bytes[0] + 256 * Number(bytes[1..])
  }

  function Power(width: nat): (p: nat)
    ensures p >= 1
  {
    if width == 0 then 1 else 256 * Power(width - 1)
  }

  lemma {:induction false} NumberOfBytes(bytes: seq<Byte>)
    ensures Number(bytes) < Power(|bytes|)
    ensures LittleEndian(Number(bytes), |bytes|) == bytes
  {
    if bytes != [] {
      NumberOfBytes(bytes[1..]);
      LowestByte(bytes[0], Number(bytes[1..]));
      assert bytes == [bytes[0]] + bytes[1..];
    }
  }

  lemma LowestByte(low: Byte, rest: nat)
    ensures (low + 256 * rest) % 256 == low && (low + 256 * rest) / 256 == rest
  {
  }

  lemma {:induction false} BytesOfNumber(n: nat, width: nat)
    requires n < Power(width)
    ensures Number(LittleEndian(n, width)) == n
  {
    if width != 0 {
      BytesOfNumber(n / 256, width - 1);
      assert LittleEndian(n, width)[1..] == LittleEndian(n / 256, width - 1);
    }
  }

  /** The lowest byte comes first, in numbers of two, four and eight bytes. */
  lemma NumberIsLittleEndian(b: seq<Byte>)
    ensures |b| == 2 ==> Number(b) == b[0] as int + 0x100 * (b[1] as int)
    ensures |b| == 4 ==>
              Number(b) == b[0] as int + 0x100 * (b[1] as int) + 0x1_0000 * (b[2] as int) + 0x100_0000 * (b[3] as int)
    ensures |b| == 8 ==>
              Number(b) == b[0] as int + 0x100 * (b[1] as int) + 0x1_0000 * (b[2] as int) + 0x100_0000 * (b[3] as int) +
                           0x1_0000_0000 * (b[4] as int) + 0x100_0000_0000 * (b[5] as int) +
                           0x1_0000_0000_0000 * (b[6] as int) + 0x100_0000_0000_0000 * (b[7] as int)
  {
    if |b| == 2 {
      assert Number(b[1..]) == b[1];
    } else if |b| == 4 {
      NumberOfFour(b[0], b[1..]);
    } else if |b| == 8 {
      NumberOfFour(b[4], b[4..][1..]);
      assert b[4..] == [b[4]] + b[4..][1..];
      NumberFrom(b, 3);
      NumberFrom(b, 2);
      NumberFrom(b, 1);
      NumberFrom(b, 0);
    }
  }

  lemma NumberFrom(b: seq<Byte>, i: nat)
    requires i < |b|
    ensures Number(b[i..]) == b[i] + 256 * Number(b[i + 1..])
  {
    assert b[i..][1..] == b[i + 1..];
  }

  lemma NumberOfFour(first: Byte, b: seq<Byte>)
    requires |b| == 3
    ensures Number([first] + b) ==
            first as int + 0x100 * (b[0] as int) + 0x1_0000 * (b[1] as int) + 0x100_0000 * (b[2] as int)
  {
    var c := [first] + b;
    NumberFrom(c, 3);
    NumberFrom(c, 2);
    NumberFrom(c, 1);
    NumberFrom(c, 0);
  }

  // ---- the layout ----

  datatype LastBlock = LastBlock(height: nat, hash: string)

  datatype Service = Service(networkMagic: nat, resourceId: string, delegationId: string, generation: nat)

  datatype Route = Route(endpointDelegationId: string, endpointSequence: nat, routeId: string, sequence: nat)

  datatype Chain = Chain(generatedAt: nat, expiresAt: nat, operatorId: string, tipHeight: nat, tipHash: string)

  datatype Counters = Counters(connectedMiners: nat, connectedMeshPeers: nat, acceptedShares: nat, rejectedShares: nat,
      pendingCaptures: nat)

  /** The fields in their order, in four groups; the last block and the signature are kept beside what the
      decoder returns of them. */
  datatype Snapshot = Snapshot(
    service: Service, route: Route, chain: Chain, counters: Counters, lastBlock: Option<LastBlock>, mode: nat,
    productionEligible: bool, signature: string)

  predicate Fits(n: nat, width: nat) {
    n < Power(width)
  }

  predicate IsId(text: string) {
    |text| == 64 && IsHexText(text)
  }

  predicate AllZero(text: string) {
    forall i :: 0 <= i < |text| ==> text[i] == '0'
  }

  predicate RepresentableService(x: Service) {
    Fits(x.networkMagic, 4) && IsId(x.resourceId) && IsId(x.delegationId) && Fits(x.generation, 8)
  }

  predicate RepresentableRoute(x: Route) {
    IsId(x.endpointDelegationId) && Fits(x.endpointSequence, 8) && IsId(x.routeId) && Fits(x.sequence, 8)
  }

  predicate RepresentableChain(x: Chain) {
    Fits(x.generatedAt, 8) && Fits(x.expiresAt, 8) && IsId(x.operatorId) && Fits(x.tipHeight, 4) && IsId(x.tipHash)
  }

  predicate RepresentableCounters(x: Counters) {
    Fits(x.connectedMiners, 4) && Fits(x.connectedMeshPeers, 4) && Fits(x.acceptedShares, 8) &&
    Fits(x.rejectedShares, 8) && Fits(x.pendingCaptures, 4)
  }

  predicate RepresentableBlock(b: Option<LastBlock>) {
    b.Some? ==> Fits(b.value.height, 4) && IsId(b.value.hash)
  }

  datatype End = End(mode: nat, productionEligible: nat, signature: string)

  predicate RepresentableEnd(e: End) {
    e.mode < 256 && e.productionEligible < 256 && IsHexText(e.signature) && 2 <= |e.signature| <= 160
  }

  function EndOf(s: Snapshot): End {
    End(s.mode, if s.productionEligible then 1 else 0, s.signature)
  }

  function EndPieces(e: End): seq<seq<Byte>>
    requires RepresentableEnd(e)
  {
    [LittleEndian(e.mode, 1), LittleEndian(e.productionEligible, 1), LittleEndian(|e.signature| / 2, 1),
        BytesOf(e.signature)]
  }

  /** What any writer of the layout can put in its fields. */
  predicate Representable(s: Snapshot) {
    RepresentableHead(HeadOf(s)) && RepresentableBlock(s.lastBlock) && RepresentableEnd(EndOf(s))
  }

  /** What the decoder demands beyond that. */
  predicate Acceptable(s: Snapshot) {
    s.mode < 6 && s.service.generation != 0 && !AllZero(s.route.routeId) && !AllZero(s.chain.operatorId) &&
    s.route.endpointSequence != 0 && s.route.sequence != 0 &&
    s.chain.generatedAt < s.chain.expiresAt <= s.chain.generatedAt + 120
  }

  predicate WellFormed(s: Snapshot) {
    Representable(s) && Acceptable(s)
  }

  function ServicePieces(x: Service): seq<seq<Byte>>
    requires RepresentableService(x)
  {
    [LittleEndian(2, 1), LittleEndian(x.networkMagic, 4), LittleEndian(PROFILE_ID, 2), BytesOf(x.resourceId),
     BytesOf(x.delegationId), LittleEndian(x.generation, 8)]
  }

  function RoutePieces(x: Route): seq<seq<Byte>>
    requires RepresentableRoute(x)
  {
    [BytesOf(x.endpointDelegationId), LittleEndian(x.endpointSequence, 8), BytesOf(x.routeId),
        LittleEndian(x.sequence, 8)]
  }

  function ChainPieces(x: Chain): seq<seq<Byte>>
    requires RepresentableChain(x)
  {
    [LittleEndian(x.generatedAt, 8), LittleEndian(x.expiresAt, 8), BytesOf(x.operatorId), LittleEndian(x.tipHeight, 4),
     BytesOf(x.tipHash)]
  }

  function CountersPieces(x: Counters): seq<seq<Byte>>
    requires RepresentableCounters(x)
  {
    [LittleEndian(x.connectedMiners, 4), LittleEndian(x.connectedMeshPeers, 4), LittleEndian(x.acceptedShares, 8),
     LittleEndian(x.rejectedShares, 8), LittleEndian(x.pendingCaptures, 4)]
  }

  function LastBlockPieces(b: Option<LastBlock>): seq<seq<Byte>>
    requires b.Some? ==> IsId(b.value.hash)
  {
    if b.None? then [LittleEndian(0, 1)]
    else [LittleEndian(1, 1), LittleEndian(b.value.height, 4), BytesOf(b.value.hash)]
  }

  datatype Head = Head(service: Service, route: Route, chain: Chain, counters: Counters)

  predicate RepresentableHead(h: Head) {
    RepresentableService(h.service) && RepresentableRoute(h.route) && RepresentableChain(h.chain) &&
    RepresentableCounters(h.counters)
  }

  function HeadOf(s: Snapshot): Head {
    Head(s.service, s.route, s.chain, s.counters)
  }

  function HeadPieces(h: Head): seq<seq<Byte>>
    requires RepresentableHead(h)
  {
    ServicePieces(h.service) + RoutePieces(h.route) + ChainPieces(h.chain) + CountersPieces(h.counters)
  }

  function Pieces(s: Snapshot): seq<seq<Byte>>
    requires Representable(s)
  {
    HeadPieces(HeadOf(s)) + LastBlockPieces(s.lastBlock) + EndPieces(EndOf(s))
  }

  function Concat(ps: seq<seq<Byte>>): seq<Byte> {
    if ps == [] then [] else Concat(ps[..|ps| - 1]) + ps[|ps| - 1]
  }

  /** The bytes that a writer of the layout makes of a snapshot. */
  function Encode(s: Snapshot): seq<Byte>
    requires Representable(s)
  {
    Concat(Pieces(s))
  }

  lemma {:induction false} ConcatPrefix(ps: seq<seq<Byte>>, k: nat)
    requires k <= |ps|
    ensures Concat(ps[..k]) <= Concat(ps)
    ensures k < |ps| ==> Concat(ps[..k]) + ps[k] <= Concat(ps)
    decreases |ps| - k
  {
    if k == |ps| {
      assert ps[..k] == ps;
    } else {
      ConcatPrefix(ps, k + 1);
      assert ps[..k + 1][..k] == ps[..k];
    }
  }

  // ---- reading ----

  /** The decoder's view and its moving offset.  `expected` are the pieces that the bytes may turn out to be
      made of; while they are, every read succeeds and gives the next of them. */
  class Reader {
    const bytes: seq<Byte>
    ghost const expected: seq<seq<Byte>>
    var offset: nat
    ghost var taken: seq<seq<Byte>>

    ghost predicate Valid()
      reads this
    {
      offset <= |bytes| && Concat(taken) == bytes[..offset]
    }

    ghost predicate Following()
      reads this
    {
      Concat(expected) == bytes && taken <= expected
    }

    constructor (bytes: seq<Byte>, ghost expected: seq<seq<Byte>>)
      ensures Valid() && this.bytes == bytes && this.expected == expected && offset == 0 && taken == []
    {
      this.bytes, this.expected, offset, taken := bytes, expected, 0, [];
    }

    ghost predicate Expects(piece: seq<Byte>)
      reads this
    {
      Following() && |taken| < |expected| && expected[|taken|] == piece
    }

    method Take(length: nat, ghost piece: seq<Byte>) returns (r: Result<seq<Byte>>)
      requires Valid() && |piece| == length
      modifies this
      ensures Valid() && (r.Ok? ==> |r.value| == length && taken == old(taken) + [r.value])
      ensures old(Expects(piece)) ==> r == Ok(piece) && Following()
    {
      ghost var k, follows := |taken|, Expects(piece);
      if follows {
        ConcatPrefix(expected, k);
        assert expected[..k] == taken;
        assert expected[..k + 1] == taken + [expected[k]];
      }
      if offset + length > |bytes| {
        return Err(Truncated);
      }
      var found := bytes[offset..offset + length];
      assert bytes[..offset + length] == bytes[..offset] + found;
      assert (taken + [found])[..k] == taken;
      assert follows ==> Concat(taken) + piece <= bytes && |Concat(taken)| == offset;
      assert follows ==> found == piece;
      taken := taken + [found];
      offset := offset + length;
      return Ok(found);
    }

    method Numeral(width: nat, ghost n: nat) returns (r: Result<nat>)
      requires Valid()
      modifies this
      ensures Valid() && (r.Ok? ==> Fits(r.value, width) && taken == old(taken) + [LittleEndian(r.value, width)])
      ensures Fits(n, width) && old(Expects(LittleEndian(n, width))) ==> r == Ok(n) && Following()
    {
      var piece :- Take(width, LittleEndian(n, width));
      NumberOfBytes(piece);
      if Fits(n, width) { BytesOfNumber(n, width); }
      return Ok(Number(piece));
    }

    method Hex(length: nat, ghost text: string) returns (r: Result<string>)
      requires Valid() && IsHexText(text)
      modifies this
      ensures Valid() && (r.Ok? ==>
                IsHexText(r.value) && |r.value| == 2 * length && taken == old(taken) + [BytesOf(r.value)])
      ensures |text| == 2 * length && old(Expects(BytesOf(text))) ==> r == Ok(text) && Following()
    {
      var piece :- Take(length, if |text| == 2 * length then BytesOf(text) else LittleEndian(0, length));
      BytesOfHex(piece);
      HexOfBytes(text);
      return Ok(HexOf(piece));
    }
  }

  // ---- the decoder ----

  /** A group of pieces is the next that is expected. */
  ghost predicate ExpectsAll(reader: Reader, ps: seq<seq<Byte>>)
    reads reader
  {
    reader.Following() && reader.taken + ps <= reader.expected
  }

  lemma SmallNumbersFit()
    ensures Fits(PROFILE_ID, 2) && forall n :: n < 256 ==> Fits(n, 1)
  {
  }

  method DecodeService(reader: Reader, ghost w: Service) returns (r: Result<Service>)
    requires reader.Valid() && RepresentableService(w)
    modifies reader
    ensures reader.Valid()
    ensures r.Ok? ==> RepresentableService(r.value) && reader.taken == old(reader.taken) + ServicePieces(r.value)
    ensures old(ExpectsAll(reader, ServicePieces(w))) ==> r == Ok(w) && reader.Following()
  {
    hide LittleEndian, BytesOf, Power, Number, Concat, HexOf, IsHexText;
    SmallNumbersFit();
    var version :- reader.Numeral(1, 2);
    if version != 2 { return Err(UnsupportedVersion); }
    var networkMagic :- reader.Numeral(4, w.networkMagic);
    var profile :- reader.Numeral(2, PROFILE_ID);
    if profile != PROFILE_ID { return Err(ProfileMismatch); }
    var resourceId :- reader.Hex(32, w.resourceId);
    var delegationId :- reader.Hex(32, w.delegationId);
    var generation :- reader.Numeral(8, w.generation);
    return Ok(Service(networkMagic, resourceId, delegationId, generation));
  }

  method DecodeRoute(reader: Reader, ghost w: Route) returns (r: Result<Route>)
    requires reader.Valid() && RepresentableRoute(w)
    modifies reader
    ensures reader.Valid()
    ensures r.Ok? ==> RepresentableRoute(r.value) && reader.taken == old(reader.taken) + RoutePieces(r.value)
    ensures old(ExpectsAll(reader, RoutePieces(w))) ==> r == Ok(w) && reader.Following()
  {
    hide LittleEndian, BytesOf, Power, Number, Concat, HexOf, IsHexText;
    var endpointDelegationId :- reader.Hex(32, w.endpointDelegationId);
    var endpointSequence :- reader.Numeral(8, w.endpointSequence);
    var routeId :- reader.Hex(32, w.routeId);
    var sequence :- reader.Numeral(8, w.sequence);
    return Ok(Route(endpointDelegationId, endpointSequence, routeId, sequence));
  }

  method DecodeChain(reader: Reader, ghost w: Chain) returns (r: Result<Chain>)
    requires reader.Valid() && RepresentableChain(w)
    modifies reader
    ensures reader.Valid()
    ensures r.Ok? ==> RepresentableChain(r.value) && reader.taken == old(reader.taken) + ChainPieces(r.value)
    ensures old(ExpectsAll(reader, ChainPieces(w))) ==> r == Ok(w) && reader.Following()
  {
    hide LittleEndian, BytesOf, Power, Number, Concat, HexOf, IsHexText;
    var generatedAt :- reader.Numeral(8, w.generatedAt);
    var expiresAt :- reader.Numeral(8, w.expiresAt);
    var operatorId :- reader.Hex(32, w.operatorId);
    var tipHeight :- reader.Numeral(4, w.tipHeight);
    var tipHash :- reader.Hex(32, w.tipHash);
    return Ok(Chain(generatedAt, expiresAt, operatorId, tipHeight, tipHash));
  }

  method DecodeCounters(reader: Reader, ghost w: Counters) returns (r: Result<Counters>)
    requires reader.Valid() && RepresentableCounters(w)
    modifies reader
    ensures reader.Valid()
    ensures r.Ok? ==> RepresentableCounters(r.value) && reader.taken == old(reader.taken) + CountersPieces(r.value)
    ensures old(ExpectsAll(reader, CountersPieces(w))) ==> r == Ok(w) && reader.Following()
  {
    hide LittleEndian, BytesOf, Power, Number, Concat, HexOf, IsHexText;
    var connectedMiners :- reader.Numeral(4, w.connectedMiners);
    var connectedMeshPeers :- reader.Numeral(4, w.connectedMeshPeers);
    var acceptedShares :- reader.Numeral(8, w.acceptedShares);
    var rejectedShares :- reader.Numeral(8, w.rejectedShares);
    var pendingCaptures :- reader.Numeral(4, w.pendingCaptures);
    return Ok(Counters(connectedMiners, connectedMeshPeers, acceptedShares, rejectedShares, pendingCaptures));
  }

  method DecodeLastBlock(reader: Reader, ghost w: Option<LastBlock>) returns (r: Result<Option<LastBlock>>)
    requires reader.Valid() && RepresentableBlock(w)
    modifies reader
    ensures reader.Valid()
    ensures r.Ok? ==> RepresentableBlock(r.value) && reader.taken == old(reader.taken) + LastBlockPieces(r.value)
    ensures old(ExpectsAll(reader, LastBlockPieces(w))) ==> r == Ok(w) && reader.Following()
  {
    hide LittleEndian, BytesOf, Power, Number, Concat, HexOf, IsHexText;
    SmallNumbersFit();
    ghost var zeros := seq(64, _ => '0');
    ghost var b := if w.Some? then w.value else LastBlock(0, zeros);
    ZerosAreHex();
    var found :- reader.Numeral(1, if w.Some? then 1 else 0);
    if found == 1 {
      var height :- reader.Numeral(4, b.height);
      var hash :- reader.Hex(32, b.hash);
      return Ok(Some(LastBlock(height, hash)));
    } else if found != 0 {
      return Err(InvalidLastBlock);
    }
    return Ok(None);
  }

  lemma ZerosAreHex()
    ensures IsHexText(seq(64, _ => '0'))
  {
  }

  method DecodeEnd(reader: Reader, ghost w: End) returns (r: Result<End>)
    requires reader.Valid() && RepresentableEnd(w)
    modifies reader
    ensures reader.Valid()
    ensures r.Ok? ==> RepresentableEnd(r.value) && reader.taken == old(reader.taken) + EndPieces(r.value)
    ensures old(ExpectsAll(reader, EndPieces(w))) ==> r == Ok(w) && reader.Following()
  {
    hide LittleEndian, BytesOf, Number, Concat, HexOf, IsHexText;
    SmallNumbersFit();
    var mode :- reader.Numeral(1, w.mode);
    var productionEligible :- reader.Numeral(1, w.productionEligible);
    var signatureLength :- reader.Numeral(1, |w.signature| / 2);
    if signatureLength == 0 || signatureLength > 80 { return Err(InvalidSignature); }
    var signature :- reader.Hex(signatureLength, w.signature);
    return Ok(End(mode, productionEligible, signature));
  }

  const BLANK_ID := seq(64, _ => '0')

  const BLANK := Snapshot(
    Service(0, BLANK_ID, BLANK_ID, 0), Route(BLANK_ID, 0, BLANK_ID, 0), Chain(0, 0, BLANK_ID, 0, BLANK_ID),
    Counters(0, 0, 0, 0, 0), None, 0, false, "00")

  lemma BlankIsRepresentable()
    ensures Representable(BLANK)
  {
    assert IsId(BLANK_ID);
    assert IsHexText("00");
  }

  lemma NextGroup(before: seq<seq<Byte>>, group: seq<seq<Byte>>, rest: seq<seq<Byte>>, expected: seq<seq<Byte>>)
    ensures before + (group + rest) <= expected ==> before + group <= expected && (before + group) + rest <= expected
  {
    assert before + (group + rest) == (before + group) + rest;
  }

  method DecodeIdentity(reader: Reader, ghost w: Head) returns (r: Result<(Service, Route)>)
    requires reader.Valid() && RepresentableHead(w)
    modifies reader
    ensures reader.Valid()
    ensures r.Ok? ==>
              RepresentableService(r.value.0) && RepresentableRoute(r.value.1) &&
              reader.taken == old(reader.taken) + (ServicePieces(r.value.0) + RoutePieces(r.value.1))
    ensures old(ExpectsAll(reader, ServicePieces(w.service) + RoutePieces(w.route))) ==>
              r == Ok((w.service, w.route)) && reader.Following()
  {
    hide ServicePieces, RoutePieces, ChainPieces, CountersPieces, RepresentableService, RepresentableRoute,
      RepresentableChain, RepresentableCounters, Concat, LittleEndian, BytesOf, IsHexText;
    NextGroup(reader.taken, ServicePieces(w.service), RoutePieces(w.route), reader.expected);
    var service :- DecodeService(reader, w.service);
    var route :- DecodeRoute(reader, w.route);
    return Ok((service, route));
  }

  method DecodeState(reader: Reader, ghost w: Head) returns (r: Result<(Chain, Counters)>)
    requires reader.Valid() && RepresentableHead(w)
    modifies reader
    ensures reader.Valid()
    ensures r.Ok? ==>
              RepresentableChain(r.value.0) && RepresentableCounters(r.value.1) &&
              reader.taken == old(reader.taken) + (ChainPieces(r.value.0) + CountersPieces(r.value.1))
    ensures old(ExpectsAll(reader, ChainPieces(w.chain) + CountersPieces(w.counters))) ==>
              r == Ok((w.chain, w.counters)) && reader.Following()
  {
    hide ServicePieces, RoutePieces, ChainPieces, CountersPieces, RepresentableService, RepresentableRoute,
      RepresentableChain, RepresentableCounters, Concat, LittleEndian, BytesOf, IsHexText;
    NextGroup(reader.taken, ChainPieces(w.chain), CountersPieces(w.counters), reader.expected);
    var chain :- DecodeChain(reader, w.chain);
    var counters :- DecodeCounters(reader, w.counters);
    return Ok((chain, counters));
  }

  method DecodeHead(reader: Reader, ghost w: Head) returns (r: Result<Head>)
    requires reader.Valid() && RepresentableHead(w)
    modifies reader
    ensures reader.Valid()
    ensures r.Ok? ==> RepresentableHead(r.value) && reader.taken == old(reader.taken) + HeadPieces(r.value)
    ensures old(ExpectsAll(reader, HeadPieces(w))) ==> r == Ok(w) && reader.Following()
  {
    hide ServicePieces, RoutePieces, ChainPieces, CountersPieces, RepresentableService, RepresentableRoute,
      RepresentableChain, RepresentableCounters, Concat, LittleEndian, BytesOf, IsHexText;
    ghost var front, back := ServicePieces(w.service) + RoutePieces(w.route),
      ChainPieces(w.chain) + CountersPieces(w.counters);
    assert HeadPieces(w) == front + back;
    NextGroup(reader.taken, front, back, reader.expected);
    var identity :- DecodeIdentity(reader, w);
    var state :- DecodeState(reader, w);
    var head := Head(identity.0, identity.1, state.0, state.1);
    assert HeadPieces(head) == (ServicePieces(identity.0) + RoutePieces(identity.1)) +
      (ChainPieces(state.0) + CountersPieces(state.1));
    return Ok(head);
  }

  /** The checks on the fields once they are all read. */
  method Accept(head: Head, lastBlock: Option<LastBlock>, end: End) returns (r: Result<Snapshot>)
    requires RepresentableHead(head) && RepresentableBlock(lastBlock) && RepresentableEnd(end)
    ensures r.Ok? ==>
              WellFormed(r.value) && HeadOf(r.value) == head && r.value.lastBlock == lastBlock && EndOf(r.value) == end
    ensures forall s: Snapshot :: Acceptable(s) && HeadOf(s) == head && s.lastBlock == lastBlock && EndOf(s) == end ==>
              r == Ok(s)
  {
    var Head(service, route, chain, counters) := head;
    if end.mode >= 6 || end.productionEligible > 1 || service.generation == 0 || AllZero(route.routeId) ||
       AllZero(chain.operatorId) || route.endpointSequence == 0 || route.sequence == 0 {
      return Err(InvalidFields);
    }
    if chain.expiresAt <= chain.generatedAt || chain.expiresAt - chain.generatedAt > 120 {
      return Err(InvalidLifetime);
    }
    return Ok(Snapshot(service, route, chain, counters, lastBlock, end.mode, end.productionEligible == 1,
        end.signature));
  }

  /** What is accepted is well formed and encodes to exactly these bytes; and whatever well-formed snapshot
      they are the encoding of comes back, down to its last block and signature. */
  method DecodeSnapshot(bytes: seq<Byte>, ghost written: Snapshot) returns (r: Result<Snapshot>)
    ensures r.Ok? ==> WellFormed(r.value) && Encode(r.value) == bytes
    ensures WellFormed(written) && Encode(written) == bytes ==> r == Ok(written)
  {
    hide Concat, HeadPieces, LastBlockPieces, EndPieces, RepresentableHead, RepresentableBlock, RepresentableEnd,
      Acceptable;
    BlankIsRepresentable();
    ghost var w := if Representable(written) then written else BLANK;
    var reader := new Reader(bytes, Pieces(w));
    var head :- DecodeHead(reader, HeadOf(w));
    var lastBlock :- DecodeLastBlock(reader, w.lastBlock);
    var end :- DecodeEnd(reader, EndOf(w));
    assert Encode(w) == bytes ==> reader.taken == Pieces(w);
    if reader.offset != |bytes| { return Err(TrailingBytes); }
    r := Accept(head, lastBlock, end);
    assert bytes[..|bytes|] == bytes;
    assert r.Ok? ==> reader.taken == Pieces(r.value);
  }

  // ---- the places of the fields ----

  const OFFSETS := [0, 1, 5, 7, 39, 71, 79, 111, 119, 151, 159, 167, 175, 207, 211, 243, 247, 251, 259, 267, 271]

  lemma {:induction false} PlaceOf(ps: seq<seq<Byte>>, k: nat)
    requires k <= 20 <= |ps| && forall i :: 0 <= i < k ==> |ps[i]| == HEAD_LENGTHS[i]
    ensures |Concat(ps[..k])| == OFFSETS[k]
  {
    hide OFFSETS, HEAD_LENGTHS;
    FirstOffset();
    if k > 0 {
      PlaceOf(ps, k - 1);
      assert ps[..k][..k - 1] == ps[..k - 1];
      NextOffset(k);
    }
  }

  lemma FirstOffset()
    ensures |OFFSETS| == 21 && |HEAD_LENGTHS| == 20 && OFFSETS[0] == 0
  {
  }

  lemma NextOffset(k: nat)
    requires 0 < k <= 20
    ensures OFFSETS[k] == OFFSETS[k - 1] + HEAD_LENGTHS[k - 1]
  {
  }

  lemma PieceAt(ps: seq<seq<Byte>>, k: nat)
    requires k < 20 <= |ps| && forall i :: 0 <= i < 20 ==> |ps[i]| == HEAD_LENGTHS[i]
    ensures OFFSETS[k] <= OFFSETS[k + 1] <= |Concat(ps)| && Concat(ps)[OFFSETS[k]..OFFSETS[k + 1]] == ps[k]
  {
    var from, to := OFFSETS[k], OFFSETS[k + 1];
    assert |Concat(ps[..k])| == from by { PlaceOf(ps, k); }
    assert |Concat(ps[..k + 1])| == to by { PlaceOf(ps, k + 1); }
    SliceAt(ps, k);
  }

  lemma SliceAt(ps: seq<seq<Byte>>, k: nat)
    requires k < |ps|
    ensures var from, to := |Concat(ps[..k])|, |Concat(ps[..k + 1])|;
            from <= to <= |Concat(ps)| && Concat(ps)[from..to] == ps[k]
  {
    ConcatPrefix(ps, k);
    assert ps[..k + 1][..k] == ps[..k];
  }

  lemma HeadPieceAt(s: Snapshot, k: nat)
    requires Representable(s) && k < 20
    ensures |HeadPieces(HeadOf(s))| == 20 && OFFSETS[k + 1] <= |Encode(s)| &&
            Encode(s)[OFFSETS[k]..OFFSETS[k + 1]] == HeadPieces(HeadOf(s))[k]
  {
    hide Concat, HeadPieces, LastBlockPieces, EndPieces;
    Shape(s);
    PieceAt(Pieces(s), k);
    assert Pieces(s)[..20][k] == Pieces(s)[k];
  }

  ghost function FieldAt(b: seq<Byte>, k: nat): seq<Byte>
    requires k < 20 && |b| >= 271
  {
    b[OFFSETS[k]..OFFSETS[k + 1]]
  }

  lemma NumeralAt(s: Snapshot, k: nat, n: nat, width: nat)
    requires Representable(s) && k < 20 && Fits(n, width) && |HeadPieces(HeadOf(s))| == 20 && |Encode(s)| >= 271
    requires HeadPieces(HeadOf(s))[k] == LittleEndian(n, width)
    ensures Number(FieldAt(Encode(s), k)) == n
  {
    hide HeadPieces, Encode, RepresentableHead, Number, LittleEndian;
    HeadPieceAt(s, k);
    BytesOfNumber(n, width);
  }

  lemma TextAt(s: Snapshot, k: nat, text: string)
    requires Representable(s) && k < 20 && IsId(text) && |HeadPieces(HeadOf(s))| == 20 && |Encode(s)| >= 271
    requires HeadPieces(HeadOf(s))[k] == BytesOf(text)
    ensures HexOf(FieldAt(Encode(s), k)) == text
  {
    hide HeadPieces, Encode, RepresentableHead, HexOf, BytesOf;
    HeadPieceAt(s, k);
    HexOfBytes(text);
  }

  lemma ServiceAt(s: Snapshot)
    requires Representable(s) && |Encode(s)| >= 271
    ensures var b := Encode(s);
            b[0] == 2 && Number(b[1..5]) == s.service.networkMagic && Number(b[5..7]) == 0xff00 &&
            HexOf(b[7..39]) == s.service.resourceId && HexOf(b[39..71]) == s.service.delegationId &&
            Number(b[71..79]) == s.service.generation
  {
    hide LittleEndian, BytesOf, HexOf, Number, Power, IsHexText, Encode, RoutePieces, ChainPieces, CountersPieces;
    SmallNumbersFit();
    HeadLengths(HeadOf(s));
    var b := Encode(s);
    NumeralAt(s, 0, 2, 1);
    assert Number(b[0..1]) == b[0] by { NumberOfOne(b[0..1]); }
    NumeralAt(s, 1, s.service.networkMagic, 4);
    NumeralAt(s, 2, PROFILE_ID, 2);
    TextAt(s, 3, s.service.resourceId);
    TextAt(s, 4, s.service.delegationId);
    NumeralAt(s, 5, s.service.generation, 8);
  }

  lemma NumberOfOne(b: seq<Byte>)
    requires |b| == 1
    ensures Number(b) == b[0]
  {
  }

  lemma RouteAt(s: Snapshot)
    requires Representable(s) && |Encode(s)| >= 271
    ensures var b := Encode(s);
            HexOf(b[79..111]) == s.route.endpointDelegationId && Number(b[111..119]) == s.route.endpointSequence &&
            HexOf(b[119..151]) == s.route.routeId && Number(b[151..159]) == s.route.sequence
  {
    hide LittleEndian, BytesOf, HexOf, Number, Power, IsHexText, Encode, ChainPieces, CountersPieces;
    HeadLengths(HeadOf(s));
    TextAt(s, 6, s.route.endpointDelegationId);
    NumeralAt(s, 7, s.route.endpointSequence, 8);
    TextAt(s, 8, s.route.routeId);
    NumeralAt(s, 9, s.route.sequence, 8);
  }

  lemma ChainAt(s: Snapshot)
    requires Representable(s) && |Encode(s)| >= 271
    ensures var b := Encode(s);
            Number(b[159..167]) == s.chain.generatedAt && Number(b[167..175]) == s.chain.expiresAt &&
            HexOf(b[175..207]) == s.chain.operatorId && Number(b[207..211]) == s.chain.tipHeight &&
            HexOf(b[211..243]) == s.chain.tipHash
  {
    hide LittleEndian, BytesOf, HexOf, Number, Power, IsHexText, Encode, CountersPieces;
    HeadLengths(HeadOf(s));
    NumeralAt(s, 10, s.chain.generatedAt, 8);
    NumeralAt(s, 11, s.chain.expiresAt, 8);
    TextAt(s, 12, s.chain.operatorId);
    NumeralAt(s, 13, s.chain.tipHeight, 4);
    TextAt(s, 14, s.chain.tipHash);
  }

  lemma CountersAt(s: Snapshot)
    requires Representable(s) && |Encode(s)| >= 271
    ensures var b := Encode(s);
            Number(b[243..247]) == s.counters.connectedMiners && Number(b[247..251]) == s.counters.connectedMeshPeers &&
            Number(b[251..259]) == s.counters.acceptedShares && Number(b[259..267]) == s.counters.rejectedShares &&
            Number(b[267..271]) == s.counters.pendingCaptures
  {
    hide LittleEndian, BytesOf, HexOf, Number, Power, IsHexText, Encode;
    HeadLengths(HeadOf(s));
    NumeralAt(s, 15, s.counters.connectedMiners, 4);
    NumeralAt(s, 16, s.counters.connectedMeshPeers, 4);
    NumeralAt(s, 17, s.counters.acceptedShares, 8);
    NumeralAt(s, 18, s.counters.rejectedShares, 8);
    NumeralAt(s, 19, s.counters.pendingCaptures, 4);
  }

  /** The fixed fields of a snapshot stand in its encoding at these places. */
  lemma FieldsAt(s: Snapshot)
    requires Representable(s)
    ensures var b := Encode(s);
            |b| >= 271 && b[0] == 2 && Number(b[1..5]) == s.service.networkMagic && Number(b[5..7]) == 0xff00 &&
            HexOf(b[7..39]) == s.service.resourceId && HexOf(b[39..71]) == s.service.delegationId &&
            Number(b[71..79]) == s.service.generation && HexOf(b[79..111]) == s.route.endpointDelegationId &&
            Number(b[111..119]) == s.route.endpointSequence && HexOf(b[119..151]) == s.route.routeId &&
            Number(b[151..159]) == s.route.sequence && Number(b[159..167]) == s.chain.generatedAt &&
            Number(b[167..175]) == s.chain.expiresAt && HexOf(b[175..207]) == s.chain.operatorId &&
            Number(b[207..211]) == s.chain.tipHeight && HexOf(b[211..243]) == s.chain.tipHash &&
            Number(b[243..247]) == s.counters.connectedMiners && Number(b[247..251]) == s.counters.connectedMeshPeers &&
            Number(b[251..259]) == s.counters.acceptedShares && Number(b[259..267]) == s.counters.rejectedShares &&
            Number(b[267..271]) == s.counters.pendingCaptures
  {
    hide HexOf, Number, Encode, RepresentableHead;
    HeadPieceAt(s, 19);
    ServiceAt(s);
    RouteAt(s);
    ChainAt(s);
    CountersAt(s);
  }

  lemma NextPlace(ps: seq<seq<Byte>>, k: nat, place: nat)
    requires k < |ps| && |Concat(ps[..k])| == place
    ensures |Concat(ps[..k + 1])| == place + |ps[k]|
    ensures place + |ps[k]| <= |Concat(ps)| && Concat(ps)[place..place + |ps[k]|] == ps[k]
  {
    SliceAt(ps, k);
    assert ps[..k + 1][..k] == ps[..k];
  }

  /** Behind them stand the option of the last block, the block if there is one, and the end. */
  lemma EndAt(s: Snapshot)
    requires Representable(s)
    ensures var b := Encode(s);
            var m := if s.lastBlock.Some? then 308 else 272;
            |b| == m + 3 + |s.signature| / 2 && b[271] == (if s.lastBlock.Some? then 1 else 0) &&
            (s.lastBlock.Some? ==>
              Number(b[272..276]) == s.lastBlock.value.height && HexOf(b[276..308]) == s.lastBlock.value.hash) &&
            b[m] == s.mode && b[m + 1] == (if s.productionEligible then 1 else 0) &&
            b[m + 2] == |s.signature| / 2 && HexOf(b[m + 3..]) == s.signature
  {
    hide Concat, HeadPieces, LittleEndian, BytesOf, HexOf, Number, RepresentableHead, Power;
    var p, n := Pieces(s), 20 + BlockLength(s);
    Shape(s);
    PlaceOf(p, 20);
    NextPlace(p, 20, 271);
    OneByte(if s.lastBlock.Some? then 1 else 0);
    if s.lastBlock.Some? {
      NextPlace(p, 21, 272);
      NextPlace(p, 22, 276);
      assert p[20..n][1] == p[21] && p[20..n][2] == p[22];
      BytesOfNumber(s.lastBlock.value.height, 4);
      HexOfBytes(s.lastBlock.value.hash);
    }
    TailAt(s, p, n, if s.lastBlock.Some? then 308 else 272);
  }

  lemma OneByte(n: nat)
    requires n < 256
    ensures LittleEndian(n, 1) == [n]
  {
  }

  lemma TailAt(s: Snapshot, p: seq<seq<Byte>>, n: nat, m: nat)
    requires Representable(s) && |p| == n + 4 && p[n..] == EndPieces(EndOf(s)) && |Concat(p[..n])| == m
    ensures var b := Concat(p);
            |b| == m + 3 + |s.signature| / 2 && b[m] == s.mode &&
            b[m + 1] == (if s.productionEligible then 1 else 0) && b[m + 2] == |s.signature| / 2 &&
            HexOf(b[m + 3..]) == s.signature
  {
    hide Concat, LittleEndian, BytesOf, HexOf, RepresentableHead, RepresentableBlock, IsHexText;
    var e := EndPieces(EndOf(s));
    assert p[n] == e[0] && p[n + 1] == e[1] && p[n + 2] == e[2] && p[n + 3] == e[3];
    OneByte(s.mode);
    OneByte(if s.productionEligible then 1 else 0);
    OneByte(|s.signature| / 2);
    NextPlace(p, n, m);
    NextPlace(p, n + 1, m + 1);
    NextPlace(p, n + 2, m + 2);
    NextPlace(p, n + 3, m + 3);
    assert p[..n + 4] == p;
    var b := Concat(p);
    assert b[m..m + 1][0] == b[m] && b[m + 1..m + 2][0] == b[m + 1] && b[m + 2..m + 3][0] == b[m + 2];
    assert b[m + 3..] == b[m + 3..m + 3 + |p[n + 3]|];
    assert p[n + 3] == BytesOf(s.signature);
    HexOfBytes(s.signature);
  }

  // ---- one record for the same bytes ----

  /** Two ways of cutting the same bytes agree as far as their pieces have the same lengths. */
  lemma {:induction false} SamePieces(ps: seq<seq<Byte>>, qs: seq<seq<Byte>>, k: nat)
    requires Concat(ps) == Concat(qs) && k <= |ps| && k <= |qs|
    requires forall i :: 0 <= i < k ==> |ps[i]| == |qs[i]|
    ensures ps[..k] == qs[..k]
  {
    if k > 0 {
      SamePieces(ps, qs, k - 1);
      ConcatPrefix(ps, k - 1);
      ConcatPrefix(qs, k - 1);
      hide Concat;
      assert ps[..k - 1] == qs[..k - 1];
      var n := |Concat(ps[..k - 1])|;
      assert ps[k - 1] == Concat(ps)[n..n + |ps[k - 1]|];
      assert qs[k - 1] == Concat(ps)[n..n + |ps[k - 1]|];
      assert ps[..k] == ps[..k - 1] + [ps[k - 1]] && qs[..k] == qs[..k - 1] + [qs[k - 1]];
    }
  }

  lemma SameNumber(m: nat, n: nat, width: nat)
    requires Fits(m, width) && Fits(n, width) && LittleEndian(m, width) == LittleEndian(n, width)
    ensures m == n
  {
    BytesOfNumber(m, width);
    BytesOfNumber(n, width);
  }

  lemma SameText(s: string, t: string)
    requires IsHexText(s) && IsHexText(t) && BytesOf(s) == BytesOf(t)
    ensures s == t
  {
    HexOfBytes(s);
    HexOfBytes(t);
  }

  lemma SameService(a: Service, b: Service)
    requires RepresentableService(a) && RepresentableService(b) && ServicePieces(a) == ServicePieces(b)
    ensures a == b
  {
    hide LittleEndian, BytesOf, Power, IsHexText;
    var p, q := ServicePieces(a), ServicePieces(b);
    assert p[1] == q[1] && p[3] == q[3] && p[4] == q[4] && p[5] == q[5];
    SameNumber(a.networkMagic, b.networkMagic, 4);
    SameText(a.resourceId, b.resourceId);
    SameText(a.delegationId, b.delegationId);
    SameNumber(a.generation, b.generation, 8);
  }

  lemma SameRoute(a: Route, b: Route)
    requires RepresentableRoute(a) && RepresentableRoute(b) && RoutePieces(a) == RoutePieces(b)
    ensures a == b
  {
    hide LittleEndian, BytesOf, Power, IsHexText;
    var p, q := RoutePieces(a), RoutePieces(b);
    assert p[0] == q[0] && p[1] == q[1] && p[2] == q[2] && p[3] == q[3];
    SameText(a.endpointDelegationId, b.endpointDelegationId);
    SameNumber(a.endpointSequence, b.endpointSequence, 8);
    SameText(a.routeId, b.routeId);
    SameNumber(a.sequence, b.sequence, 8);
  }

  lemma SameChain(a: Chain, b: Chain)
    requires RepresentableChain(a) && RepresentableChain(b) && ChainPieces(a) == ChainPieces(b)
    ensures a == b
  {
    hide LittleEndian, BytesOf, Power, IsHexText;
    var p, q := ChainPieces(a), ChainPieces(b);
    assert p[0] == q[0] && p[1] == q[1] && p[2] == q[2] && p[3] == q[3] && p[4] == q[4];
    SameNumber(a.generatedAt, b.generatedAt, 8);
    SameNumber(a.expiresAt, b.expiresAt, 8);
    SameText(a.operatorId, b.operatorId);
    SameNumber(a.tipHeight, b.tipHeight, 4);
    SameText(a.tipHash, b.tipHash);
  }

  lemma SameCounters(a: Counters, b: Counters)
    requires RepresentableCounters(a) && RepresentableCounters(b) && CountersPieces(a) == CountersPieces(b)
    ensures a == b
  {
    hide LittleEndian, BytesOf, Power, IsHexText;
    var p, q := CountersPieces(a), CountersPieces(b);
    assert p[0] == q[0] && p[1] == q[1] && p[2] == q[2] && p[3] == q[3] && p[4] == q[4];
    SameNumber(a.connectedMiners, b.connectedMiners, 4);
    SameNumber(a.connectedMeshPeers, b.connectedMeshPeers, 4);
    SameNumber(a.acceptedShares, b.acceptedShares, 8);
    SameNumber(a.rejectedShares, b.rejectedShares, 8);
    SameNumber(a.pendingCaptures, b.pendingCaptures, 4);
  }

  lemma SameHead(a: Head, b: Head)
    requires RepresentableHead(a) && RepresentableHead(b) && HeadPieces(a) == HeadPieces(b)
    ensures a == b
  {
    hide LittleEndian, BytesOf, Power, IsHexText;
    var p, q := HeadPieces(a), HeadPieces(b);
    assert ServicePieces(a.service) == p[..6] == q[..6] == ServicePieces(b.service);
    assert RoutePieces(a.route) == p[6..10] == q[6..10] == RoutePieces(b.route);
    assert ChainPieces(a.chain) == p[10..15] == q[10..15] == ChainPieces(b.chain);
    assert CountersPieces(a.counters) == p[15..20] == q[15..20] == CountersPieces(b.counters);
    SameService(a.service, b.service);
    SameRoute(a.route, b.route);
    SameChain(a.chain, b.chain);
    SameCounters(a.counters, b.counters);
  }

  lemma SameLastBlock(a: Option<LastBlock>, b: Option<LastBlock>)
    requires RepresentableBlock(a) && RepresentableBlock(b) && LastBlockPieces(a) == LastBlockPieces(b)
    ensures a == b
  {
    hide LittleEndian, BytesOf, Power, IsHexText;
    var p, q := LastBlockPieces(a), LastBlockPieces(b);
    if a.Some? && b.Some? {
      assert p[1] == q[1] && p[2] == q[2];
      SameNumber(a.value.height, b.value.height, 4);
      SameText(a.value.hash, b.value.hash);
    }
  }

  lemma SameEnd(a: End, b: End)
    requires RepresentableEnd(a) && RepresentableEnd(b) && EndPieces(a) == EndPieces(b)
    ensures a == b
  {
    hide LittleEndian, BytesOf, Power, IsHexText;
    SmallNumbersFit();
    var p, q := EndPieces(a), EndPieces(b);
    assert p[0] == q[0] && p[1] == q[1] && p[2] == q[2] && p[3] == q[3];
    SameNumber(a.mode, b.mode, 1);
    SameNumber(a.productionEligible, b.productionEligible, 1);
    SameText(a.signature, b.signature);
  }

  lemma HeadLengths(h: Head)
    requires RepresentableHead(h)
    ensures |HeadPieces(h)| == 20
    ensures forall i :: 0 <= i < 20 ==> |HeadPieces(h)[i]| == HEAD_LENGTHS[i]
  {
    hide LittleEndian, BytesOf, Power;
  }

  const HEAD_LENGTHS := [1, 4, 2, 32, 32, 8, 32, 8, 32, 8, 8, 8, 32, 4, 32, 4, 4, 8, 8, 4]

  function BlockLength(s: Snapshot): nat {
    if s.lastBlock.Some? then 3 else 1
  }

  /** Where the pieces of a snapshot are, and how long. */
  lemma Shape(s: Snapshot)
    requires Representable(s)
    ensures var p, n := Pieces(s), 20 + BlockLength(s);
            |p| == n + 4 && p[..20] == HeadPieces(HeadOf(s)) && p[20..n] == LastBlockPieces(s.lastBlock) &&
            p[n..] == EndPieces(EndOf(s)) && (forall i :: 0 <= i < 20 ==> |p[i]| == HEAD_LENGTHS[i]) &&
            |p[20]| == |p[n]| == |p[n + 1]| == |p[n + 2]| == 1 && |p[n + 3]| == |s.signature| / 2 &&
            p[20] == LittleEndian(if s.lastBlock.Some? then 1 else 0, 1) &&
            p[n + 2] == LittleEndian(|s.signature| / 2, 1) &&
            (s.lastBlock.Some? ==> |p[21]| == 4 && |p[22]| == 32)
  {
    hide LittleEndian, BytesOf, Power, IsHexText, Concat, HeadPieces;
    HeadLengths(HeadOf(s));
  }

  /** Accepted bytes are the encoding of one record only: the layout loses nothing. */
  lemma EncodingIsInjective(a: Snapshot, b: Snapshot)
    requires Representable(a) && Representable(b) && Encode(a) == Encode(b)
    ensures a == b
  {
    hide Concat, HeadPieces, LastBlockPieces, EndPieces, RepresentableHead, RepresentableBlock, RepresentableEnd,
      Pieces, LittleEndian;
    var p, q := Pieces(a), Pieces(b);
    Shape(a);
    Shape(b);
    SamePieces(p, q, 21);
    assert p[..20] == p[..21][..20] && q[..20] == q[..21][..20];
    SameHead(HeadOf(a), HeadOf(b));
    assert p[20] == p[..21][20] && q[20] == q[..21][20];
    SameFlag(a, b);
    var n := 20 + BlockLength(a);
    SamePieces(p, q, n + 3);
    assert p[20..n] == p[..n + 3][20..n] && q[20..n] == q[..n + 3][20..n];
    SameLastBlock(a.lastBlock, b.lastBlock);
    assert p[n + 2] == p[..n + 3][n + 2] && q[n + 2] == q[..n + 3][n + 2];
    SameSignatureLength(a, b);
    SamePieces(p, q, n + 4);
    assert p[..n + 4] == p && q[..n + 4] == q;
    SameEnd(EndOf(a), EndOf(b));
  }

  lemma SameFlag(a: Snapshot, b: Snapshot)
    requires LittleEndian(if a.lastBlock.Some? then 1 else 0, 1) == LittleEndian(if b.lastBlock.Some? then 1 else 0, 1)
    ensures BlockLength(a) == BlockLength(b)
  {
    SmallNumbersFit();
    SameNumber(if a.lastBlock.Some? then 1 else 0, if b.lastBlock.Some? then 1 else 0, 1);
  }

  lemma SameSignatureLength(a: Snapshot, b: Snapshot)
    requires Representable(a) && Representable(b)
    requires LittleEndian(|a.signature| / 2, 1) == LittleEndian(|b.signature| / 2, 1)
    ensures |a.signature| / 2 == |b.signature| / 2
  {
    hide RepresentableHead, RepresentableBlock;
    SmallNumbersFit();
    SameNumber(|a.signature| / 2, |b.signature| / 2, 1);
  }
}
