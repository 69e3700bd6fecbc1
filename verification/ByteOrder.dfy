/**
 The two 64-bit byte-order conversions: `htonll`/`ntohll` swap 32-bit halves
 (src/network/network.c), `hton64u`/`ntoh64u` loop over bytes (src/core/util.c).
 Network order puts the most significant octet first, as in Appendix B of RFC 791.
 */
module ByteOrder {

  type Octet = bv8
  type Octets = seq<Octet>

  /** The host's byte order. */
  datatype Endian = Big | Little

  /** The octets of a value, most significant first. */
  function BigEndian(v: bv64): (b: Octets)
    ensures |b| == 8
  {
    [((v >> 56) & 0xFF) as Octet, ((v >> 48) & 0xFF) as Octet, ((v >> 40) & 0xFF) as Octet, ((v >> 32) & 0xFF) as Octet,
     ((v >> 24) & 0xFF) as Octet, ((v >> 16) & 0xFF) as Octet, ((v >> 8) & 0xFF) as Octet, (v & 0xFF) as Octet]
  }

  /** The value whose octets these are. */
  function FromBigEndian(b: Octets): bv64
    requires |b| == 8
  {
    ((b[0] as bv64) << 56) | ((b[1] as bv64) << 48) | ((b[2] as bv64) << 40) | ((b[3] as bv64) << 32)
    | ((b[4] as bv64) << 24) | ((b[5] as bv64) << 16) | ((b[6] as bv64) << 8) | (b[7] as bv64)
  }

  function Flip(b: Octets): (f: Octets)
    requires |b| == 8
    ensures |f| == 8
  {
    [b[7], b[6], b[5], b[4], b[3], b[2], b[1], b[0]]
  }

  /** The memory of a `uint64_t`, and the `uint64_t` in a memory. */
  function Store(v: bv64, e: Endian): (b: Octets)
    ensures |b| == 8
  {
    if e.Big? then BigEndian(v) else Flip(BigEndian(v))
  }

  function Load(b: Octets, e: Endian): bv64
    requires |b| == 8
  {
    if e.Big? then FromBigEndian(b) else FromBigEndian(Flip(b))
  }

  lemma OctetsOfValue(v: bv64)
    ensures FromBigEndian(BigEndian(v)) == v
  {
  }

  lemma LoadStore(v: bv64, e: Endian)
    ensures Load(Store(v, e), e) == v
  {
    OctetsOfValue(v);
    assert Flip(Flip(BigEndian(v))) == BigEndian(v);
  }

  /** `htonl`, which is also `ntohl`: the identity on big-endian hosts, else the four octets reversed. */
  function Htonl(x: bv32, e: Endian): bv32 {
    if e.Big? then x else ((x & 0xFF) << 24) | ((x & 0xFF00) << 8) | ((x >> 8) & 0xFF00) | (x >> 24)
  }

  /** `htonll`; `ntohll` is the same expression with `ntohl`. */
  function Htonll(v: bv64, e: Endian): bv64 {
    if e.Big? then v
    else ((Htonl((v & 0xFFFF_FFFF) as bv32, e) as bv64) << 32) | (Htonl((v >> 32) as bv32, e) as bv64)
  }

  /** The memory of a converted value holds the big-endian digits, on either kind of host. */
  lemma HtonllMemory(v: bv64, e: Endian)
    ensures Store(Htonll(v, e), e) == BigEndian(v)
  {
  }

  /** The conversion undoes itself, so `ntohll` undoes `htonll`. */
  lemma HtonllInvolution(v: bv64, e: Endian)
    ensures Htonll(Htonll(v, e), e) == v
  {
    HtonllMemory(v, e);
    HtonllMemory(Htonll(v, e), e);
    LoadStore(v, e);
    LoadStore(Htonll(Htonll(v, e), e), e);
    OctetsOfValue(v);
    OctetsOfValue(Htonll(v, e));
  }

  /** The octet `i` places from the end, masked and shifted out as the loop of `hton64u` does. */
  function CutOctet(v: bv64, i: nat): Octet
    requires i < 8
  {
    match i
    case 0 => (v & 0xFF) as Octet
    case 1 => ((v & (0xFF << 8)) >> 8) as Octet
    case 2 => ((v & (0xFF << 16)) >> 16) as Octet
    case 3 => ((v & (0xFF << 24)) >> 24) as Octet
    case 4 => ((v & (0xFF << 32)) >> 32) as Octet
    case 5 => ((v & (0xFF << 40)) >> 40) as Octet
    case 6 => ((v & (0xFF << 48)) >> 48) as Octet
    case _ => ((v & (0xFF << 56)) >> 56) as Octet
  }

  lemma CutIsDigit(v: bv64)
    ensures BigEndian(v) == [CutOctet(v, 7), CutOctet(v, 6), CutOctet(v, 5), CutOctet(v, 4),
                             CutOctet(v, 3), CutOctet(v, 2), CutOctet(v, 1), CutOctet(v, 0)]
  {
  }

  /** `hton64u`: fill the octets from the end, then read the memory as a host value. */
  method Hton64u(host: bv64, e: Endian) returns (network: bv64)
    ensures network == Htonll(host, e)
  {
    var bytes := new Octet[8](_ => 0);
    var p := 8;
    for i := 0 to 8
      invariant p == 8 - i
      invariant forall j :: p <= j < 8 ==> bytes[j] == CutOctet(host, 7 - j)
    {
      p := p - 1;
      bytes[p] := CutOctet(host, i);
    }
    CutIsDigit(host);
    assert bytes[..] == BigEndian(host);
    HtonllMemory(host, e);
    LoadStore(Htonll(host, e), e);
    network := Load(bytes[..], e);
  }

  /** The accumulator of `ntoh64u` after some octets. */
  function Accumulated(b: Octets): bv64 {
    if b == [] then 0 else (Accumulated(b[..|b| - 1]) << 8) | (b[|b| - 1] as bv64)
  }

  lemma ShiftedTogether(b0: bv64, b1: bv64, b2: bv64, b3: bv64, b4: bv64, b5: bv64, b6: bv64, b7: bv64)
    ensures (((((((((((((b0 << 8) | b1) << 8) | b2) << 8) | b3) << 8) | b4) << 8) | b5) << 8) | b6) << 8) | b7
      == (b0 << 56) | (b1 << 48) | (b2 << 40) | (b3 << 32) | (b4 << 24) | (b5 << 16) | (b6 << 8) | b7
  {
  }

  lemma AccumulatedSnoc(b: Octets, i: nat)
    requires i < |b|
    ensures Accumulated(b[..i + 1]) == (Accumulated(b[..i]) << 8) | (b[i] as bv64)
  {
    assert b[..i + 1][..i] == b[..i];
  }

  lemma AccumulatedIs(b: Octets)
    requires |b| == 8
    ensures Accumulated(b) == FromBigEndian(b)
  {
    forall i | 0 <= i < 8
      ensures Accumulated(b[..i + 1]) == (Accumulated(b[..i]) << 8) | (b[i] as bv64)
    {
      AccumulatedSnoc(b, i);
    }
    assert Accumulated(b[..1]) == b[0] as bv64;
    ShiftedTogether(b[0] as bv64, b[1] as bv64, b[2] as bv64, b[3] as bv64,
                    b[4] as bv64, b[5] as bv64, b[6] as bv64, b[7] as bv64);
    assert b[..8] == b;
  }

  /** `ntoh64u`: read the octets in memory order and shift them together. */
  method Ntoh64u(network: bv64, e: Endian) returns (host: bv64)
    ensures host == Htonll(network, e)
  {
    var bytes := Store(network, e);
    host := 0;
    for i := 0 to 8
      invariant host == Accumulated(bytes[..i])
    {
      AccumulatedSnoc(bytes, i);
      host := host << 8;
      host := host | (bytes[i] as bv64);
    }
    assert bytes[..8] == bytes;
    AccumulatedIs(bytes);
    HtonllMemory(Htonll(network, e), e);
    HtonllInvolution(network, e);
    OctetsOfValue(Htonll(network, e));
  }
}
