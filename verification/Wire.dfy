/**
 The wire format (src/network/network.h, src/network/network.c): every message is built
 in one byte buffer whose body is a union of packed layouts, and the first
 3 + length bytes are sent. The buffer here is an array and every field an offset.
 */
module Wire {
  import opened CText
  import opened ByteOrder

  const NAME_LEN: nat := 31
  const TEXT_LEN: nat := 512

  /** Header: type at 0, length at 1. All bodies start at 3. */
  const BODY: nat := 3
  const STAMP: nat := 8

  /** Size of a `CombinedMessage`; the server-to-client body is the widest. */
  const MESSAGE: nat := BODY + STAMP + NAME_ARRAY + TEXT_LEN

  const LOGIN_REQUEST: Byte := 0
  const LOGIN_RESPONSE: Byte := 1
  const CLIENT_TO_SERVER: Byte := 2
  const SERVER_TO_CLIENT: Byte := 3
  const USER_ADD: Byte := 4
  const USER_REMOVE: Byte := 5

  const REQUEST_MAGIC: Text := [0x0b, 0xad, 0xf0, 0x0d]
  const RESPONSE_MAGIC: Text := [0xc0, 0x01, 0xc0, 0x01]

  // ---------------------------------------------------------------- numbers as bytes

  /** The memory of `htons(n)`. */
  function Be16(n: nat): (b: Text)
    requires n < 65536
    ensures |b| == 2
  {
    [(n / 256) as Byte, (n % 256) as Byte]
  }

  function FromBe16(b: Text): nat
    requires |b| == 2
  {
    (b[0] as nat) * 256 + (b[1] as nat)
  }

  lemma Be16RoundTrip(n: nat)
    requires n < 65536
    ensures FromBe16(Be16(n)) == n
  {
  }

  /** Octets of memory as bytes of the buffer, and back. */
  function ToBytes(octets: Octets): (b: Text)
    ensures |b| == |octets|
  {
    seq(|octets|, i requires 0 <= i < |octets| => octets[i] as Byte)
  }

  function ToOctets(b: Text): (octets: Octets)
    ensures |octets| == |b|
  {
    seq(|b|, i requires 0 <= i < |b| => b[i] as Octet)
  }

  lemma OctetBack(o: Octet)
    ensures (o as Byte) as Octet == o
  {
  }

  lemma OctetsBack(octets: Octets)
    ensures ToOctets(ToBytes(octets)) == octets
  {
    forall i | 0 <= i < |octets|
      ensures (octets[i] as Byte) as Octet == octets[i]
    {
      OctetBack(octets[i]);
    }
  }

  lemma ShiftIsTimes(hi: bv64, lo: bv64)
    requires hi < 256 && lo < 256
    ensures (hi << 8) | lo == hi * 256 + lo
  {
  }

  lemma TimesIsTimes(hi: bv64, lo: bv64)
    requires hi < 256 && lo < 256
    ensures (hi * 256 + lo) as nat == (hi as nat) * 256 + (lo as nat)
  {
  }

  lemma NextOctet(o: Octet)
    requires o < 255
    ensures (o + 1) as nat == o as nat + 1
  {
  }

  lemma {:induction false} SomeOctet(n: nat) returns (o: Octet)
    requires n < 256
    ensures o as nat == n
  {
    if n == 0 {
      o := 0;
    } else {
      var before := SomeOctet(n - 1);
      NextOctet(before);
      o := before + 1;
    }
  }

  lemma OctetOfNat(n: nat, o: Octet)
    requires n < 256 && o as nat == n
    ensures n as Octet == o
  {
  }

  lemma ByteOctet(b: Byte)
    ensures (b as Octet) as nat == b as nat
  {
    var o := SomeOctet(b as nat);
    OctetOfNat(b as nat, o);
  }

  lemma WideOctet(o: Octet)
    ensures o as bv64 < 256 && (o as bv64) as nat == o as nat
  {
  }

  lemma TwoOctets(hi: Octet, lo: Octet)
    ensures (((hi as bv64) << 8) | (lo as bv64)) as nat == (hi as nat) * 256 + (lo as nat)
  {
    WideOctet(hi);
    WideOctet(lo);
    ShiftIsTimes(hi as bv64, lo as bv64);
    TimesIsTimes(hi as bv64, lo as bv64);
  }

  lemma AccumulatedTwo(o: Octets)
    requires |o| == 2
    ensures Accumulated(o) == ((o[0] as bv64) << 8) | (o[1] as bv64)
  {
    assert o[..1] == [o[0]] && o[..1][..0] == [];
    assert Accumulated(o[..1]) == o[0] as bv64;
  }

  lemma NatBack(v: bv64, n: nat)
    requires n < 65536 && v as nat == n
    ensures v == n as bv64
  {
  }

  lemma LengthBytes(n: nat, hi: Octet, lo: Octet)
    requires n < 65536 && hi as nat == n / 256 && lo as nat == n % 256
    ensures (((hi as bv64) << 8) | (lo as bv64)) == n as bv64
  {
    TwoOctets(hi, lo);
    NatBack(((hi as bv64) << 8) | (lo as bv64), n);
  }

  lemma LengthOctets(n: nat)
    requires n < 65536
    ensures var o := ToOctets(Be16(n)); o[0] as nat == n / 256 && o[1] as nat == n % 256
  {
    ByteOctet(Be16(n)[0]);
    ByteOctet(Be16(n)[1]);
  }

  /** The most significant byte of a length comes first, as in a timestamp. */
  lemma LengthInNetworkOrder(n: nat)
    requires n < 65536
    ensures Accumulated(ToOctets(Be16(n))) == n as bv64
  {
    var o := ToOctets(Be16(n));
    AccumulatedTwo(o);
    LengthOctets(n);
    LengthBytes(n, o[0], o[1]);
  }

  /** The eight bytes of a timestamp field, and the reader's value of them. */
  function StampBytes(stamp: bv64): (b: Text)
    ensures |b| == 8
  {
    ToBytes(BigEndian(stamp))
  }

  function ReadStamp(b: Text): bv64 { Accumulated(ToOctets(b)) }

  // ---------------------------------------------------------------- reading a frame

  datatype WireFrame =
    | LoginResponse(code: Byte, server: Text)
    | ServerToClient(stamp: bv64, sender: Text, text: Text)
    | UserAdd(stamp: bv64, name: Text)
    | UserRemove(stamp: bv64, code: Byte, name: Text)

  /** The fields of a body by the packed layout of its type. */
  function Fields(kind: Byte, body: Text): Option<WireFrame> {
    if kind == LOGIN_RESPONSE && |body| >= 5 && body[..4] == RESPONSE_MAGIC then
      Some(LoginResponse(body[4], CStr(body[5..])))
    else if kind == SERVER_TO_CLIENT && |body| >= 40 then
      Some(ServerToClient(ReadStamp(body[..8]), CStr(body[8..40]), CStr(body[40..])))
    else if kind == USER_ADD && |body| >= 8 then
      Some(UserAdd(ReadStamp(body[..8]), CStr(body[8..])))
    else if kind == USER_REMOVE && |body| >= 9 then
      Some(UserRemove(ReadStamp(body[..8]), body[8], CStr(body[9..])))
    else None
  }

  /** A client that reads a whole frame: a header whose length is that of the body, then the fields. */
  function Decode(b: Text): Option<WireFrame> {
    if |b| < BODY || |b| != BODY + FromBe16(b[1..BODY]) then None else Fields(b[0], b[BODY..])
  }

  /** What `network_Send` transmits of a buffer: the header and as many bytes as its length field says. */
  function Transmitted(buffer: Text): Text
    requires |buffer| == MESSAGE
  {
    var n := BODY + FromBe16(buffer[1..3]);
    if n <= MESSAGE then buffer[..n] else buffer
  }

  // ---------------------------------------------------------------- writing into the buffer

  /** A buffer with some bytes put at an offset. */
  function Splice(s: Text, at: nat, bytes: Text): (r: Text)
    requires at + |bytes| <= |s|
    ensures |r| == |s|
  {
    s[..at] + bytes + s[at + |bytes|..]
  }

  lemma SpliceIs(s: Text, at: nat, bytes: Text, r: Text)
    requires at + |bytes| <= |s| == |r|
    requires forall i :: 0 <= i < |s| ==> r[i] == if at <= i < at + |bytes| then bytes[i - at] else s[i]
    ensures r == Splice(s, at, bytes)
  {
  }

  /** Copy bytes to an offset, as `memcpy`, `memset` and field assignments do. */
  method Write(buffer: array<Byte>, at: nat, bytes: Text)
    requires at + |bytes| <= buffer.Length
    modifies buffer
    ensures buffer[..] == Splice(old(buffer[..]), at, bytes)
  {
    for k := 0 to |bytes|
      invariant forall i :: at <= i < at + k ==> buffer[i] == bytes[i - at]
      invariant forall i :: 0 <= i < buffer.Length && !(at <= i < at + k) ==> buffer[i] == old(buffer[i])
    {
      buffer[at + k] := bytes[k];
    }
    SpliceIs(old(buffer[..]), at, bytes, buffer[..]);
  }

  lemma CopiedIs(source: Text, size: nat, kept: nat)
    requires kept <= size && kept <= |source| && NUL !in source[..kept]
    requires kept < size ==> kept < |source| && source[kept] == NUL
    ensures Copied(source, size) == source[..kept] + Zeros(size - kept)
  {
    if kept < size { CStrUnique(source, source[..kept]); }
  }

  /** `strncpy` into the buffer: up to the terminator of the source, then zeros up to `size`. */
  method StrNCpyTo(buffer: array<Byte>, at: nat, source: Text, size: nat)
    requires at + size <= buffer.Length && (|source| >= size || NUL in source)
    modifies buffer
    ensures buffer[..] == Splice(old(buffer[..]), at, Copied(source, size))
  {
    var k := 0;
    while k < size && source[k] != NUL
      invariant k <= size && k <= |source| && (NUL in source || |source| >= size)
      invariant NUL !in source[..k]
      invariant forall i :: at <= i < at + k ==> buffer[i] == source[i - at]
      invariant forall i :: 0 <= i < buffer.Length && !(at <= i < at + k) ==> buffer[i] == old(buffer[i])
      decreases size - k
    {
      buffer[at + k] := source[k];
      k := k + 1;
    }
    ghost var kept := k;
    while k < size
      invariant kept <= k <= size
      invariant forall i :: at <= i < at + kept ==> buffer[i] == source[i - at]
      invariant forall i :: at + kept <= i < at + k ==> buffer[i] == NUL
      invariant forall i :: 0 <= i < buffer.Length && !(at <= i < at + k) ==> buffer[i] == old(buffer[i])
    {
      buffer[at + k] := NUL;
      k := k + 1;
    }
    CopiedIs(source, size, kept);
    SpliceIs(old(buffer[..]), at, source[..kept] + Zeros(size - kept), buffer[..]);
  }

  /** The stamp a frame carries: the clock's time if it was read and is wanted, else 0. */
  function Stamp(time: Option<bv64>, wanted: bool): bv64 {
    if wanted && time.Some? then time.value else 0
  }

  /** Assign the timestamp field, converted to network order by the host's rules. */
  method WriteStamp(buffer: array<Byte>, time: Option<bv64>, wanted: bool, e: Endian)
    requires buffer.Length == MESSAGE
    modifies buffer
    ensures buffer[..] == Splice(old(buffer[..]), BODY, StampBytes(Stamp(time, wanted)))
  {
    var value := if wanted && time.Some? then Htonll(time.value, e) else 0;
    HtonllMemory(Stamp(time, wanted), e);
    assert Htonll(0, e) == 0;
    Write(buffer, BODY, ToBytes(Store(value, e)));
  }

  /** A user's name array: 32 bytes with a terminator. */
  predicate IsNameArray(name: Text) { |name| == NAME_ARRAY && NUL in name }

  predicate ZeroFrom(buffer: Text, from: nat) {
    forall i :: from <= i < |buffer| ==> buffer[i] == NUL
  }

  // ---------------------------------------------------------------- frames in the buffer

  /** The header, the fields behind it, and zeros to the end of the buffer. */
  function Image(kind: Byte, length: nat, fields: Text): Text
    requires length < 65536 && BODY + |fields| <= MESSAGE
  {
    [kind] + Be16(length) + fields + Zeros(MESSAGE - BODY - |fields|)
  }

  lemma TransmittedImage(kind: Byte, length: nat, fields: Text)
    requires length < 65536 && length <= |fields| && BODY + |fields| <= MESSAGE
    ensures Transmitted(Image(kind, length, fields)) == [kind] + Be16(length) + fields[..length]
  {
    var b := Image(kind, length, fields);
    assert b[1..3] == Be16(length);
    Be16RoundTrip(length);
    assert b[..BODY + length] == b[..BODY] + b[BODY..BODY + length];
  }

  /** The header of a message says its type and, most significant byte first, its length. */
  predicate Header(b: Text, kind: Byte, length: nat) {
    |b| >= 3 && b[0] == kind && length < 65536 && Accumulated(ToOctets(b[1..3])) == length as bv64
  }

  lemma ImageHeader(kind: Byte, length: nat, fields: Text)
    requires length < 65536 && BODY + |fields| <= MESSAGE
    ensures Header(Image(kind, length, fields), kind, length)
  {
    assert Image(kind, length, fields)[1..3] == Be16(length);
    LengthInNetworkOrder(length);
  }

  /** A buffer under construction: type set, some fields filled, zeros behind them. */
  predicate Filled(s: Text, kind: Byte, fields: Text) {
    && |s| == MESSAGE && BODY + |fields| <= MESSAGE
    && s[0] == kind && s[BODY..BODY + |fields|] == fields && ZeroFrom(s, BODY + |fields|)
  }

  lemma FillNext(s: Text, kind: Byte, fields: Text, more: Text)
    requires Filled(s, kind, fields) && BODY + |fields| + |more| <= MESSAGE
    ensures Filled(Splice(s, BODY + |fields|, more), kind, fields + more)
  {
    var at := BODY + |fields|;
    var r := Splice(s, at, more);
    assert r[BODY..at] == s[BODY..at] && r[at..at + |more|] == more;
    assert r[BODY..at + |more|] == r[BODY..at] + r[at..at + |more|];
  }

  lemma FillZeros(s: Text, kind: Byte, fields: Text, n: nat)
    requires Filled(s, kind, fields) && BODY + |fields| + n <= MESSAGE
    ensures Filled(s, kind, fields + Zeros(n))
  {
    var at := BODY + |fields|;
    assert s[at..at + n] == Zeros(n);
    assert s[BODY..at + n] == s[BODY..at] + s[at..at + n];
  }

  lemma DropZeros(s: Text, kind: Byte, fields: Text, n: nat)
    requires Filled(s, kind, fields + Zeros(n))
    ensures Filled(s, kind, fields)
  {
    var at := BODY + |fields|;
    var r := s[BODY..at + n];
    assert s[BODY..at] == r[..|fields|] == fields;
    assert forall i :: at <= i < at + n ==> s[i] == r[i - BODY];
  }

  /** Writing the length completes the image. */
  lemma ImageIs(s: Text, kind: Byte, length: nat, fields: Text)
    requires Filled(s, kind, fields) && length < 65536
    ensures Splice(s, 1, Be16(length)) == Image(kind, length, fields)
  {
    assert s[BODY + |fields|..] == Zeros(MESSAGE - BODY - |fields|);
    assert s[BODY..] == s[BODY..BODY + |fields|] + s[BODY + |fields|..];
  }

  // ---------------------------------------------------------------- what readers make of them

  /** The body of a server-to-client frame: stamp, 32-byte sender, text. */
  function ServerBody(stamp: bv64, sender: Text, size: nat, text: Text): Text
    requires size <= NAME_ARRAY
  {
    StampBytes(stamp) + (Copied(sender, size) + Zeros(NAME_ARRAY - size)) + text
  }

  /** A server response over whatever the body held before: behind the name and the text the old bytes stay. */
  function ResponseImage(before: Text, stamp: bv64, server: Text, text: Text): Text
    requires |before| == MESSAGE && |server| < NAME_ARRAY && |text| < TEXT_LEN
  {
    [SERVER_TO_CLIENT] + Be16(40 + |text|) + StampBytes(stamp)
    + (server + before[11 + |server|..43]) + (text + before[43 + |text|..])
  }

  /** What a reader makes of a transmitted image. */
  lemma DecodeImage(kind: Byte, length: nat, fields: Text)
    requires length < 65536 && length <= |fields| && BODY + |fields| <= MESSAGE
    ensures Decode(Transmitted(Image(kind, length, fields))) == Fields(kind, fields[..length])
  {
    TransmittedImage(kind, length, fields);
    var body := fields[..length];
    var b := [kind] + Be16(length) + body;
    assert b[1..BODY] == Be16(length) && b[BODY..] == body;
    Be16RoundTrip(length);
  }

  /** Reading a stamp's octets undoes writing them. */
  lemma StampRoundTrip(stamp: bv64)
    ensures ReadStamp(StampBytes(stamp)) == stamp
  {
    OctetsBack(BigEndian(stamp));
    AccumulatedIs(BigEndian(stamp));
    OctetsOfValue(stamp);
  }

  lemma FrontParts(a: Text, b: Text, n: nat)
    requires n <= |b|
    ensures var s := (a + b)[..|a| + n]; s[..|a|] == a && s[|a|..] == b[..n]
  {
  }

  lemma SeenFront(name: Text, size: nat)
    ensures |Seen(name, size)| <= size && Copied(name, size)[..|Seen(name, size)|] == Seen(name, size)
    ensures NUL !in Seen(name, size)
  {
    SeenIsRead(name, size, 0);
    assert forall b :: b in Seen(name, size) ==> b in CStr(name);
  }

  lemma AddedBody(octets: Text, name: Text)
    requires |octets| == 8 && NUL !in name
    ensures Fields(USER_ADD, octets + name) == Some(UserAdd(ReadStamp(octets), name))
  {
    assert (octets + name)[..8] == octets && (octets + name)[8..] == name;
    CStrIdentity(name);
  }

  lemma AddedFields(octets: Text, name: Text, size: nat)
    requires |octets| == 8 && size <= NAME_LEN
    ensures Fields(USER_ADD, (octets + Copied(name, size))[..8 + |Seen(name, size)|])
         == Some(UserAdd(ReadStamp(octets), Seen(name, size)))
  {
    SeenFront(name, size);
    FrontParts(octets, Copied(name, size), |Seen(name, size)|);
    assert (octets + Copied(name, size))[..8 + |Seen(name, size)|] == octets + Seen(name, size);
    AddedBody(octets, Seen(name, size));
  }

  /** The reader of a join frame recovers the stamp, and of the name as much as was copied. */
  lemma UserAddedRoundTrip(stamp: bv64, name: Text, size: nat)
    requires size <= NAME_LEN
    ensures Decode(Transmitted(Image(USER_ADD, 8 + |Seen(name, size)|, StampBytes(stamp) + Copied(name, size))))
         == Some(UserAdd(stamp, Seen(name, size)))
  {
    StampRoundTrip(stamp);
    AddedFields(StampBytes(stamp), name, size);
    DecodeImage(USER_ADD, 8 + |Seen(name, size)|, StampBytes(stamp) + Copied(name, size));
  }

  lemma RemovedFields(octets: Text, code: Byte, name: Text, size: nat)
    requires |octets| == 8 && size <= NAME_LEN
    ensures Fields(USER_REMOVE, (octets + [code] + Copied(name, size))[..9 + size])
         == Some(UserRemove(ReadStamp(octets), code, Seen(name, size)))
  {
    var body := octets + [code] + Copied(name, size);
    assert body[..9 + size] == body;
    assert body[..8] == octets && body[8] == code && body[9..] == Copied(name, size);
    SeenIsRead(name, size, 0);
    assert Copied(name, size) + Zeros(0) == Copied(name, size);
  }

  /** The reader of a departure frame recovers stamp and reason, and of the name as much as was copied. */
  lemma UserRemovedRoundTrip(stamp: bv64, code: Byte, name: Text, size: nat)
    requires size <= NAME_LEN
    ensures Decode(Transmitted(Image(USER_REMOVE, 9 + size, StampBytes(stamp) + [code] + Copied(name, size))))
         == Some(UserRemove(stamp, code, Seen(name, size)))
  {
    StampRoundTrip(stamp);
    RemovedFields(StampBytes(stamp), code, name, size);
    DecodeImage(USER_REMOVE, 9 + size, StampBytes(stamp) + [code] + Copied(name, size));
  }

  /** The reader of a login response recovers code and server name. */
  lemma LoginResponseRoundTrip(code: Byte, server: Text)
    requires NUL !in server && |server| < NAME_ARRAY
    ensures Decode(Transmitted(Image(LOGIN_RESPONSE, 5 + |server|, RESPONSE_MAGIC + [code] + server)))
         == Some(LoginResponse(code, server))
  {
    var body := RESPONSE_MAGIC + [code] + server;
    DecodeImage(LOGIN_RESPONSE, 5 + |server|, body);
    assert body[..5 + |server|] == body;
    assert body[..4] == RESPONSE_MAGIC && body[4] == code && body[5..] == server;
    CStrIdentity(server);
  }

  lemma LoginImage(code: Byte, server: Text)
    requires NUL !in server && |server| < NAME_ARRAY
    ensures var b := Image(LOGIN_RESPONSE, 5 + |server|, RESPONSE_MAGIC + [code] + server);
      b[3..7] == [0xc0, 0x01, 0xc0, 0x01] && Decode(Transmitted(b)) == Some(LoginResponse(code, server))
  {
    LoginResponseRoundTrip(code, server);
    assert Image(LOGIN_RESPONSE, 5 + |server|, RESPONSE_MAGIC + [code] + server)[3..7] == RESPONSE_MAGIC;
  }

  /** What is sent of a frame with more behind it. */
  lemma TransmittedFront(kind: Byte, body: Text, behind: Text)
    requires |body| < 65536 && BODY + |body| + |behind| == MESSAGE
    ensures Transmitted([kind] + Be16(|body|) + body + behind) == [kind] + Be16(|body|) + body
  {
    var front := [kind] + Be16(|body|) + body;
    assert (front + behind)[1..3] == Be16(|body|);
    Be16RoundTrip(|body|);
    assert (front + behind)[..|front|] == front;
  }

  lemma Regroup(a: Text, b: Text, c: Text, d: Text, e: Text, f: Text)
    ensures a + b + c + d + (e + f) == a + b + (c + d + e) + f
  {
  }

  lemma ResponseTransmitted(before: Text, stamp: bv64, server: Text, text: Text)
    requires |before| == MESSAGE && |server| < NAME_ARRAY && |text| < TEXT_LEN
    ensures Transmitted(ResponseImage(before, stamp, server, text))
         == [SERVER_TO_CLIENT] + Be16(40 + |text|) + (StampBytes(stamp) + (server + before[11 + |server|..43]) + text)
  {
    var sender := server + before[11 + |server|..43];
    Regroup([SERVER_TO_CLIENT], Be16(40 + |text|), StampBytes(stamp), sender, text, before[43 + |text|..]);
    TransmittedFront(SERVER_TO_CLIENT, StampBytes(stamp) + sender + text, before[43 + |text|..]);
  }

  lemma DecodeWhole(kind: Byte, body: Text)
    requires |body| < 65536
    ensures Decode([kind] + Be16(|body|) + body) == Fields(kind, body)
  {
    var b := [kind] + Be16(|body|) + body;
    assert b[1..BODY] == Be16(|body|) && b[BODY..] == body;
    Be16RoundTrip(|body|);
  }

  lemma ThreeParts(a: Text, b: Text, c: Text)
    ensures var s := a + b + c;
      s[..|a|] == a && s[|a|..|a| + |b|] == b && s[|a| + |b|..] == c && s[..|a| + |b| + |c|] == s
  {
  }

  lemma ServerFields(body: Text, stamp: bv64, sender: Text, text: Text)
    requires |body| >= 40 && ReadStamp(body[..8]) == stamp && CStr(body[8..40]) == sender && CStr(body[40..]) == text
    ensures Fields(SERVER_TO_CLIENT, body) == Some(ServerToClient(stamp, sender, text))
  {
  }

  lemma ResponseFields(stamp: bv64, sender: Text, text: Text)
    requires |sender| == NAME_ARRAY && NUL !in text
    ensures Fields(SERVER_TO_CLIENT, StampBytes(stamp) + sender + text) == Some(ServerToClient(stamp, CStr(sender), text))
  {
    ThreeParts(StampBytes(stamp), sender, text);
    StampRoundTrip(stamp);
    CStrIdentity(text);
    ServerFields(StampBytes(stamp) + sender + text, stamp, CStr(sender), text);
  }

  lemma NameReads(name: Text, behind: Text)
    requires NUL !in name && behind != []
    ensures CStr(name + behind) == name <==> behind[0] == NUL
  {
    if behind[0] == NUL { CStrUnique(name + behind, name); } else { assert (name + behind)[|name|] != NUL; }
  }

  /**
   The reader of a server response recovers stamp and text, and the name exactly when the byte
   behind it was zero before.
   */
  lemma ServerResponseRoundTrip(before: Text, stamp: bv64, server: Text, text: Text)
    requires |before| == MESSAGE && NUL !in server && |server| < NAME_ARRAY && NUL !in text && |text| < TEXT_LEN
    ensures Decode(Transmitted(ResponseImage(before, stamp, server, text)))
         == Some(ServerToClient(stamp, CStr(server + before[11 + |server|..43]), text))
    ensures CStr(server + before[11 + |server|..43]) == server <==> before[11 + |server|] == NUL
  {
    var sender := server + before[11 + |server|..43];
    ResponseTransmitted(before, stamp, server, text);
    DecodeWhole(SERVER_TO_CLIENT, StampBytes(stamp) + sender + text);
    ResponseFields(stamp, sender, text);
    NameReads(server, before[11 + |server|..43]);
  }

  lemma ServerReads(body: Text, stamp: bv64, sender: Text, size: nat, text: Text, n: nat)
    requires size <= NAME_ARRAY && |body| == 40 + n
    requires body[..8] == StampBytes(stamp)
    requires body[8..40] == Copied(sender, size) + Zeros(NAME_ARRAY - size)
    requires body[40..] == Copied(text, n)
    ensures ReadStamp(body[..8]) == stamp && CStr(body[8..40]) == Seen(sender, size)
    ensures CStr(body[40..]) == Seen(text, n)
  {
    assert ReadStamp(body[..8]) == stamp by { StampRoundTrip(stamp); }
    assert CStr(body[8..40]) == Seen(sender, size) by { SeenIsRead(sender, size, NAME_ARRAY - size); }
    assert CStr(body[40..]) == Seen(text, n) by {
      SeenIsRead(text, n, 0);
      assert Copied(text, n) + Zeros(0) == Copied(text, n);
    }
  }

  lemma ServerSlices(stamp: bv64, sender: Text, size: nat, text: Text, n: nat)
    requires size <= NAME_ARRAY
    ensures var body := ServerBody(stamp, sender, size, Copied(text, n));
      && |body| == 40 + n && body[..40 + n] == body
      && body[..8] == StampBytes(stamp)
      && body[8..40] == Copied(sender, size) + Zeros(NAME_ARRAY - size)
      && body[40..] == Copied(text, n)
  {
    ThreeParts(StampBytes(stamp), Copied(sender, size) + Zeros(NAME_ARRAY - size), Copied(text, n));
  }

  /** The reader of a server-to-client frame recovers the stamp, and of sender and text as much as was copied. */
  lemma ServerToClientRoundTrip(stamp: bv64, sender: Text, size: nat, text: Text, n: nat)
    requires size <= NAME_ARRAY && n < TEXT_LEN
    ensures Decode(Transmitted(Image(SERVER_TO_CLIENT, 40 + n, ServerBody(stamp, sender, size, Copied(text, n)))))
         == Some(ServerToClient(stamp, Seen(sender, size), Seen(text, n)))
  {
    var body := ServerBody(stamp, sender, size, Copied(text, n));
    ServerSlices(stamp, sender, size, text, n);
    ServerReads(body, stamp, sender, size, text, n);
    ServerFields(body, stamp, Seen(sender, size), Seen(text, n));
    DecodeImage(SERVER_TO_CLIENT, 40 + n, body);
  }

  // ---------------------------------------------------------------- the builders

  /** Fill the next field of a frame under construction. */
  method Fill(buffer: array<Byte>, at: nat, bytes: Text, ghost kind: Byte, ghost fields: Text)
    requires Filled(buffer[..], kind, fields) && at == BODY + |fields| && at + |bytes| <= MESSAGE
    modifies buffer
    ensures Filled(buffer[..], kind, fields + bytes)
  {
    FillNext(buffer[..], kind, fields, bytes);
    Write(buffer, at, bytes);
  }

  method FillString(buffer: array<Byte>, at: nat, source: Text, size: nat, ghost kind: Byte, ghost fields: Text)
    requires Filled(buffer[..], kind, fields) && at == BODY + |fields| && at + size <= MESSAGE
    requires |source| >= size || NUL in source
    modifies buffer
    ensures Filled(buffer[..], kind, fields + Copied(source, size))
  {
    FillNext(buffer[..], kind, fields, Copied(source, size));
    StrNCpyTo(buffer, at, source, size);
  }

  /** Set the type and the timestamp of a frame on a zeroed body. */
  method FillStamp(buffer: array<Byte>, kind: Byte, time: Option<bv64>, wanted: bool, e: Endian)
    requires buffer.Length == MESSAGE && ZeroFrom(buffer[..], BODY)
    modifies buffer
    ensures Filled(buffer[..], kind, StampBytes(Stamp(time, wanted)))
  {
    buffer[0] := kind;
    FillNext(buffer[..], kind, [], StampBytes(Stamp(time, wanted)));
    WriteStamp(buffer, time, wanted, e);
    assert [] + StampBytes(Stamp(time, wanted)) == StampBytes(Stamp(time, wanted));
  }

  /** Set the length, which completes the frame. */
  method Complete(buffer: array<Byte>, length: nat, ghost kind: Byte, ghost fields: Text)
    requires Filled(buffer[..], kind, fields) && length < 65536
    modifies buffer
    ensures buffer[..] == Image(kind, length, fields) && Header(buffer[..], kind, length)
  {
    ImageIs(buffer[..], kind, length, fields);
    ImageHeader(kind, length, fields);
    Write(buffer, 1, Be16(length));
  }

  lemma FieldReads(s: Text, kind: Byte, fields: Text, source: Text, size: nat)
    requires Filled(s, kind, fields + Copied(source, size))
    ensures CStr(s[BODY + |fields|..]) == Seen(source, size)
  {
    var at := BODY + |fields|;
    var pad := MESSAGE - at - size;
    assert s[at..at + size] == s[BODY..at + size][|fields|..] == Copied(source, size);
    assert s[at + size..] == Zeros(pad);
    assert s[at..] == s[at..at + size] + s[at + size..];
    SeenIsRead(source, size, pad);
  }

  /** `build_User_Added` on a zeroed body. */
  method BuildUserAdded(buffer: array<Byte>, name: Text, size: nat, wanted: bool, time: Option<bv64>, e: Endian)
    requires buffer.Length == MESSAGE && ZeroFrom(buffer[..], BODY)
    requires IsNameArray(name) && size <= NAME_LEN
    modifies buffer
    ensures buffer[..] ==
      Image(USER_ADD, 8 + |Seen(name, size)|, StampBytes(Stamp(time, wanted)) + Copied(name, size))
    ensures Header(buffer[..], 4, 8 + |Seen(name, size)|)
    ensures Decode(Transmitted(buffer[..])) ==
      Some(UserAdd(if wanted && time.Some? then time.value else 0, Seen(name, size)))
  {
    ghost var stamp := StampBytes(Stamp(time, wanted));
    FillStamp(buffer, USER_ADD, time, wanted, e);
    FillString(buffer, 11, name, size, USER_ADD, stamp);
    FieldReads(buffer[..], USER_ADD, stamp, name, size);
    var strlen := |CStr(buffer[11..])|;
    Complete(buffer, 8 + strlen, USER_ADD, stamp + Copied(name, size));
    UserAddedRoundTrip(Stamp(time, wanted), name, size);
  }

  /** `build_User_Removed` on a zeroed body. */
  method BuildUserRemoved(buffer: array<Byte>, code: Byte, name: Text, size: nat, time: Option<bv64>, e: Endian)
    requires buffer.Length == MESSAGE && ZeroFrom(buffer[..], BODY)
    requires IsNameArray(name) && size <= NAME_LEN
    modifies buffer
    ensures buffer[..] ==
      Image(USER_REMOVE, 9 + size, StampBytes(Stamp(time, true)) + [code] + Copied(name, size))
    ensures Header(buffer[..], 5, 9 + size)
    ensures Decode(Transmitted(buffer[..])) ==
      Some(UserRemove(if time.Some? then time.value else 0, code, Seen(name, size)))
  {
    ghost var stamp := StampBytes(Stamp(time, true));
    FillStamp(buffer, USER_REMOVE, time, true, e);
    Fill(buffer, 11, [code], USER_REMOVE, stamp);
    FillString(buffer, 12, name, size, USER_REMOVE, stamp + [code]);
    Complete(buffer, 9 + size, USER_REMOVE, stamp + [code] + Copied(name, size));
    UserRemovedRoundTrip(Stamp(time, true), code, name, size);
  }

  /** `build_login_response`, which zeroes the buffer itself. */
  method BuildLoginResponse(buffer: array<Byte>, code: Byte, server: Text)
    requires buffer.Length == MESSAGE && NUL !in server && |server| < NAME_ARRAY
    modifies buffer
    ensures buffer[..] == Image(LOGIN_RESPONSE, 5 + |server|, RESPONSE_MAGIC + [code] + server)
    ensures Header(buffer[..], 1, 5 + |server|) && buffer[3..7] == [0xc0, 0x01, 0xc0, 0x01]
    ensures Decode(Transmitted(buffer[..])) == Some(LoginResponse(code, server))
  {
    Write(buffer, 0, Zeros(MESSAGE));
    buffer[0] := LOGIN_RESPONSE;
    Fill(buffer, 3, RESPONSE_MAGIC, LOGIN_RESPONSE, []);
    Fill(buffer, 7, [code], LOGIN_RESPONSE, [] + RESPONSE_MAGIC);
    Fill(buffer, 8, server + [NUL], LOGIN_RESPONSE, [] + RESPONSE_MAGIC + [code]);
    ghost var fields := RESPONSE_MAGIC + [code] + server;
    assert [] + RESPONSE_MAGIC + [code] + (server + [NUL]) == fields + Zeros(1);
    DropZeros(buffer[..], LOGIN_RESPONSE, fields, 1);
    Complete(buffer, 5 + |server|, LOGIN_RESPONSE, fields);
    LoginImage(code, server);
  }

  /** A slice that a splice leaves alone, and the spliced one. */
  lemma SpliceSlice(s: Text, at: nat, bytes: Text, i: nat, j: nat)
    requires at + |bytes| <= |s| && i <= j <= |s| && (j <= at || at + |bytes| <= i)
    ensures Splice(s, at, bytes)[i..j] == s[i..j] && Splice(s, at, bytes)[at..at + |bytes|] == bytes
  {
  }

  lemma ResponseHeader(before: Text, stamp: bv64, server: Text, text: Text)
    requires |before| == MESSAGE && |server| < NAME_ARRAY && |text| < TEXT_LEN
    ensures Header(ResponseImage(before, stamp, server, text), SERVER_TO_CLIENT, 40 + |text|)
  {
    assert ResponseImage(before, stamp, server, text)[1..3] == Be16(40 + |text|);
    LengthInNetworkOrder(40 + |text|);
  }

  /** A buffer whose stretches are these is the response. */
  lemma ResponseIs(s: Text, before: Text, stamp: bv64, server: Text, text: Text)
    requires |s| == |before| == MESSAGE && |server| < NAME_ARRAY && |text| < TEXT_LEN
    requires s[0..1] == [SERVER_TO_CLIENT] && s[1..3] == Be16(40 + |text|) && s[3..11] == StampBytes(stamp)
    requires s[11..11 + |server|] == server && s[11 + |server|..43] == before[11 + |server|..43]
    requires s[43..43 + |text|] == text && s[43 + |text|..MESSAGE] == before[43 + |text|..MESSAGE]
    ensures s == ResponseImage(before, stamp, server, text)
  {
    assert s == s[0..1] + s[1..3] + s[3..11] + (s[11..11 + |server|] + s[11 + |server|..43])
              + (s[43..43 + |text|] + s[43 + |text|..MESSAGE]);
  }

  /** None of the writes touches the type, or the bytes behind the name and behind the text. */
  lemma KeptBy(s: Text, at: nat, bytes: Text, n: nat, m: nat)
    requires |s| == MESSAGE && 11 <= n <= 43 <= m <= MESSAGE && at + |bytes| <= MESSAGE && at >= 1
    requires at + |bytes| <= n || (43 <= at && at + |bytes| <= m)
    ensures var r := Splice(s, at, bytes); r[0..1] == s[0..1] && r[n..43] == s[n..43] && r[m..MESSAGE] == s[m..MESSAGE]
  {
    SpliceSlice(s, at, bytes, 0, 1);
    SpliceSlice(s, at, bytes, n, 43);
    SpliceSlice(s, at, bytes, m, MESSAGE);
  }

  /** The four writes of the builder, one after the other. */
  lemma ResponseSplices(before: Text, stamp: bv64, server: Text, text: Text)
    requires |before| == MESSAGE && before[0] == SERVER_TO_CLIENT && |server| < NAME_ARRAY && |text| < TEXT_LEN
    ensures Splice(Splice(Splice(Splice(before, 3, StampBytes(stamp)), 11, server), 43, text), 1, Be16(40 + |text|))
         == ResponseImage(before, stamp, server, text)
  {
    var n, m := 11 + |server|, 43 + |text|;
    var s1 := Splice(before, 3, StampBytes(stamp));
    var s2 := Splice(s1, 11, server);
    var s3 := Splice(s2, 43, text);
    var s4 := Splice(s3, 1, Be16(40 + |text|));
    KeptBy(before, 3, StampBytes(stamp), n, m);
    KeptBy(s1, 11, server, n, m);
    KeptBy(s2, 43, text, n, m);
    KeptBy(s3, 1, Be16(40 + |text|), n, m);
    SpliceSlice(s1, 11, server, 3, 11);
    SpliceSlice(s2, 43, text, 3, 11);
    SpliceSlice(s2, 43, text, 11, n);
    SpliceSlice(s3, 1, Be16(40 + |text|), 3, 11);
    SpliceSlice(s3, 1, Be16(40 + |text|), 11, n);
    SpliceSlice(s3, 1, Be16(40 + |text|), 43, m);
    ResponseIs(s4, before, stamp, server, text);
  }

  lemma CopiedWhole(text: Text)
    requires NUL !in text
    ensures Copied(text, |text|) == text
  {
    CStrIdentity(text);
  }

  /** `build_Server_response`, over any body; the text is what `vsnprintf` produced. */
  method BuildServerResponse(buffer: array<Byte>, server: Text, text: Text, time: Option<bv64>, e: Endian)
    requires buffer.Length == MESSAGE
    requires NUL !in server && |server| < NAME_ARRAY && NUL !in text && |text| < TEXT_LEN
    modifies buffer
    ensures buffer[..] == ResponseImage(old(buffer[..]), Stamp(time, true), server, text)
    ensures Header(buffer[..], 3, 40 + |text|)
    ensures Decode(Transmitted(buffer[..])) == Some(ServerToClient(
      if time.Some? then time.value else 0, CStr(server + old(buffer[..])[11 + |server|..43]), text))
  {
    ghost var before := old(buffer[..])[0 := SERVER_TO_CLIENT];
    buffer[0] := SERVER_TO_CLIENT;
    assert buffer[..] == before;
    WriteStamp(buffer, time, true, e);
    CopiedWhole(server);
    StrNCpyTo(buffer, 11, server, |server|);
    CopiedWhole(text);
    StrNCpyTo(buffer, 43, text, |text|);
    Write(buffer, 1, Be16(40 + |text|));
    ResponseSplices(before, Stamp(time, true), server, text);
    ResponseHeader(before, Stamp(time, true), server, text);
    ServerResponseRoundTrip(before, Stamp(time, true), server, text);
    assert before[11 + |server|..43] == old(buffer[..])[11 + |server|..43];
    assert before[43 + |text|..] == old(buffer[..])[43 + |text|..];
  }

  /** The shared tail of the server-to-client builders, on a zeroed body. */
  method FillServerBody(buffer: array<Byte>, sender: Text, size: nat, text: Text, n: nat, time: Option<bv64>, e: Endian)
    requires buffer.Length == MESSAGE && ZeroFrom(buffer[..], BODY)
    requires size <= NAME_ARRAY && (|sender| >= size || NUL in sender)
    requires n < TEXT_LEN && (|text| >= n || NUL in text)
    modifies buffer
    ensures buffer[..] ==
      Image(SERVER_TO_CLIENT, 40 + n, ServerBody(Stamp(time, true), sender, size, Copied(text, n)))
    ensures Header(buffer[..], 3, 40 + n)
  {
    ghost var kind, stamp := SERVER_TO_CLIENT, StampBytes(Stamp(time, true));
    FillStamp(buffer, SERVER_TO_CLIENT, time, true, e);
    FillString(buffer, 11, sender, size, kind, stamp);
    FillZeros(buffer[..], kind, stamp + Copied(sender, size), NAME_ARRAY - size);
    ghost var before := stamp + (Copied(sender, size) + Zeros(NAME_ARRAY - size));
    assert stamp + Copied(sender, size) + Zeros(NAME_ARRAY - size) == before;
    FillString(buffer, 43, text, n, kind, before);
    Complete(buffer, 40 + n, kind, before + Copied(text, n));
  }

  /**
   `build_Server_to_client`: the client's text is saved, the union cleared, and the text put
   back forty bytes further on. `n` is the client's length field, and the body behind the
   client's text array is zero, as the session loop leaves it.
   */
  method BuildServerToClient(buffer: array<Byte>, n: nat, sender: Text, size: nat, time: Option<bv64>, e: Endian)
    requires buffer.Length == MESSAGE && ZeroFrom(buffer[..], BODY + TEXT_LEN)
    requires n < TEXT_LEN && IsNameArray(sender) && size <= NAME_ARRAY
    modifies buffer
    ensures buffer[..] ==
      Image(SERVER_TO_CLIENT, 40 + n,
            ServerBody(Stamp(time, true), sender, size, Copied(old(buffer[BODY..BODY + TEXT_LEN]), n)))
    ensures Header(buffer[..], 3, 40 + n)
  {
    buffer[0] := SERVER_TO_CLIENT;
    var saved := buffer[BODY..BODY + TEXT_LEN];
    Write(buffer, BODY, Zeros(TEXT_LEN));
    assert ZeroFrom(buffer[..], BODY);
    FillServerBody(buffer, sender, size, saved, n, time, e);
  }

  // ---------------------------------------------------------------- a chat message through the buffer

  lemma RelayReads(s: Text, stamp: bv64, sender: Text, size: nat, text: Text, n: nat)
    requires size <= NAME_ARRAY && n < TEXT_LEN && |s| == MESSAGE
    requires s == Image(SERVER_TO_CLIENT, 40 + n, ServerBody(stamp, sender, size, Copied(text, n)))
    ensures Decode(Transmitted(s)) == Some(ServerToClient(stamp, Seen(sender, size), Seen(text, n)))
  {
    ServerToClientRoundTrip(stamp, sender, size, text, n);
  }

  /** The buffer cleared, and a client's header and text read into it. */
  method ReceiveText(buffer: array<Byte>, incoming: Text)
    requires buffer.Length == MESSAGE && |incoming| < TEXT_LEN
    modifies buffer
    ensures buffer[BODY..BODY + TEXT_LEN] == incoming + Zeros(TEXT_LEN - |incoming|)
    ensures ZeroFrom(buffer[..], BODY + TEXT_LEN)
  {
    Write(buffer, 0, Zeros(MESSAGE));
    buffer[0] := CLIENT_TO_SERVER;
    Write(buffer, 1, Be16(|incoming|));
    FillNext(buffer[..], CLIENT_TO_SERVER, [], incoming);
    Write(buffer, BODY, incoming);
    FillZeros(buffer[..], CLIENT_TO_SERVER, [] + incoming, TEXT_LEN - |incoming|);
    assert [] + incoming + Zeros(TEXT_LEN - |incoming|) == incoming + Zeros(TEXT_LEN - |incoming|);
  }

  /** Zeros behind a buffer do not change the string in it. */
  lemma ReadUpTo(buffer: Text, pad: nat)
    ensures CStr(buffer + Zeros(pad)) == CStr(buffer)
  {
    var text := CStr(buffer);
    assert |text| < |buffer + Zeros(pad)| ==> (buffer + Zeros(pad))[|text|] == NUL;
    CStrUnique(buffer + Zeros(pad), text);
  }

  lemma ReceivedIsSeen(incoming: Text, pad: nat)
    ensures Seen(incoming + Zeros(pad), |incoming|) == CStr(incoming)
  {
    ReadUpTo(incoming, pad);
    assert CStr(incoming)[..|CStr(incoming)|] == CStr(incoming);
  }

  /**
   A chat message through the server's buffer: cleared, read from the client into the text
   array, rewritten in place for the other clients. Whoever reads the result gets the
   client's text up to its first NUL, the sender's name as far as it is copied, and the stamp.
   */
  method Relay(buffer: array<Byte>, incoming: Text, sender: Text, size: nat, time: Option<bv64>, e: Endian)
    requires buffer.Length == MESSAGE && 0 < |incoming| < TEXT_LEN
    requires IsNameArray(sender) && size <= NAME_ARRAY
    modifies buffer
    ensures Header(buffer[..], 3, 40 + |incoming|)
    ensures Decode(Transmitted(buffer[..])) ==
      Some(ServerToClient(if time.Some? then time.value else 0, Seen(sender, size), CStr(incoming)))
  {
    var n := |incoming|;
    ghost var text := incoming + Zeros(TEXT_LEN - n);
    ReceiveText(buffer, incoming);
    ReceivedIsSeen(incoming, TEXT_LEN - n);
    BuildServerToClient(buffer, n, sender, size, time, e);
    RelayReads(buffer[..], Stamp(time, true), sender, size, text, n);
  }

  // ---------------------------------------------------------------- validating what was received

  datatype Validation =
    | Ignored | ReceivedLogin | ReceivedMessage | ReceivedCommand
    | InvalidLength | InvalidMagic | InvalidVersion | InvalidNameLength

  const SLASH: Byte := 47

  /**
   `network_Receive` on a complete read: later checks overwrite earlier verdicts, and the
   text-length verdict is always overwritten, so an oversized text is still passed on.
   */
  method NetworkReceive(kind: Byte, body: Text) returns (verdict: Validation)
    requires |body| <= MESSAGE - BODY
    ensures verdict == ReceivedLogin <==>
      kind == 0 && 5 < |body| < 37 && body[..4] == [0x0b, 0xad, 0xf0, 0x0d] && body[4] == 0
    ensures verdict == InvalidNameLength <==> kind == 0 && body != [] && !(5 < |body| < 37)
    ensures verdict == InvalidVersion <==> kind == 0 && 5 < |body| < 37 && body[4] != 0
    ensures verdict == InvalidMagic <==>
      kind == 0 && 5 < |body| < 37 && body[4] == 0 && body[..4] != [0x0b, 0xad, 0xf0, 0x0d]
    ensures verdict == ReceivedCommand <==> kind == 2 && body != [] && body[0] == 47
    ensures verdict == ReceivedMessage <==> kind == 2 && body != [] && body[0] != 47
    ensures verdict == InvalidLength <==> body == []
  {
    if |body| == 0 { return InvalidLength; }
    verdict := Ignored;
    var union := body + Zeros(MESSAGE - BODY - |body|);
    if kind == LOGIN_REQUEST {
      verdict := ReceivedLogin;
      if union[..4] != REQUEST_MAGIC { verdict := InvalidMagic; }
      if union[4] != 0 { verdict := InvalidVersion; }
      if !(|body| > 5 && |body| < 37) { verdict := InvalidNameLength; }
      assert |body| > 5 ==> union[..4] == body[..4];
    } else if kind == CLIENT_TO_SERVER {
      if !(|body| > 0 && |body| < TEXT_LEN) { verdict := InvalidNameLength; }
      if union[0] == SLASH { verdict := ReceivedCommand; } else { verdict := ReceivedMessage; }
    }
  }
}
