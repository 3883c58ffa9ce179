/**
  Socket addresses across the C boundary: `std_addr_to_c` stores a structure in caller memory and
  `std_addr_from_c` reads one back, on hosts of either byte order and with the Unix, BSD and
  Windows layouts (sections 3.3 and 3.4 of RFC 3493).
 */
module SocketAddress {

  import opened SharedTypes

  type U16 = x: int | 0 <= x < 0x1_0000
  type U32 = x: int | 0 <= x < 0x1_0000_0000

  datatype Os = Linux | Windows | Apple | FreeBsd | DragonFly | OpenBsd | NetBsd

  datatype Platform = Platform(os: Os, bigEndian: bool)

  /** The structures start with a length byte and a one-byte family. */
  predicate HasLength(os: Os) {
    os.Apple? || os.FreeBsd? || os.DragonFly? || os.OpenBsd? || os.NetBsd?
  }

  const AF_INET: Byte := 2

  function AfInet6(os: Os): Byte {
    match os
    case Linux => 10
    case Windows => 23
    case Apple => 30
    case FreeBsd => 28
    case DragonFly => 28
    case OpenBsd => 24
    case NetBsd => 24
  }

  const SIZE_V4: nat := 16
  const SIZE_V6: nat := 28

  datatype SocketAddr =
    | V4(ip: seq<Byte>, port: U16)
    | V6(ip: seq<Byte>, port: U16, flowInfo: U32, scopeId: U32)

  predicate Proper(a: SocketAddr) {
    |a.ip| == if a.V4? then 4 else 16
  }

  // ---------------------------------------------------------------------------------------------
  // Integers in memory

  function Swap16(x: U16): U16 {
    Word16(x % 0x100, x / 0x100)
  }

  function Swap32(x: U32): U32 {
    Word32(x % 0x100, x / 0x100 % 0x100, x / 0x100 / 0x100 % 0x100, x / 0x100 / 0x100 / 0x100)
  }

  /** `to_be` and `from_be`: the same exchange of bytes on a little-endian host, nothing on a big-endian one. */
  function Be16(p: Platform, x: U16): U16 {
    if p.bigEndian then x else Swap16(x)
  }

  function Be32(p: Platform, x: U32): U32 {
    if p.bigEndian then x else Swap32(x)
  }

  /** The most significant byte first. */
  function Network16(x: U16): (bs: seq<Byte>)
    ensures |bs| == 2
  {
    [x / 0x100, x % 0x100]
  }

  function Network32(x: U32): (bs: seq<Byte>)
    ensures |bs| == 4
  {
    [x / 0x100 / 0x100 / 0x100, x / 0x100 / 0x100 % 0x100, x / 0x100 % 0x100, x % 0x100]
  }

  /** An integer as the host stores it. */
  function Stored16(p: Platform, x: U16): (bs: seq<Byte>)
    ensures |bs| == 2
  {
    if p.bigEndian then Network16(x) else Network16(Swap16(x))
  }

  function Stored32(p: Platform, x: U32): (bs: seq<Byte>)
    ensures |bs| == 4
  {
    if p.bigEndian then Network32(x) else Network32(Swap32(x))
  }

  function Word16(b0: Byte, b1: Byte): U16 {
    b0 * 0x100 + b1
  }

  function Word32(b0: Byte, b1: Byte, b2: Byte, b3: Byte): U32 {
    ((b0 * 0x100 + b1) * 0x100 + b2) * 0x100 + b3
  }

  /** The integer a host loads from memory. */
  function Loaded16(p: Platform, bs: seq<Byte>): U16
    requires |bs| == 2
  {
    if p.bigEndian then Word16(bs[0], bs[1]) else Word16(bs[1], bs[0])
  }

  function Loaded32(p: Platform, bs: seq<Byte>): U32
    requires |bs| == 4
  {
    if p.bigEndian then Word32(bs[0], bs[1], bs[2], bs[3]) else Word32(bs[3], bs[2], bs[1], bs[0])
  }

  lemma Shift(x: nat, b: Byte)
    ensures (x * 0x100 + b) / 0x100 == x && (x * 0x100 + b) % 0x100 == b
  {
  }

  lemma Words16(b0: Byte, b1: Byte)
    ensures Network16(Word16(b0, b1)) == [b0, b1]
    ensures Swap16(Word16(b0, b1)) == Word16(b1, b0)
  {
    Shift(b0, b1);
  }

  lemma Words32(b0: Byte, b1: Byte, b2: Byte, b3: Byte)
    ensures Network32(Word32(b0, b1, b2, b3)) == [b0, b1, b2, b3]
    ensures Swap32(Word32(b0, b1, b2, b3)) == Word32(b3, b2, b1, b0)
  {
    Shift((b0 * 0x100 + b1) * 0x100 + b2, b3);
    Shift(b0 * 0x100 + b1, b2);
    Shift(b0, b1);
  }

  lemma Bytes16(x: U16)
    ensures x == Word16(x / 0x100, x % 0x100)
  {
  }

  lemma Bytes32(x: U32)
    ensures x == Word32(x / 0x100 / 0x100 / 0x100, x / 0x100 / 0x100 % 0x100, x / 0x100 % 0x100, x % 0x100)
  {
    var y := x / 0x100;
    var z := y / 0x100;
    assert x == y * 0x100 + x % 0x100;
    assert y == z * 0x100 + y % 0x100;
    assert z == z / 0x100 * 0x100 + z % 0x100;
  }

  /** What is stored is loaded, and what is loaded was stored. */
  lemma StoreLoad16(p: Platform, x: U16, bs: seq<Byte>)
    requires |bs| == 2
    ensures Loaded16(p, Stored16(p, x)) == x
    ensures Stored16(p, Loaded16(p, bs)) == bs
  {
    Bytes16(x);
    Words16(x / 0x100, x % 0x100);
    Words16(x % 0x100, x / 0x100);
    Words16(bs[0], bs[1]);
    Words16(bs[1], bs[0]);
  }

  lemma StoreLoad32(p: Platform, x: U32, bs: seq<Byte>)
    requires |bs| == 4
    ensures Loaded32(p, Stored32(p, x)) == x
    ensures Stored32(p, Loaded32(p, bs)) == bs
  {
    Bytes32(x);
    var b0, b1, b2, b3 := x / 0x100 / 0x100 / 0x100, x / 0x100 / 0x100 % 0x100, x / 0x100 % 0x100, x % 0x100;
    Words32(b0, b1, b2, b3);
    Words32(b3, b2, b1, b0);
    Words32(bs[0], bs[1], bs[2], bs[3]);
    Words32(bs[3], bs[2], bs[1], bs[0]);
  }

  /** Storing `to_be` of a port puts its bytes in network order on every host; loading and `from_be` undo it. */
  lemma NetworkOrder16(p: Platform, x: U16, bs: seq<Byte>)
    requires |bs| == 2
    ensures Stored16(p, Be16(p, x)) == Network16(x)
    ensures Be16(p, Loaded16(p, bs)) == Word16(bs[0], bs[1])
  {
    Bytes16(x);
    Words16(x / 0x100, x % 0x100);
    Words16(x % 0x100, x / 0x100);
    Words16(bs[1], bs[0]);
  }

  lemma PortIsReadBack(p: Platform, x: U16)
    ensures Be16(p, Loaded16(p, Network16(x))) == x
  {
    NetworkOrder16(p, x, Network16(x));
    Bytes16(x);
  }

  /** The address as a host word, `from_be`, and back to octets: the octets in memory. */
  lemma NetworkOrder32(p: Platform, bs: seq<Byte>)
    requires |bs| == 4
    ensures Network32(Be32(p, Loaded32(p, bs))) == bs
  {
    Words32(bs[0], bs[1], bs[2], bs[3]);
    Words32(bs[3], bs[2], bs[1], bs[0]);
  }

  lemma PortIsStoredBack(p: Platform, bs: seq<Byte>)
    requires |bs| == 2
    ensures Network16(Be16(p, Loaded16(p, bs))) == bs
  {
    NetworkOrder16(p, 0, bs);
    Words16(bs[0], bs[1]);
  }

  // ---------------------------------------------------------------------------------------------
  // The structures, byte by byte

  /** Length and family, or family alone. */
  function Head(p: Platform, family: Byte, size: Byte): (bs: seq<Byte>)
    ensures |bs| == 2
  {
    if HasLength(p.os) then [size, family] else Stored16(p, family)
  }

  /** The structure for an address: port and address octets in network order, the rest as the host stores it. */
  function Structure(p: Platform, a: SocketAddr): (bs: seq<Byte>)
    requires Proper(a)
    ensures |bs| == if a.V4? then SIZE_V4 else SIZE_V6
  {
    match a
    case V4(ip, port) => Head(p, AF_INET, SIZE_V4) + Network16(port) + ip + [0, 0, 0, 0, 0, 0, 0, 0]
    case V6(ip, port, flowInfo, scopeId) =>
      Head(p, AfInet6(p.os), SIZE_V6) + Network16(port) + Stored32(p, flowInfo) + ip + Stored32(p, scopeId)
  }

  function Family(p: Platform, bs: seq<Byte>): int
    requires |bs| >= 2
  {
    if HasLength(p.os) then bs[1] else Loaded16(p, bs[0..2])
  }

  lemma HeadFamily(p: Platform, family: Byte, size: Byte)
    ensures Family(p, Head(p, family, size)) == family
  {
    StoreLoad16(p, family, [0, 0]);
    assert Stored16(p, family)[0..2] == Stored16(p, family);
  }

  datatype Parsed =
    | Parsed(addr: SocketAddr)
    | BadLength          // the assertion on the length fails
    | UnsupportedFamily  // neither address family

  function Octets(p: Platform, bs: seq<Byte>): (ip: seq<Byte>)
    requires |bs| == 4
    ensures |ip| == 4
  {
    // Windows reads the four bytes of the union; elsewhere the address is a word in network order
    if p.os.Windows? then bs else Network32(Be32(p, Loaded32(p, bs)))
  }

  /** `memory` starts at the `sockaddr` reference and holds at least what the length announces. */
  function StdAddrFromC(p: Platform, memory: seq<Byte>, addrLen: int): (r: Parsed)
    requires |memory| >= SIZE_V4 && |memory| >= addrLen
    ensures r.Parsed? ==> Proper(r.addr)
  {
    var family := Family(p, memory);
    if family == AF_INET then
      if addrLen != SIZE_V4 then BadLength
      else Parsed(V4(Octets(p, memory[4..8]), Be16(p, Loaded16(p, memory[2..4]))))
    else if family == AfInet6(p.os) then
      if addrLen != SIZE_V6 then BadLength
      else Parsed(V6(memory[8..24], Be16(p, Loaded16(p, memory[2..4])), Loaded32(p, memory[4..8]), Loaded32(p, memory[24..28])))
    else UnsupportedFamily
  }

  // ---------------------------------------------------------------------------------------------
  // Storing

  /** Stores the bytes behind what is already there; everything after them stays. */
  method Put(out: array<Byte>, at: nat, bs: seq<Byte>)
    requires at + |bs| <= out.Length
    modifies out
    ensures out[..at + |bs|] == old(out[..at]) + bs
    ensures forall i :: at + |bs| <= i < out.Length ==> out[i] == old(out[i])
  {
    forall i | 0 <= i < |bs| {
      out[at + i] := bs[i];
    }
  }

  method PutHead(p: Platform, out: array<Byte>, family: Byte, size: Byte)
    requires out.Length >= SIZE_V6
    modifies out
    ensures out[..2] == Head(p, family, size)
    ensures forall i :: 2 <= i < out.Length ==> out[i] == old(out[i])
  {
    if HasLength(p.os) {
      Put(out, 0, [size]);
      Put(out, 1, [family]);
    } else {
      Put(out, 0, Stored16(p, family));
    }
  }

  method PutV4(p: Platform, sinPort: seq<Byte>, sinAddr: seq<Byte>, out: array<Byte>)
    requires |sinPort| == 2 && |sinAddr| == 4 && out.Length >= SIZE_V6
    modifies out
    ensures out[..SIZE_V4] == Head(p, AF_INET, SIZE_V4) + sinPort + sinAddr + [0, 0, 0, 0, 0, 0, 0, 0]
    ensures forall i :: SIZE_V4 <= i < out.Length ==> out[i] == old(out[i])
  {
    PutHead(p, out, AF_INET, SIZE_V4);
    Put(out, 2, sinPort);
    Put(out, 4, sinAddr);
    Put(out, 8, [0, 0, 0, 0, 0, 0, 0, 0]);
  }

  method PutV6(p: Platform, sin6Port: seq<Byte>, flowInfo: seq<Byte>, sin6Addr: seq<Byte>, scopeId: seq<Byte>, out: array<Byte>)
    requires |sin6Port| == 2 && |flowInfo| == 4 && |sin6Addr| == 16 && |scopeId| == 4 && out.Length >= SIZE_V6
    modifies out
    ensures out[..SIZE_V6] == Head(p, AfInet6(p.os), SIZE_V6) + sin6Port + flowInfo + sin6Addr + scopeId
    ensures forall i :: SIZE_V6 <= i < out.Length ==> out[i] == old(out[i])
  {
    PutHead(p, out, AfInet6(p.os), SIZE_V6);
    Put(out, 2, sin6Port);
    Put(out, 4, flowInfo);
    Put(out, 8, sin6Addr);
    Put(out, 24, scopeId);
  }

  /** The port field: `to_be`, then stored. */
  method SinPort(p: Platform, port: U16) returns (bs: seq<Byte>)
    ensures bs == Network16(port)
  {
    NetworkOrder16(p, port, [0, 0]);
    bs := Stored16(p, Be16(p, port));
  }

  /** The IPv4 address field: `from_ne_bytes` of the octets, then stored. */
  method SinAddr(p: Platform, ip: seq<Byte>) returns (bs: seq<Byte>)
    requires |ip| == 4
    ensures bs == ip
  {
    StoreLoad32(p, 0, ip);
    bs := Stored32(p, Loaded32(p, ip));
  }

  /**
    `std_addr_to_c`: the fields are stored one after the other, each computed as the program
    computes it; storage behind the structure is left alone.
   */
  method StdAddrToC(p: Platform, addr: SocketAddr, out: array<Byte>) returns (len: nat)
    requires Proper(addr) && out.Length >= SIZE_V6
    modifies out
    ensures len == if addr.V4? then SIZE_V4 else SIZE_V6
    ensures out[..] == Structure(p, addr) + old(out[len..])
  {
    ghost var before := out[..];
    var sinPort := SinPort(p, addr.port);
    match addr {
      case V4(ip, _) =>
        var sinAddr := SinAddr(p, ip);
        PutV4(p, sinPort, sinAddr, out);
        len := SIZE_V4;
      case V6(ip, _, flowInfo, scopeId) =>
        PutV6(p, sinPort, Stored32(p, flowInfo), ip, Stored32(p, scopeId), out);
        len := SIZE_V6;
    }
    assert out[..] == out[..len] + out[len..];
    assert out[len..] == before[len..];
  }

  // ---------------------------------------------------------------------------------------------
  // The bytes themselves

  /** The first two bytes of a structure of this family, on each system and byte order. */
  predicate Announces(p: Platform, family: int, size: int, b0: int, b1: int) {
    match p.os
    case Linux => if p.bigEndian then b0 == 0 && b1 == family else b0 == family && b1 == 0
    case Windows => if p.bigEndian then b0 == 0 && b1 == family else b0 == family && b1 == 0
    case Apple => b0 == size && b1 == family
    case FreeBsd => b0 == size && b1 == family
    case DragonFly => b0 == size && b1 == family
    case OpenBsd => b0 == size && b1 == family
    case NetBsd => b0 == size && b1 == family
  }

  /** Four bytes as a number, the most significant first. */
  function Number(b3: int, b2: int, b1: int, b0: int): int {
    b3 * 0x100_0000 + b2 * 0x1_0000 + b1 * 0x100 + b0
  }

  lemma OneByteFamily(p: Platform, family: Byte)
    ensures Stored16(p, family) == if p.bigEndian then [0, family] else [family, 0]
  {
    Words16(0, family);
    Words16(family, 0);
    assert Word16(0, family) == family;
  }

  lemma HeadBytes(p: Platform, family: Byte, size: Byte)
    ensures Announces(p, family, size, Head(p, family, size)[0], Head(p, family, size)[1])
  {
    OneByteFamily(p, family);
  }

  lemma PortBytes(x: U16)
    ensures Number(0, 0, Network16(x)[0], Network16(x)[1]) == x
  {
    Bytes16(x);
  }

  lemma WordBytes(p: Platform, x: U32)
    ensures var bs := Stored32(p, x);
            x == if p.bigEndian then Number(bs[0], bs[1], bs[2], bs[3]) else Number(bs[3], bs[2], bs[1], bs[0])
  {
    StoreLoad32(p, x, [0, 0, 0, 0]);
    var bs := Stored32(p, x);
    assert Loaded32(p, bs) == x;
  }

  /**
    The stored structure byte by byte: length and family as each system lays them out, the port
    most significant byte first, the octets in order, flow info and scope id as the host stores them.
   */
  lemma StructureBytes(p: Platform, a: SocketAddr)
    requires Proper(a)
    ensures var bs := Structure(p, a);
            match a
            case V4(ip, port) =>
              && |bs| == 16 && Announces(p, 2, 16, bs[0], bs[1])
              && Number(0, 0, bs[2], bs[3]) == port && bs[4..8] == ip && bs[8..16] == [0, 0, 0, 0, 0, 0, 0, 0]
            case V6(ip, port, flowInfo, scopeId) =>
              var family := match p.os
                            case Linux => 10 case Windows => 23 case Apple => 30 case FreeBsd => 28
                            case DragonFly => 28 case OpenBsd => 24 case NetBsd => 24;
              && |bs| == 28 && Announces(p, family, 28, bs[0], bs[1])
              && Number(0, 0, bs[2], bs[3]) == port && bs[8..24] == ip
              && flowInfo == (if p.bigEndian then Number(bs[4], bs[5], bs[6], bs[7]) else Number(bs[7], bs[6], bs[5], bs[4]))
              && scopeId == (if p.bigEndian then Number(bs[24], bs[25], bs[26], bs[27]) else Number(bs[27], bs[26], bs[25], bs[24]))
  {
    var bs := Structure(p, a);
    PortBytes(a.port);
    match a
    case V4(_, _) =>
      HeadBytes(p, AF_INET, SIZE_V4);
      assert bs[0..2] == Head(p, AF_INET, SIZE_V4) && bs[2..4] == Network16(a.port);
    case V6(_, _, flowInfo, scopeId) =>
      HeadBytes(p, AfInet6(p.os), SIZE_V6);
      WordBytes(p, flowInfo);
      WordBytes(p, scopeId);
      assert bs[0..2] == Head(p, AfInet6(p.os), SIZE_V6) && bs[2..4] == Network16(a.port);
      assert bs[4..8] == Stored32(p, flowInfo) && bs[24..28] == Stored32(p, scopeId);
  }

  // ---------------------------------------------------------------------------------------------
  // Round trips

  lemma StoredV4IsReadBack(p: Platform, a: SocketAddr, memory: seq<Byte>)
    requires Proper(a) && a.V4? && Structure(p, a) <= memory
    ensures StdAddrFromC(p, memory, SIZE_V4) == Parsed(a)
  {
    HeadFamily(p, AF_INET, SIZE_V4);
    assert memory[0..2] == Head(p, AF_INET, SIZE_V4) && memory[2..4] == Network16(a.port) && memory[4..8] == a.ip;
    PortIsReadBack(p, a.port);
    NetworkOrder32(p, a.ip);
  }

  lemma StoredV6IsReadBack(p: Platform, a: SocketAddr, memory: seq<Byte>)
    requires Proper(a) && a.V6? && Structure(p, a) <= memory
    ensures StdAddrFromC(p, memory, SIZE_V6) == Parsed(a)
  {
    HeadFamily(p, AfInet6(p.os), SIZE_V6);
    assert memory[0..2] == Head(p, AfInet6(p.os), SIZE_V6) && memory[2..4] == Network16(a.port);
    assert memory[4..8] == Stored32(p, a.flowInfo) && memory[8..24] == a.ip && memory[24..28] == Stored32(p, a.scopeId);
    PortIsReadBack(p, a.port);
    StoreLoad32(p, a.flowInfo, [0, 0, 0, 0]);
    StoreLoad32(p, a.scopeId, [0, 0, 0, 0]);
  }

  /** Every address survives: what was stored, followed by any bytes, is read back with the returned length. */
  lemma StoredAddressIsReadBack(p: Platform, a: SocketAddr, rest: seq<Byte>)
    requires Proper(a)
    ensures var bs := Structure(p, a);
            StdAddrFromC(p, bs + rest, |bs|) == Parsed(a)
  {
    match a
    case V4(_, _) => StoredV4IsReadBack(p, a, Structure(p, a) + rest);
    case V6(_, _, _, _) => StoredV6IsReadBack(p, a, Structure(p, a) + rest);
  }

  /** The bytes that reading ignores are what storing writes: padding is zero, the length byte right. */
  predicate Canonical(p: Platform, memory: seq<Byte>, addrLen: int)
    requires |memory| >= SIZE_V4
  {
    && (HasLength(p.os) ==> memory[0] == addrLen)
    && (Family(p, memory) == AF_INET ==> memory[8..16] == [0, 0, 0, 0, 0, 0, 0, 0])
  }

  lemma HeadIsRead(p: Platform, memory: seq<Byte>, size: Byte)
    requires |memory| >= 2 && Family(p, memory) < 0x100
    ensures Head(p, Family(p, memory), size) == if HasLength(p.os) then [size, memory[1]] else memory[0..2]
  {
    StoreLoad16(p, 0, memory[0..2]);
  }

  lemma SplitV4(x: seq<Byte>, y: seq<Byte>)
    requires |x| == |y| == SIZE_V4 && x[2..4] == y[2..4] && x[4..8] == y[4..8]
    ensures x == y <==> x[0..2] == y[0..2] && x[8..16] == y[8..16]
  {
    assert x == x[0..2] + x[2..4] + x[4..8] + x[8..16];
    assert y == y[0..2] + y[2..4] + y[4..8] + y[8..16];
  }

  lemma SplitV6(x: seq<Byte>, y: seq<Byte>)
    requires |x| == |y| == SIZE_V6 && x[2..4] == y[2..4] && x[4..8] == y[4..8] && x[8..24] == y[8..24] && x[24..28] == y[24..28]
    ensures x == y <==> x[0..2] == y[0..2]
  {
    assert x == x[0..2] + x[2..4] + x[4..8] + x[8..24] + x[24..28];
    assert y == y[0..2] + y[2..4] + y[4..8] + y[8..24] + y[24..28];
  }

  /** The fields of a structure that both families have, at their offsets, port and octets in network order. */
  predicate Describes(p: Platform, a: SocketAddr, memory: seq<Byte>)
    requires |memory| >= if a.V4? then SIZE_V4 else SIZE_V6
  {
    match a
    case V4(ip, port) => Network16(port) == memory[2..4] && ip == memory[4..8]
    case V6(ip, port, flowInfo, scopeId) =>
      && Network16(port) == memory[2..4] && Stored32(p, flowInfo) == memory[4..8]
      && ip == memory[8..24] && Stored32(p, scopeId) == memory[24..28]
  }

  lemma ReadsV4(p: Platform, memory: seq<Byte>)
    requires |memory| >= SIZE_V4 && Family(p, memory) == AF_INET
    ensures var r := StdAddrFromC(p, memory, SIZE_V4);
            r.Parsed? && r.addr.V4? && Describes(p, r.addr, memory)
  {
    PortIsStoredBack(p, memory[2..4]);
    NetworkOrder32(p, memory[4..8]);
  }

  lemma ReadsV6(p: Platform, memory: seq<Byte>)
    requires |memory| >= SIZE_V6 && Family(p, memory) == AfInet6(p.os)
    ensures var r := StdAddrFromC(p, memory, SIZE_V6);
            r.Parsed? && r.addr.V6? && Describes(p, r.addr, memory)
  {
    PortIsStoredBack(p, memory[2..4]);
    StoreLoad32(p, 0, memory[4..8]);
    StoreLoad32(p, 0, memory[24..28]);
  }

  lemma SlicesV4(p: Platform, a: SocketAddr)
    requires Proper(a) && a.V4?
    ensures var bs := Structure(p, a);
            && |bs| == SIZE_V4 && bs[0..2] == Head(p, AF_INET, SIZE_V4) && Describes(p, a, bs)
            && bs[8..16] == [0, 0, 0, 0, 0, 0, 0, 0]
  {
  }

  lemma SlicesV6(p: Platform, a: SocketAddr)
    requires Proper(a) && a.V6?
    ensures var bs := Structure(p, a);
            |bs| == SIZE_V6 && bs[0..2] == Head(p, AfInet6(p.os), SIZE_V6) && Describes(p, a, bs)
  {
  }

  lemma ReadV4IsStoredBack(p: Platform, bytes: seq<Byte>)
    requires |bytes| == SIZE_V4 && Family(p, bytes) == AF_INET
    ensures var a := StdAddrFromC(p, bytes, SIZE_V4).addr;
            Structure(p, a) == bytes <==> Canonical(p, bytes, SIZE_V4)
  {
    var a := StdAddrFromC(p, bytes, SIZE_V4).addr;
    ReadsV4(p, bytes);
    SlicesV4(p, a);
    HeadIsRead(p, bytes, SIZE_V4);
    SplitV4(Structure(p, a), bytes);
  }

  lemma ReadV6IsStoredBack(p: Platform, bytes: seq<Byte>)
    requires |bytes| == SIZE_V6 && Family(p, bytes) == AfInet6(p.os)
    ensures var a := StdAddrFromC(p, bytes, SIZE_V6).addr;
            Structure(p, a) == bytes <==> Canonical(p, bytes, SIZE_V6)
  {
    var a := StdAddrFromC(p, bytes, SIZE_V6).addr;
    ReadsV6(p, bytes);
    SlicesV6(p, a);
    HeadIsRead(p, bytes, SIZE_V6);
    SplitV6(Structure(p, a), bytes);
  }

  /** Only the announced bytes matter. */
  lemma OnlyAnnouncedBytesMatter(p: Platform, memory: seq<Byte>, addrLen: int)
    requires |memory| >= addrLen >= SIZE_V4
    ensures StdAddrFromC(p, memory[..addrLen], addrLen) == StdAddrFromC(p, memory, addrLen)
    ensures Canonical(p, memory[..addrLen], addrLen) <==> Canonical(p, memory, addrLen)
    ensures Family(p, memory[..addrLen]) == Family(p, memory)
  {
    var bytes := memory[..addrLen];
    assert bytes[0..2] == memory[0..2] && bytes[2..4] == memory[2..4] && bytes[4..8] == memory[4..8] && bytes[8..16] == memory[8..16];
    if addrLen == SIZE_V6 {
      assert bytes[8..24] == memory[8..24] && bytes[24..28] == memory[24..28];
    }
  }

  /** Reading an address and storing it again gives the bytes read, if and only if they are canonical. */
  lemma ReadAddressIsStoredBack(p: Platform, memory: seq<Byte>, addrLen: int)
    requires |memory| >= SIZE_V4 && |memory| >= addrLen
    requires StdAddrFromC(p, memory, addrLen).Parsed?
    ensures var a := StdAddrFromC(p, memory, addrLen).addr;
            addrLen >= 0 && (Structure(p, a) == memory[..addrLen] <==> Canonical(p, memory, addrLen))
  {
    OnlyAnnouncedBytesMatter(p, memory, addrLen);
    if Family(p, memory) == AF_INET {
      ReadV4IsStoredBack(p, memory[..addrLen]);
    } else {
      ReadV6IsStoredBack(p, memory[..addrLen]);
    }
  }

  /** On every system the family read is the one the first two bytes announce. */
  lemma FamilyBytes(p: Platform, memory: seq<Byte>, family: Byte)
    requires |memory| >= 2
    ensures Family(p, memory) == family <==> Announces(p, family, memory[0], memory[0], memory[1])
  {
    if !HasLength(p.os) {
      StoreLoad16(p, family, memory[0..2]);
      OneByteFamily(p, family);
    }
  }

  /**
    Reading succeeds exactly on the two families with the length of their structure, and gives
    the address whose stored fields are the bytes in memory.
   */
  lemma ReadsExactlyItsFamilies(p: Platform, memory: seq<Byte>, addrLen: int)
    requires |memory| >= SIZE_V4 && |memory| >= addrLen
    ensures var r := StdAddrFromC(p, memory, addrLen);
            var inet6 := match p.os
                         case Linux => 10 case Windows => 23 case Apple => 30 case FreeBsd => 28
                         case DragonFly => 28 case OpenBsd => 24 case NetBsd => 24;
            // the length byte is not looked at
            var v4 := Announces(p, 2, memory[0], memory[0], memory[1]) && addrLen == 16;
            var v6 := Announces(p, inet6, memory[0], memory[0], memory[1]) && addrLen == 28;
            && (r.Parsed? <==> v4 || v6)
            && (r.UnsupportedFamily? <==>
                  !Announces(p, 2, memory[0], memory[0], memory[1]) && !Announces(p, inet6, memory[0], memory[0], memory[1]))
            && (v4 ==> r.addr.V4? && Describes(p, r.addr, memory))
            && (v6 ==> r.addr.V6? && Describes(p, r.addr, memory))
  {
    FamilyBytes(p, memory, AF_INET);
    FamilyBytes(p, memory, AfInet6(p.os));
    if Family(p, memory) == AF_INET && addrLen == SIZE_V4 {
      ReadsV4(p, memory);
    } else if Family(p, memory) == AfInet6(p.os) && addrLen == SIZE_V6 {
      ReadsV6(p, memory);
    }
  }
}
