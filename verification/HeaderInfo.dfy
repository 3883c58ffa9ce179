/** `quiche_header_info`: a parsed packet header copied, stage by stage, into the caller's buffers. */
module HeaderInfo {
  import opened SharedTypes

  datatype PacketType = Initial | Retry | Handshake | ZeroRtt | Short | VersionNegotiation

  datatype PacketToken = NoToken | PacketToken(bytes: seq<Byte>)

  datatype Header = Header(version: nat, ty: PacketType, scid: seq<Byte>, dcid: seq<Byte>, token: PacketToken)

  /** What parsing the packet gives; the parser is not part of this model, its error codes are negative. */
  datatype Parse = Parsed(header: Header) | Failed(code: int)

  const TOO_SHORT: int := -1

  function TypeCode(ty: PacketType): nat {
    match ty
    case Initial => 1
    case Retry => 2
    case Handshake => 3
    case ZeroRtt => 4
    case Short => 5
    case VersionNegotiation => 6
  }

  /** A pointer to an integer of the caller. */
  class Cell {
    var value: nat

    constructor (value: nat)
      ensures this.value == value
    {
      this.value := value;
    }
  }

  /** A caller's buffer with its in/out length: capacity before the call, length written after. */
  class Buffer {
    const bytes: array<Byte>
    var len: nat

    constructor (bytes: array<Byte>, len: nat)
      requires len <= bytes.Length
      ensures this.bytes == bytes && this.len == len
    {
      this.bytes := bytes;
      this.len := len;
    }

    /** The announced capacity is really there. */
    predicate Valid()
      reads this
    {
      len <= bytes.Length
    }

    /** One stage: the field is copied whole if it fits, and nothing is touched otherwise. */
    method Fill(field: seq<Byte>) returns (fits: bool)
      requires Valid()
      modifies this`len, bytes
      ensures fits <==> |field| <= old(len)
      ensures Valid()
      ensures len == if fits then |field| else old(len)
      ensures bytes[..] == if fits then field + old(bytes[|field|..]) else old(bytes[..])
    {
      if len < |field| {
        return false;
      }
      forall i | 0 <= i < |field| {
        bytes[i] := field[i];
      }
      len := |field|;
      fits := true;
    }
  }

  /** What one buffer holds. */
  datatype Contents = Contents(bytes: seq<Byte>, len: nat)

  function ContentsOf(b: Buffer): Contents
    reads b, b.bytes
  {
    Contents(b.bytes[..], b.len)
  }

  /** The field fits the capacity and the buffer now starts with it; the tail is preserved. */
  predicate Copied(before: Contents, after: Contents, field: seq<Byte>) {
    && |field| <= before.len <= |before.bytes|
    && after.bytes == field + before.bytes[|field|..]
    && after.len == |field|
  }

  /** Which of the three fields were written: the first `stage` of source id, destination id, token. */
  predicate Written(h: Header, stage: nat, scid: (Contents, Contents), dcid: (Contents, Contents), token: (Contents, Contents)) {
    && (if stage >= 1 then Copied(scid.0, scid.1, h.scid) else scid.1 == scid.0)
    && (if stage >= 2 then Copied(dcid.0, dcid.1, h.dcid) else dcid.1 == dcid.0)
    && (if stage >= 3 then
          match h.token
          case PacketToken(bytes) => Copied(token.0, token.1, bytes)
          case NoToken => token.1 == token.0.(len := 0)
        else token.1 == token.0)
  }

  predicate TokenFits(h: Header, capacity: nat) {
    h.token.NoToken? || |h.token.bytes| <= capacity
  }

  /** How far the copying gets with the given capacities. */
  function Stages(h: Header, scid: nat, dcid: nat, token: nat): (stage: nat)
    ensures stage <= 3
    ensures stage == 3 <==> |h.scid| <= scid && |h.dcid| <= dcid && TokenFits(h, token)
  {
    if scid < |h.scid| then 0
    else if dcid < |h.dcid| then 1
    else if !TokenFits(h, token) then 2
    else 3
  }

  /** The three lengths after a call that was given these capacities. */
  function LengthsAfter(h: Header, scid: nat, dcid: nat, token: nat): (nat, nat, nat) {
    var stage := Stages(h, scid, dcid, token);
    (if stage >= 1 then |h.scid| else scid,
     if stage >= 2 then |h.dcid| else dcid,
     if stage < 3 then token else if h.token.PacketToken? then |h.token.bytes| else 0)
  }

  /**
    The buffers are distinct, as the program's exclusive references are. The return value is 0
    exactly when the header was parsed and every field it has fits; the fields written form a
    prefix of the three, each whole and within its capacity.
   */
  method QuicheHeaderInfo(parse: Parse, version: Cell, ty: Cell, scid: Buffer, dcid: Buffer, token: Buffer) returns (code: int)
    requires parse.Failed? ==> parse.code < 0
    requires scid.Valid() && dcid.Valid() && token.Valid()
    requires scid != dcid && scid != token && dcid != token && version != ty
    requires scid.bytes != dcid.bytes && scid.bytes != token.bytes && dcid.bytes != token.bytes
    modifies version, ty, scid`len, dcid`len, token`len, scid.bytes, dcid.bytes, token.bytes
    ensures scid.Valid() && dcid.Valid() && token.Valid()
    ensures code == 0 <==> parse.Parsed? && |parse.header.scid| <= old(scid.len) && |parse.header.dcid| <= old(dcid.len)
                           && match parse.header.token
                              case NoToken => true
                              case PacketToken(bytes) => |bytes| <= old(token.len)
    ensures parse.Failed? ==>
              code == parse.code && version.value == old(version.value) && ty.value == old(ty.value)
              && ContentsOf(scid) == old(ContentsOf(scid)) && ContentsOf(dcid) == old(ContentsOf(dcid))
              && ContentsOf(token) == old(ContentsOf(token))
    ensures parse.Parsed? ==>
              version.value == parse.header.version &&
              match parse.header.ty
              case Initial => ty.value == 1
              case Retry => ty.value == 2
              case Handshake => ty.value == 3
              case ZeroRtt => ty.value == 4
              case Short => ty.value == 5
              case VersionNegotiation => ty.value == 6
    ensures parse.Parsed? ==> code == 0 || code == -1
    // a field that does not fit stops the copying: it and those after it are untouched
    ensures parse.Parsed? && |parse.header.scid| > old(scid.len) ==>
              scid.bytes[..] == old(scid.bytes[..]) && scid.len == old(scid.len)
    ensures parse.Parsed? && (|parse.header.scid| > old(scid.len) || |parse.header.dcid| > old(dcid.len)) ==>
              dcid.bytes[..] == old(dcid.bytes[..]) && dcid.len == old(dcid.len)
    ensures parse.Parsed? && code == -1 ==> token.bytes[..] == old(token.bytes[..]) && token.len == old(token.len)
    // and those before it are copied whole
    ensures parse.Parsed? && |parse.header.scid| <= old(scid.len) ==>
              && scid.len == |parse.header.scid|
              && scid.bytes[..] == parse.header.scid + old(scid.bytes[|parse.header.scid|..])
    ensures parse.Parsed? && |parse.header.scid| <= old(scid.len) && |parse.header.dcid| <= old(dcid.len) ==>
              && dcid.len == |parse.header.dcid|
              && dcid.bytes[..] == parse.header.dcid + old(dcid.bytes[|parse.header.dcid|..])
    ensures code == 0 ==>
              match parse.header.token
              case NoToken => token.len == 0 && token.bytes[..] == old(token.bytes[..])
              case PacketToken(bytes) => token.len == |bytes| && token.bytes[..] == bytes + old(token.bytes[|bytes|..])
    ensures parse.Parsed? ==>
              (scid.len, dcid.len, token.len) == LengthsAfter(parse.header, old(scid.len), old(dcid.len), old(token.len))
    ensures parse.Parsed? ==>
              Written(parse.header, Stages(parse.header, old(scid.len), old(dcid.len), old(token.len)),
                      (old(ContentsOf(scid)), ContentsOf(scid)), (old(ContentsOf(dcid)), ContentsOf(dcid)),
                      (old(ContentsOf(token)), ContentsOf(token)))
  {
    if parse.Failed? {
      return parse.code;
    }
    var hdr := parse.header;
    version.value := hdr.version;
    ty.value := TypeCode(hdr.ty);
    var fits := scid.Fill(hdr.scid);
    if !fits {
      return TOO_SHORT;
    }
    fits := dcid.Fill(hdr.dcid);
    if !fits {
      return TOO_SHORT;
    }
    match hdr.token {
      case PacketToken(bytes) =>
        fits := token.Fill(bytes);
        if !fits {
          return TOO_SHORT;
        }
      case NoToken => token.len := 0;
    }
    code := 0;
  }

  // ---------------------------------------------------------------------------------------------
  // The lengths are in/out: what one call leaves is the capacity of the next

  /** Repeating the call on the same packet with the lengths it left gets exactly as far, and no further. */
  lemma RepeatReachesTheSameStage(h: Header, scid: nat, dcid: nat, token: nat)
    ensures var (s, d, t) := LengthsAfter(h, scid, dcid, token);
            Stages(h, s, d, t) == Stages(h, scid, dcid, token) && LengthsAfter(h, s, d, t) == (s, d, t)
  {
  }

  predicate NoLonger(next: Header, last: Header) {
    && |next.scid| <= |last.scid| && |next.dcid| <= |last.dcid|
    && (next.token.PacketToken? ==> |next.token.bytes| <= if last.token.PacketToken? then |last.token.bytes| else 0)
  }

  /**
    A next packet read into the same buffers, the lengths not reset by the caller, succeeds if and
    only if none of its fields is longer than the last packet's: unused capacity is forgotten.
   */
  lemma LengthsMustBeReset(last: Header, next: Header, scid: nat, dcid: nat, token: nat)
    requires Stages(last, scid, dcid, token) == 3
    ensures var (s, d, t) := LengthsAfter(last, scid, dcid, token);
            Stages(next, s, d, t) == 3 <==> NoLonger(next, last)
  {
  }

  /**
    Two packets read into the same buffers without resetting the lengths. If the first is read
    whole, the second is if and only if none of its fields is longer; the same packet again comes
    to the same result.
   */
  method ReadTwoPackets(first: Parse, second: Parse, version: Cell, ty: Cell, scid: Buffer, dcid: Buffer, token: Buffer)
    returns (code: int, code': int)
    requires (first.Failed? ==> first.code < 0) && (second.Failed? ==> second.code < 0)
    requires scid.Valid() && dcid.Valid() && token.Valid()
    requires scid != dcid && scid != token && dcid != token && version != ty
    requires scid.bytes != dcid.bytes && scid.bytes != token.bytes && dcid.bytes != token.bytes
    modifies version, ty, scid`len, dcid`len, token`len, scid.bytes, dcid.bytes, token.bytes
    ensures code == 0 ==> first.Parsed?
    ensures code == 0 && second.Parsed? ==> (code' == 0 <==> NoLonger(second.header, first.header))
    ensures first == second ==> code == code'
  {
    code := QuicheHeaderInfo(first, version, ty, scid, dcid, token);
    if first.Parsed? {
      RepeatReachesTheSameStage(first.header, old(scid.len), old(dcid.len), old(token.len));
      if code == 0 && second.Parsed? {
        LengthsMustBeReset(first.header, second.header, old(scid.len), old(dcid.len), old(token.len));
      }
    }
    code' := QuicheHeaderInfo(second, version, ty, scid, dcid, token);
  }
}
