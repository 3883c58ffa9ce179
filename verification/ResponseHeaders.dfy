/** Reading the flattened list of header names and values that a result callback receives. */
module ResponseHeaders {
  import opened SharedTypes

  const INT_RANGE: int := 0x1_0000_0000
  const INT_MAX: int := 0x7FFF_FFFF

  /** The conversion of an integer to a 32-bit `int`, unchecked: wrap-around. */
  function ToInt(x: int): (r: int)
    ensures -0x8000_0000 <= r <= 0x7FFF_FFFF
    ensures (r - x) % 0x1_0000_0000 == 0
    ensures -0x8000_0000 <= x <= 0x7FFF_FFFF ==> r == x
  {
    var low := x % INT_RANGE;
    if low <= INT_MAX then low else low - INT_RANGE
  }

  datatype Header = Header(name: Text, value: Text)

  const Blank: Header := Header(Null, Null)

  datatype HeaderError =
    | BadPointer       // a read outside the native array
    | IndexOutOfRange  // a store behind the end of the result

  datatype Reading = Read(headers: seq<Header>) | Failed(error: HeaderError)

  /** The list that k header pairs flatten to. */
  function Flatten(pairs: seq<(Text, Text)>): (flat: seq<Text>)
    ensures |flat| == 2 * |pairs|
  {
    if pairs == [] then []
    else Flatten(pairs[..|pairs|-1]) + [pairs[|pairs|-1].0, pairs[|pairs|-1].1]
  }

  function AsHeader(p: (Text, Text)): Header {
    Header(p.0, p.1)
  }

  /** Slot k of the result after the first n entries of the native array have been read. */
  function Slot(native: seq<Text>, n: int, k: nat): Header
    requires 0 <= n <= |native|
  {
    Header(if 2 * k < n then native[2 * k] else Null, if 2 * k + 1 < n then native[2 * k + 1] else Null)
  }

  /** Slots of the result after the first n entries have been read. */
  function Slots(native: seq<Text>, n: int): seq<Header>
    requires 0 <= n <= |native|
  {
    seq(|native| / 2, k requires 0 <= k => Slot(native, n, k))
  }

  /** The byte offset of entry i stays within a 32-bit `int`. */
  predicate OffsetFits(elementSize: nat, i: nat) {
    elementSize * i <= INT_MAX
  }

  /** Storing entry n into its half of slot n / 2 is what reading one entry more means. */
  lemma NextSlot(native: seq<Text>, n: nat)
    requires n < |native| && n / 2 < |native| / 2
    ensures var h := Slots(native, n)[n / 2];
            && (n % 2 == 0 ==> h.name == Null && Slots(native, n + 1) == Slots(native, n)[n / 2 := h.(name := native[n])])
            && (n % 2 == 1 ==> h.value == Null && Slots(native, n + 1) == Slots(native, n)[n / 2 := h.(value := native[n])])
  {
    var h := Slots(native, n)[n / 2];
    var stored := if n % 2 == 0 then h.(name := native[n]) else h.(value := native[n]);
    var next := Slots(native, n)[n / 2 := stored];
    assert |next| == |Slots(native, n + 1)|;
    forall k | 0 <= k < |next|
      ensures next[k] == Slots(native, n + 1)[k]
    {
    }
    assert next == Slots(native, n + 1);
  }

  /** Slots filled from fewer entries than the array has differ from the full ones. */
  lemma ShortReadShows(native: seq<Text>, n: nat)
    requires n + 2 < |native| && Null !in native
    ensures Slots(native, n) != Slots(native, |native|)
  {
    var k := |native| / 2 - 1;
    assert Slots(native, n)[k].value == Null;
    assert Slots(native, |native|)[k].value == native[2 * k + 1];
  }

  /** Narrowing a count to `int` leaves it alone or makes it much smaller. */
  lemma Truncates(n: nat)
    ensures ToInt(n) == n <= INT_MAX || (ToInt(n) <= n - INT_RANGE && n > INT_MAX)
  {
  }

  /** The first offset that does not fit wraps to a negative one; those before are exact. */
  lemma Offsets(elementSize: nat, num: nat)
    requires elementSize in {4, 8} && (num > 0 ==> OffsetFits(elementSize, num - 1))
    ensures OffsetFits(elementSize, num) ==> ToInt(elementSize * num) == elementSize * num
    ensures !OffsetFits(elementSize, num) ==> ToInt(elementSize * num) < 0
  {
    if elementSize == 4 {
    } else {
      assert elementSize == 8;
    }
  }

  /** An offset that does not fit is followed only by others: reading fails. */
  lemma BadOffsetFails(native: seq<Text>, elementSize: nat, num: nat)
    requires num < LoopBound(|native|) && !OffsetFits(elementSize, num)
    ensures ReadingOf(native, elementSize) == Failed(BadPointer)
  {
    if OffsetFits(elementSize, LoopBound(|native|) - 1) {
      OffsetsGrow(elementSize, num, LoopBound(|native|) - 1);
    }
  }

  lemma OffsetsGrow(elementSize: nat, i: nat, j: nat)
    requires i <= j && OffsetFits(elementSize, j)
    ensures OffsetFits(elementSize, i)
  {
    assert elementSize * i <= elementSize * j;
  }

  lemma Entry(elementSize: nat, num: nat)
    requires elementSize in {4, 8}
    ensures (elementSize * num) / elementSize == num
  {
    if elementSize == 4 {
    } else {
      assert elementSize == 8;
    }
  }

  /** How many entries the loop goes through: the count, narrowed to `int`. */
  function LoopBound(headersSize: nat): (n: nat)
    ensures n <= headersSize
  {
    Truncates(headersSize);
    if ToInt(headersSize) < 0 then 0 else ToInt(headersSize)
  }

  /** What reading the array comes to. */
  function ReadingOf(native: seq<Text>, elementSize: nat): Reading {
    var n := LoopBound(|native|);
    if n > 0 && !OffsetFits(elementSize, n - 1) then Failed(BadPointer)
    else if n == |native| && n % 2 == 1 then Failed(IndexOutOfRange)
    else Read(Slots(native, n))
  }

  /** The entries that a 32-bit loop counter goes through when there are n. */
  function Counted(n: nat): (m: nat)
    ensures m <= n && (n <= 0x7FFF_FFFF ==> m == n)
  {
    if n % 0x1_0000_0000 > 0x7FFF_FFFF then 0 else n % 0x1_0000_0000
  }

  /**
    What is read, entry by entry, for every count: a count beyond 32 bits is cut down to its low
    bits, and a slot keeps null where no entry was read for it.
   */
  predicate ReadsEntries(native: seq<Text>, elementSize: nat, r: Reading) {
    var n := |native|;
    var m := Counted(n);
    var tooFar := m > 0 && elementSize * (m - 1) > 0x7FFF_FFFF;
    match r
    case Failed(BadPointer) => tooFar
    case Failed(IndexOutOfRange) => !tooFar && m == n && n % 2 == 1
    case Read(headers) =>
      && !tooFar && (m == n ==> n % 2 == 0) && |headers| == n / 2
      && forall k :: 0 <= k < n / 2 ==>
           && headers[k].name == (if 2 * k < m then native[2 * k] else Null)
           && headers[k].value == (if 2 * k + 1 < m then native[2 * k + 1] else Null)
  }

  lemma LoopCounts(n: nat)
    ensures LoopBound(n) == Counted(n)
  {
  }

  lemma ReadingReadsEntries(native: seq<Text>, elementSize: nat)
    ensures ReadsEntries(native, elementSize, ReadingOf(native, elementSize))
  {
    LoopCounts(|native|);
  }

  /**
    All pairs are read if and only if the count is even and the last offset fits in 32 bits. (If
    entries are null the only-if cannot be told from the result: an unread entry is null as well.)
   */
  lemma AllPairsOrNot(native: seq<Text>, elementSize: nat)
    requires elementSize in {4, 8}
    ensures var readable := |native| % 2 == 0 && (|native| > 0 ==> elementSize * (|native| - 1) <= 0x7FFF_FFFF);
            && (readable ==> ReadingOf(native, elementSize) == Read(Slots(native, |native|)))
            && (Null !in native && ReadingOf(native, elementSize) == Read(Slots(native, |native|)) ==> readable)
  {
    Truncates(|native|);
    if |native| > INT_MAX && Null !in native {
      ShortReadShows(native, LoopBound(|native|));
    }
  }

  /**
    `native` is the array behind the pointer, one string or null per entry of `elementSize` bytes; the
    count, the loop bound and the offsets have the program's widths.
   */
  method ReadResponseHeaders(native: seq<Text>, elementSize: nat) returns (r: Reading)
    requires elementSize in {4, 8}
    ensures r == ReadingOf(native, elementSize)
  {
    var headersSize := |native|;
    Truncates(headersSize);
    var headers := new Header[headersSize / 2](_ => Blank);
    var num := 0;
    assert headers[..] == Slots(native, 0);
    while num < ToInt(headersSize)
      invariant 0 <= num <= headersSize
      invariant num <= ToInt(headersSize) || num == 0
      invariant num <= 2 * headers.Length
      invariant num > 0 ==> OffsetFits(elementSize, num - 1)
      invariant headers[..] == Slots(native, num)
    {
      var offset := ToInt(elementSize * num);
      Offsets(elementSize, num);
      if offset < 0 {
        BadOffsetFails(native, elementSize, num);
        return Failed(BadPointer);
      }
      Entry(elementSize, num);
      var text := native[offset / elementSize];
      if num / 2 >= headers.Length {
        return Failed(IndexOutOfRange);
      }
      NextSlot(native, num);
      // each half of a slot is written once: it is still unset here
      assert headers[num / 2] == Slots(native, num)[num / 2];
      if num % 2 == 0 {
        headers[num / 2] := headers[num / 2].(name := text);
      } else {
        headers[num / 2] := headers[num / 2].(value := text);
      }
      num := num + 1;
    }
    r := Read(headers[..]);
  }

  /** What the slots hold for a flattened list of k pairs: exactly those pairs, in order. */
  lemma {:induction false} FlattenedPairsAreRead(pairs: seq<(Text, Text)>)
    ensures var flat := Flatten(pairs);
            |Slots(flat, |flat|)| == |pairs| && forall k :: 0 <= k < |pairs| ==> Slots(flat, |flat|)[k] == AsHeader(pairs[k])
  {
    if pairs != [] {
      var before := pairs[..|pairs|-1];
      FlattenedPairsAreRead(before);
      var flat := Flatten(pairs);
      forall k | 0 <= k < |pairs|
        ensures Slots(flat, |flat|)[k] == AsHeader(pairs[k])
      {
        if k < |before| {
          assert Slots(Flatten(before), 2 * |before|)[k] == AsHeader(before[k]);
        }
      }
    }
  }
}
