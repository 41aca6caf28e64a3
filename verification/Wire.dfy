// Big-endian numbers on the wire, and the buffers of both programs that write and
// read them: the client's ByteBuffer and the server's bit-granular buffer.

module Wire {
  import opened GameData

  // ----- big-endian words -----

  function U16(n: int): (r: seq<Byte>)
    requires 0 <= n < 0x1_0000
    ensures |r| == 2
  {
    [n / 0x100, n % 0x100]
  }

  function U32(n: Word): (r: seq<Byte>)
    ensures |r| == 4
  {
    [n / 0x100 / 0x100 / 0x100, n / 0x100 / 0x100 % 0x100, n / 0x100 % 0x100, n % 0x100]
  }

  function FromU16(b: seq<Byte>): int
    requires |b| == 2
  {
    b[0] as int * 0x100 + b[1]
  }

  function FromU32(b: seq<Byte>): Word
    requires |b| == 4
  {
    ((b[0] as int * 0x100 + b[1]) * 0x100 + b[2]) * 0x100 + b[3]
  }

  function Unsigned(i: Int32): Word {
    if i < 0 then i + 0x1_0000_0000 else i
  }

  function Signed(w: Word): Int32 {
    if w < 0x8000_0000 then w else w - 0x1_0000_0000
  }

  function I32(i: Int32): (r: seq<Byte>)
    ensures |r| == 4
  {
    U32(Unsigned(i))
  }

  lemma WordRoundTrip(w: Word)
    ensures FromU32(U32(w)) == w
  {
  }

  lemma MostSignificantFirst(w: Word)
    ensures var b := U32(w); b[0] as int * 0x100_0000 + b[1] as int * 0x1_0000 + b[2] as int * 0x100 + b[3] == w
    ensures I32(-2) == [255, 255, 255, 254] && U16(0x102) == [1, 2]
  {
    WordRoundTrip(w);
  }

  lemma SignedRoundTrip(i: Int32)
    ensures Signed(FromU32(I32(i))) == i
  {
    WordRoundTrip(Unsigned(i));
  }

  lemma BytesRoundTrip(b: seq<Byte>)
    requires |b| == 4
    ensures U32(FromU32(b)) == b
  {
    var high := b[0] as int * 0x100 + b[1];
    assert FromU32(b) / 0x100 == high * 0x100 + b[2];
    assert FromU32(b) / 0x100 / 0x100 == high;
  }

  lemma ShortRoundTrip(n: int)
    requires 0 <= n < 0x1_0000
    ensures FromU16(U16(n)) == n
  {
  }

  // ----- byte swapping on the client -----

  function Reversed4(b: seq<Byte>): seq<Byte>
    requires |b| == 4
  {
    [b[3], b[2], b[1], b[0]]
  }

  // The value a host keeps in memory as the bytes b.
  function HostValue(littleEndian: bool, b: seq<Byte>): Word
    requires |b| == 4
  {
    FromU32(if littleEndian then Reversed4(b) else b)
  }

  function HostImage(littleEndian: bool, w: Word): (r: seq<Byte>)
    ensures |r| == 4
  {
    if littleEndian then Reversed4(U32(w)) else U32(w)
  }

  // `__builtin_bswap32`
  function ByteswapU32(w: Word): Word {
    FromU32(Reversed4(U32(w)))
  }

  // The four bytes are the lowest one moved to the top, the second lowest moved up, the second
  // highest moved down, and the highest moved to the bottom. Moving down is a division
  // that rounds down, also for a negative v, and each term keeps one byte.
  function ByteswapI32(v: Int32): Int32 {
    Signed(FromU32([
      v * 0x100_0000 / 0x100_0000 % 0x100,
      v * 0x100 / 0x1_0000 % 0x100,
      v / 0x100 / 0x100 % 0x100,
      v / 0x100_0000 % 0x100]))
  }

  // Shifting right rounds down, so the low bytes do not see the sign.
  lemma ShiftsIgnoreSign(v: Int32, w: Word)
    requires w == Unsigned(v)
    ensures w % 0x100 == v % 0x100
    ensures w / 0x100 % 0x100 == v / 0x100 % 0x100
    ensures w / 0x100 / 0x100 % 0x100 == v / 0x100 / 0x100 % 0x100
    ensures w / 0x100 / 0x100 / 0x100 == v / 0x100 / 0x100 / 0x100 % 0x100
  {
    if v < 0 {
      assert w / 0x100 == v / 0x100 + 0x100_0000;
      assert w / 0x100 / 0x100 == v / 0x100 / 0x100 + 0x1_0000;
      assert w / 0x100 / 0x100 / 0x100 == v / 0x100 / 0x100 / 0x100 + 0x100;
    }
  }

  // The arithmetic shifts do no harm: the signed swap is the unsigned swap of the same bits.
  lemma SignedSwapIsSwap(v: Int32)
    ensures Unsigned(ByteswapI32(v)) == ByteswapU32(Unsigned(v))
  {
    ShiftsIgnoreSign(v, Unsigned(v));
    assert v * 0x100_0000 / 0x100_0000 == v;
    assert v * 0x100 / 0x1_0000 == v / 0x100;
    assert v / 0x100_0000 == v / 0x100 / 0x100 / 0x100;
  }

  lemma SwapIsInvolution(w: Word)
    ensures ByteswapU32(ByteswapU32(w)) == w
  {
    BytesRoundTrip(Reversed4(U32(w)));
    WordRoundTrip(w);
  }

  // Swapping on little-endian hosts only makes both kinds of host agree with the wire.
  lemma HostsAgree(littleEndian: bool, w: Word, b: seq<Byte>)
    requires |b| == 4
    ensures HostImage(littleEndian, if littleEndian then ByteswapU32(w) else w) == U32(w)
    ensures (if littleEndian then ByteswapU32(HostValue(littleEndian, b)) else HostValue(littleEndian, b)) == FromU32(b)
  {
    BytesRoundTrip(Reversed4(U32(w)));
    BytesRoundTrip(Reversed4(b));
  }

  lemma SignedHostsAgree(littleEndian: bool, b: seq<Byte>)
    requires |b| == 4
    ensures var host := Signed(HostValue(littleEndian, b));
            (if littleEndian then ByteswapI32(host) else host) == Signed(FromU32(b))
  {
    HostsAgree(littleEndian, 0, b);
    if littleEndian {
      SignedSwapIsSwap(Signed(HostValue(littleEndian, b)));
    }
  }

  // ----- reading at a position -----

  function TakeU8(d: seq<Byte>, p: nat): Option<Byte> {
    if p + 1 <= |d| then Some(d[p]) else None
  }

  function TakeU16(d: seq<Byte>, p: nat): Option<int> {
    if p + 2 <= |d| then Some(FromU16(d[p..p + 2])) else None
  }

  function TakeU32(d: seq<Byte>, p: nat): Option<Word> {
    if p + 4 <= |d| then Some(FromU32(d[p..p + 4])) else None
  }

  function TakeI32(d: seq<Byte>, p: nat): Option<Int32> {
    if p + 4 <= |d| then Some(Signed(FromU32(d[p..p + 4]))) else None
  }

  function TakeString(d: seq<Byte>, p: nat): Option<seq<Byte>> {
    match TakeU32(d, p)
    case None => None
    case Some(n) => if p + 4 + n <= |d| then Some(d[p + 4..p + 4 + n]) else None
  }

  // Both programs write the length as 32 bits, whatever it is.
  function Str(s: seq<Byte>): seq<Byte> {
    U32(|s| % 0x1_0000_0000) + s
  }

  lemma Assoc<T>(a: seq<T>, b: seq<T>, c: seq<T>)
    ensures a + b + c == a + (b + c)
  {
  }

  lemma SubSlice(d: seq<Byte>, p: nat, n: nat, i: nat, j: nat)
    requires i <= j <= n && p + n <= |d|
    ensures d[p..p + n][i..j] == d[p + i..p + j]
  {
    var a, b := d[p..p + n][i..j], d[p + i..p + j];
    assert |a| == |b|;
    forall k | 0 <= k < j - i ensures a[k] == b[k] {
      assert a[k] == d[p..p + n][i + k];
    }
  }

  method ByteswapF32(value: Word) returns (r: Word)
    ensures r == ByteswapU32(value)
  {
    var bytes := new Byte[4];
    var image := U32(value);
    bytes[0], bytes[1], bytes[2], bytes[3] := image[0], image[1], image[2], image[3];
    var temp := bytes[0];
    bytes[0] := bytes[3];
    bytes[3] := temp;
    temp := bytes[1];
    bytes[1] := bytes[2];
    bytes[2] := temp;
    r := FromU32([bytes[0], bytes[1], bytes[2], bytes[3]]);
  }

  // ----- the client's buffer -----

  class ByteBuffer {
    const littleEndian: bool
    var data: seq<Byte>
    var position: nat

    constructor (littleEndian: bool, data: seq<Byte>)
      ensures this.littleEndian == littleEndian && this.data == data && position == 0
    {
      this.littleEndian := littleEndian;
      this.data := data;
      position := 0;
    }

    // `read<T>`: the bytes are copied into a value only when all of them are there.
    method ReadBytes(n: nat) returns (r: Option<seq<Byte>>)
      modifies this`position
      ensures r.Some? <==> old(position) + n <= |data|
      ensures r.Some? ==> r.value == data[old(position)..old(position) + n] && position == old(position) + n
      ensures r.None? ==> position == old(position)
    {
      if position + n > |data| { return None; }
      r := Some(data[position..position + n]);
      position := position + n;
    }

    method ReadU8() returns (r: Option<Byte>)
      modifies this`position
      ensures r == TakeU8(data, old(position))
      ensures position == old(position) + if r.Some? then 1 else 0
    {
      var b := ReadBytes(1);
      r := if b.Some? then Some(b.value[0]) else None;
    }

    method ReadU16() returns (r: Option<int>)
      modifies this`position
      ensures r == TakeU16(data, old(position))
      ensures position == old(position) + if r.Some? then 2 else 0
    {
      var b := ReadBytes(2);
      if b.None? { return None; }
      var host := if littleEndian then b.value[1] * 0x100 + b.value[0] else FromU16(b.value);
      r := Some(if littleEndian then host % 0x100 * 0x100 + host / 0x100 else host);
    }

    method ReadU32() returns (r: Option<Word>)
      modifies this`position
      ensures r == TakeU32(data, old(position))
      ensures position == old(position) + if r.Some? then 4 else 0
    {
      var b := ReadBytes(4);
      if b.None? { return None; }
      HostsAgree(littleEndian, 0, b.value);
      var host := HostValue(littleEndian, b.value);
      r := Some(if littleEndian then ByteswapU32(host) else host);
    }

    method ReadI32() returns (r: Option<Int32>)
      modifies this`position
      ensures r == TakeI32(data, old(position))
      ensures position == old(position) + if r.Some? then 4 else 0
    {
      var b := ReadBytes(4);
      if b.None? { return None; }
      SignedHostsAgree(littleEndian, b.value);
      var host := Signed(HostValue(littleEndian, b.value));
      r := Some(if littleEndian then ByteswapI32(host) else host);
    }

    // A float is four opaque bytes, swapped in place in a local copy.
    method ReadF32() returns (r: Option<Word>)
      modifies this`position
      ensures r == TakeU32(data, old(position))
      ensures position == old(position) + if r.Some? then 4 else 0
    {
      var b := ReadBytes(4);
      if b.None? { return None; }
      HostsAgree(littleEndian, 0, b.value);
      var host := HostValue(littleEndian, b.value);
      if littleEndian {
        var swapped := ByteswapF32(host);
        r := Some(swapped);
      } else {
        r := Some(host);
      }
    }

    method ReadString() returns (r: Option<seq<Byte>>)
      modifies this`position
      ensures r == TakeString(data, old(position))
      ensures r.Some? ==> position == old(position) + 4 + |r.value|
      ensures old(position) <= position
    {
      var n := ReadU32();
      if n.None? || position + n.value > |data| { return None; }
      r := Some(data[position..position + n.value]);
      position := position + n.value;
    }

    method Write(bytes: seq<Byte>)
      modifies this
      ensures data == old(data) + bytes && position == old(position) + |bytes|
    {
      data := data + bytes;
      position := position + |bytes|;
    }

    method WriteU8(value: Byte)
      modifies this
      ensures data == old(data) + [value] && position == old(position) + 1
    {
      Write([value]);
    }

    method WriteU32(value: Word)
      modifies this
      ensures data == old(data) + U32(value) && position == old(position) + 4
    {
      HostsAgree(littleEndian, value, [0, 0, 0, 0]);
      Write(HostImage(littleEndian, if littleEndian then ByteswapU32(value) else value));
    }

    method WriteI32(value: Int32)
      modifies this
      ensures data == old(data) + I32(value) && position == old(position) + 4
    {
      HostsAgree(littleEndian, Unsigned(value), [0, 0, 0, 0]);
      SignedSwapIsSwap(value);
      Write(HostImage(littleEndian, Unsigned(if littleEndian then ByteswapI32(value) else value)));
    }

    method WriteF32(value: Word)
      modifies this
      ensures data == old(data) + U32(value) && position == old(position) + 4
    {
      HostsAgree(littleEndian, value, [0, 0, 0, 0]);
      var host := value;
      if littleEndian { host := ByteswapF32(value); }
      Write(HostImage(littleEndian, host));
    }

    method WriteString(s: seq<Byte>)
      modifies this
      ensures data == old(data) + Str(s) && position == old(position) + 4 + |s|
    {
      WriteU32(|s| % 0x1_0000_0000);
      data := data + s;
      position := position + |s|;
    }
  }

  // ----- the server's buffers -----

  // Weight of the k-th bit of a byte, counted from the most significant one.
  function BitValue(k: nat): Byte
    requires k < 8
  {
    if k < 4 then (if k == 0 then 0x80 else if k == 1 then 0x40 else if k == 2 then 0x20 else 0x10)
    else (if k == 4 then 8 else if k == 5 then 4 else if k == 6 then 2 else 1)
  }

  function Bit(on: bool, k: nat): int
    requires k < 8
  {
    if on then BitValue(k) else 0
  }

  function BitAt(b: Byte, k: nat): bool
    requires k < 8
  {
    b / BitValue(k) % 2 == 1
  }

  // Bits fill a byte from its most significant end; writing a whole value closes a
  // byte that is only partly filled.
  class BitBuffer {
    var data: seq<Byte>
    var used: nat

    ghost predicate Valid()
      reads this
    {
      used < 8 && (used > 0 ==> data != [] && data[|data| - 1] <= 0x100 - BitValue(used - 1))
    }

    constructor ()
      ensures Valid() && data == [] && used == 0
    {
      data, used := [], 0;
    }

    method FlushBits()
      modifies this
      ensures Valid() && used == 0 && data == old(data)
    {
      used := 0;
    }

    method WriteBytes(bytes: seq<Byte>)
      modifies this
      ensures Valid() && used == 0 && data == old(data) + bytes
    {
      FlushBits();
      data := data + bytes;
    }

    method WriteBit(bit: bool)
      requires Valid()
      modifies this
      ensures Valid() && used == (old(used) + 1) % 8
      ensures data == if old(used) == 0 then old(data) + [Bit(bit, 0)]
                      else old(data)[|old(data)| - 1 := old(data)[|old(data)| - 1] + Bit(bit, old(used))]
    {
      if used == 0 { data := data + [0]; }
      var last := |data| - 1;
      data := data[last := data[last] + Bit(bit, used)];
      used := (used + 1) % 8;
    }
  }

  class BitReader {
    const data: seq<Byte>
    var position: nat
    var used: nat

    constructor (data: seq<Byte>)
      ensures this.data == data && position == 0 && used == 0
    {
      this.data := data;
      position, used := 0, 0;
    }

    method FlushBits()
      requires used < 8
      modifies this
      ensures used == 0 && position == old(position) + if old(used) > 0 then 1 else 0
    {
      if used > 0 {
        position := position + 1;
        used := 0;
      }
    }

    method ReadU8() returns (r: Option<Byte>)
      requires used == 0
      modifies this
      ensures r == TakeU8(data, old(position)) && used == 0
      ensures position == old(position) + if r.Some? then 1 else 0
    {
      r := TakeU8(data, position);
      if r.Some? { position := position + 1; }
    }

    method ReadF32() returns (r: Option<Word>)
      requires used == 0
      modifies this
      ensures r == TakeU32(data, old(position)) && used == 0
      ensures position == old(position) + if r.Some? then 4 else 0
    {
      r := TakeU32(data, position);
      if r.Some? { position := position + 4; }
    }

    method ReadBit() returns (r: Option<bool>)
      requires used < 8
      modifies this
      ensures r == if old(position) < |data| then Some(BitAt(data[old(position)], old(used))) else None
      ensures r.None? ==> position == old(position) && used == old(used)
      ensures r.Some? ==> used == (old(used) + 1) % 8 && position == old(position) + (old(used) + 1) / 8
    {
      if position >= |data| { return None; }
      r := Some(BitAt(data[position], used));
      position := position + (used + 1) / 8;
      used := (used + 1) % 8;
    }
  }
}
