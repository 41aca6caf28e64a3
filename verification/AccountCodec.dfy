// PlayerAccountData as both programs write and read it.

module AccountCodec {
  import opened GameData
  import opened Wire

  function Ints(a: Account): (r: seq<Int32>)
    ensures |r| == 10
  {
    [a.cube, a.ship, a.ball, a.ufo, a.wave, a.robot, a.spider, a.color1, a.color2, a.deathEffect]
  }

  function IntsBytes(ints: seq<Int32>): (r: seq<Byte>)
    ensures |r| == 4 * |ints|
  {
    if ints == [] then [] else IntsBytes(ints[..|ints| - 1]) + I32(ints[|ints| - 1])
  }

  function EncodeAccount(a: Account): seq<Byte> {
    IntsBytes(Ints(a)) + [if a.glow then 1 else 0] + Str(a.name)
  }

  // Both programs read ten integers, take only the byte 1 for a glow, and then read
  // a string; the server also refuses a string that is not text.
  function TakeAccount(d: seq<Byte>, p: nat): Option<Account> {
    if p + 41 <= |d| && TakeString(d, p + 41).Some? then
      Some(Account(TakeI32(d, p).value, TakeI32(d, p + 4).value, TakeI32(d, p + 8).value, TakeI32(d, p + 12).value,
                   TakeI32(d, p + 16).value, TakeI32(d, p + 20).value, TakeI32(d, p + 24).value,
                     TakeI32(d, p + 28).value,
                   TakeI32(d, p + 32).value, TakeI32(d, p + 36).value, d[p + 40] == 1, TakeString(d, p + 41).value))
    else None
  }

  function ServerTakeAccount(d: seq<Byte>, p: nat, utf8: seq<Byte> -> bool): Option<Account> {
    var a := TakeAccount(d, p);
    if a.Some? && utf8(a.value.name) then a else None
  }

  lemma {:induction false} IntIsRead(d: seq<Byte>, p: nat, ints: seq<Int32>, i: nat)
    requires i < |ints| && p + 4 * |ints| <= |d| && d[p..p + 4 * |ints|] == IntsBytes(ints)
    ensures TakeI32(d, p + 4 * i) == Some(ints[i])
  {
    var last := |ints| - 1;
    var init := ints[..last];
    var b := IntsBytes(ints);
    assert b[..4 * last] == IntsBytes(init);
    assert b[4 * last..] == I32(ints[last]);
    if i < last {
      assert d[p..p + 4 * last] == b[..4 * last];
      IntIsRead(d, p, init, i);
    } else {
      assert d[p + 4 * last..p + 4 * last + 4] == b[4 * last..];
      SignedRoundTrip(ints[last]);
    }
  }

  lemma TenInts(d: seq<Byte>, p: nat, a: Account)
    requires p + 40 <= |d| && d[p..p + 40] == IntsBytes(Ints(a))
    ensures TakeI32(d, p) == Some(a.cube) && TakeI32(d, p + 4) == Some(a.ship) && TakeI32(d, p + 8) == Some(a.ball)
    ensures TakeI32(d, p + 12) == Some(a.ufo) && TakeI32(d, p + 16) == Some(a.wave)
            && TakeI32(d, p + 20) == Some(a.robot)
    ensures TakeI32(d, p + 24) == Some(a.spider) && TakeI32(d, p + 28) == Some(a.color1)
    ensures TakeI32(d, p + 32) == Some(a.color2) && TakeI32(d, p + 36) == Some(a.deathEffect)
  {
    var ints := Ints(a);
    IntIsRead(d, p, ints, 0);
    IntIsRead(d, p, ints, 1);
    IntIsRead(d, p, ints, 2);
    IntIsRead(d, p, ints, 3);
    IntIsRead(d, p, ints, 4);
    IntIsRead(d, p, ints, 5);
    IntIsRead(d, p, ints, 6);
    IntIsRead(d, p, ints, 7);
    IntIsRead(d, p, ints, 8);
    IntIsRead(d, p, ints, 9);
  }

  lemma StringIsRead(d: seq<Byte>, p: nat, s: seq<Byte>)
    requires |s| < 0x1_0000_0000 && p <= |d| && d[p..] == Str(s)
    ensures TakeString(d, p) == Some(s)
  {
    assert d[p..p + 4] == Str(s)[..4] == U32(|s|);
    WordRoundTrip(|s|);
    assert d[p + 4..p + 4 + |s|] == Str(s)[4..] == s;
  }

  // Account data survives the trip, wherever in the packet it stands.
  lemma AccountRoundTrip(d: seq<Byte>, p: nat, a: Account)
    requires |a.name| < 0x1_0000_0000 && p <= |d| && d[p..] == EncodeAccount(a)
    ensures TakeAccount(d, p) == Some(a)
  {
    var b := EncodeAccount(a);
    assert b[..40] == IntsBytes(Ints(a)) && b[41..] == Str(a.name);
    assert d[p..p + 40] == b[..40];
    assert d[p + 40] == b[40];
    assert d[p + 41..] == b[41..];
    TenInts(d, p, a);
    StringIsRead(d, p + 41, a.name);
  }

  // What stands where in an account.
  lemma AccountLayout(a: Account)
    requires |a.name| < 0x1_0000_0000
    ensures var b := EncodeAccount(a);
            && |b| == 45 + |a.name|
            && TakeI32(b, 0) == Some(a.cube) && TakeI32(b, 4) == Some(a.ship) && TakeI32(b, 8) == Some(a.ball)
            && TakeI32(b, 12) == Some(a.ufo) && TakeI32(b, 16) == Some(a.wave) && TakeI32(b, 20) == Some(a.robot)
            && TakeI32(b, 24) == Some(a.spider) && TakeI32(b, 28) == Some(a.color1) && TakeI32(b, 32) == Some(a.color2)
            && TakeI32(b, 36) == Some(a.deathEffect) && b[40] == (if a.glow then 1 else 0)
            && TakeString(b, 41) == Some(a.name)
  {
    var b := EncodeAccount(a);
    assert b[0..40] == IntsBytes(Ints(a)) && b[41..] == Str(a.name);
    TenInts(b, 0, a);
    StringIsRead(b, 41, a.name);
  }

  lemma SignedBytes(b: seq<Byte>)
    requires |b| == 4
    ensures I32(Signed(FromU32(b))) == b
  {
    BytesRoundTrip(b);
  }

  lemma JoinSlices(d: seq<Byte>, p: nat, q: nat, r: nat)
    requires p <= q <= r <= |d|
    ensures d[p..q] + d[q..r] == d[p..r]
  {
  }

  predicate IntsAt(d: seq<Byte>, p: nat, ints: seq<Int32>) {
    forall i | 0 <= i < |ints| :: TakeI32(d, p + 4 * i) == Some(ints[i])
  }

  lemma IntIsBytes(d: seq<Byte>, p: nat)
    requires TakeI32(d, p).Some?
    ensures I32(TakeI32(d, p).value) == d[p..p + 4]
  {
    SignedBytes(d[p..p + 4]);
  }

  lemma OneMoreInt(d: seq<Byte>, p: nat, q: nat, init: seq<Int32>, x: Int32)
    requires p <= q && q + 4 <= |d| && IntsBytes(init) == d[p..q] && I32(x) == d[q..q + 4]
    ensures IntsBytes(init + [x]) == d[p..q + 4]
  {
    assert (init + [x])[..|init|] == init;
    JoinSlices(d, p, q, q + 4);
  }

  lemma {:induction false} IntsAreBytes(d: seq<Byte>, p: nat, ints: seq<Int32>)
    requires IntsAt(d, p, ints) && p + 4 * |ints| <= |d|
    ensures IntsBytes(ints) == d[p..p + 4 * |ints|]
  {
    if ints != [] {
      var init, x := ints[..|ints| - 1], ints[|ints| - 1];
      assert ints == init + [x] && IntsAt(d, p, init);
      IntsAreBytes(d, p, init);
      assert TakeI32(d, p + 4 * |init|) == Some(x);
      IntIsBytes(d, p + 4 * |init|);
      OneMoreInt(d, p, p + 4 * |init|, init, x);
    }
  }

  lemma StrIs(s: seq<Byte>, w: Word)
    requires |s| == w
    ensures Str(s) == U32(w) + s
  {
  }

  lemma StringIsBytes(d: seq<Byte>, p: nat)
    requires TakeString(d, p).Some?
    ensures Str(TakeString(d, p).value) == d[p..p + 4 + |TakeString(d, p).value|]
  {
    var s := TakeString(d, p).value;
    StrIs(s, FromU32(d[p..p + 4]));
    BytesRoundTrip(d[p..p + 4]);
    JoinSlices(d, p, p + 4, p + 4 + |s|);
  }

  // Main result: an account that was read is written as the bytes it was read from, except that only the
  // byte 1 stands for a glow.
  lemma AccountIsServed(d: seq<Byte>, p: nat)
    requires TakeAccount(d, p).Some?
    ensures var a := TakeAccount(d, p).value;
            && p + 45 + |a.name| <= |d|
            && EncodeAccount(a) == d[p..p + 40] + [if d[p + 40] == 1 then 1 else 0] + d[p + 41..p + 45 + |a.name|]
  {
    var a := TakeAccount(d, p).value;
    IntsAreBytes(d, p, Ints(a));
    StringIsBytes(d, p + 41);
  }

  // The client writes the ten integers one after the other.
  method EncodeAccountData(a: Account, buffer: ByteBuffer)
    modifies buffer
    ensures buffer.data == old(buffer.data) + EncodeAccount(a)
  {
    var ints := Ints(a);
    for i := 0 to 10
      invariant buffer.data == old(buffer.data) + IntsBytes(ints[..i])
    {
      buffer.WriteI32(ints[i]);
      assert ints[..i + 1][..i] == ints[..i];
      Assoc(old(buffer.data), IntsBytes(ints[..i]), I32(ints[i]));
    }
    assert ints[..10] == ints;
    buffer.WriteU8(if a.glow then 1 else 0);
    buffer.WriteString(a.name);
  }

  lemma AccountFromParts(d: seq<Byte>, p: nat, ints: seq<Int32>)
    requires |ints| == 10 && IntsAt(d, p, ints) && p + 41 <= |d| && TakeString(d, p + 41).Some?
    ensures TakeAccount(d, p)
         == Some(Account(ints[0], ints[1], ints[2], ints[3], ints[4], ints[5], ints[6], ints[7], ints[8], ints[9],
                         d[p + 40] == 1, TakeString(d, p + 41).value))
  {
    assert TakeI32(d, p + 4 * 0) == Some(ints[0]) && TakeI32(d, p + 4 * 1) == Some(ints[1]);
    assert TakeI32(d, p + 4 * 2) == Some(ints[2]) && TakeI32(d, p + 4 * 3) == Some(ints[3]);
    assert TakeI32(d, p + 4 * 4) == Some(ints[4]) && TakeI32(d, p + 4 * 5) == Some(ints[5]);
    assert TakeI32(d, p + 4 * 6) == Some(ints[6]) && TakeI32(d, p + 4 * 7) == Some(ints[7]);
    assert TakeI32(d, p + 4 * 8) == Some(ints[8]) && TakeI32(d, p + 4 * 9) == Some(ints[9]);
  }

  method DecodeAccountData(buffer: ByteBuffer) returns (r: Option<Account>)
    modifies buffer`position
    ensures r == TakeAccount(buffer.data, old(buffer.position))
  {
    ghost var start := buffer.position;
    var ints: seq<Int32> := [];
    for i := 0 to 10
      invariant |ints| == i && buffer.position == start + 4 * i
      invariant IntsAt(buffer.data, start, ints)
    {
      var n := buffer.ReadI32();
      if n.None? { return None; }
      ints := ints + [n.value];
    }
    var glow := buffer.ReadU8();
    if glow.None? { return None; }
    var name := buffer.ReadString();
    if name.None? { return None; }
    AccountFromParts(buffer.data, start, ints);
    r := Some(Account(ints[0], ints[1], ints[2], ints[3], ints[4], ints[5], ints[6], ints[7], ints[8], ints[9],
                      glow.value == 1, name.value));
  }
}
