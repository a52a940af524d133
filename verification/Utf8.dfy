/**
 UTF-8 (RFC 3629): the encoding of a scalar value, and the browser's streaming
 decoder (the WHATWG Encoding Standard, section 8.1.1), which holds an unfinished
 sequence between chunks and answers malformed input with U+FFFD.
 */
module Utf8 {
  import opened Sequences

  type Byte = b: int | 0 <= b < 256
  type CodePoint = c: int | 0 <= c <= 0x10FFFF
  type Text = seq<CodePoint>

  predicate Surrogate(c: CodePoint) {
    0xD800 <= c <= 0xDFFF
  }

  predicate Scalars(t: Text) {
    forall i :: 0 <= i < |t| ==> !Surrogate(t[i])
  }

  function Bytes(c: CodePoint): (bs: seq<Byte>)
    ensures 1 <= |bs| <= 4
  {
    if c < 0x80 then [c]
    else if c < 0x800 then [0xC0 + c / 0x40, 0x80 + c % 0x40]
    else if c < 0x10000 then [0xE0 + c / 0x1000, 0x80 + c / 0x40 % 0x40, 0x80 + c % 0x40]
    else [0xF0 + c / 0x40000, 0x80 + c / 0x1000 % 0x40, 0x80 + c / 0x40 % 0x40, 0x80 + c % 0x40]
  }

  function Encode(t: Text): seq<Byte> {
    if t == [] then [] else Bytes(t[0]) + Encode(t[1..])
  }

  // ---- The streaming decoder ----

  const REPLACEMENT: CodePoint := 0xFFFD
  const BYTE_ORDER_MARK: CodePoint := 0xFEFF

  /** Bytes still needed, what they may be, and the value so far; `started` once
      the place for a byte order mark has passed. */
  datatype Decoder = Decoder(needed: nat, lower: int, upper: int, value: int, started: bool)

  const FRESH := Decoder(0, 0x80, 0xBF, 0, false)

  function Emit(d: Decoder, c: CodePoint): (Decoder, Text) {
    (Decoder(0, 0x80, 0xBF, 0, true), if !d.started && c == BYTE_ORDER_MARK then [] else [c])
  }

  function Await(d: Decoder, needed: nat, lower: int, upper: int, value: int): (Decoder, Text) {
    (Decoder(needed, lower, upper, value, d.started), [])
  }

  function Lead(d: Decoder, b: Byte): (Decoder, Text) {
    if b < 0x80 then Emit(d, b)
    else if 0xC2 <= b <= 0xDF then Await(d, 1, 0x80, 0xBF, b - 0xC0)
    else if 0xE0 <= b <= 0xEF then
      Await(d, 2, if b == 0xE0 then 0xA0 else 0x80, if b == 0xED then 0x9F else 0xBF, b - 0xE0)
    else if 0xF0 <= b <= 0xF4 then
      Await(d, 3, if b == 0xF0 then 0x90 else 0x80, if b == 0xF4 then 0x8F else 0xBF, b - 0xF0)
    else Emit(d, REPLACEMENT)
  }

  function Feed(d: Decoder, b: Byte): (Decoder, Text) {
    if d.needed == 0 then Lead(d, b)
    else if !(d.lower <= b <= d.upper) then
      var (d1, out) := Emit(d, REPLACEMENT);
      var (d2, more) := Lead(d1, b);
      (d2, out + more)
    else
      var value := d.value * 0x40 + (b - 0x80);
      if d.needed > 1 then Await(d, d.needed - 1, 0x80, 0xBF, value)
      else Emit(d, if 0 <= value <= 0x10FFFF then value else REPLACEMENT)
  }

  function FeedAll(d: Decoder, bs: seq<Byte>): (Decoder, Text)
    decreases |bs|
  {
    if bs == [] then (d, []) else
    var (d1, out) := Feed(d, bs[0]);
    var (d2, more) := FeedAll(d1, bs[1..]);
    (d2, out + more)
  }

  /** Where a byte stream is cut never shows in what it decodes to. */
  lemma {:induction false} FeedSplit(d: Decoder, a: seq<Byte>, b: seq<Byte>)
    ensures var (d1, out) := FeedAll(d, a);
            var (d2, more) := FeedAll(d1, b);
            FeedAll(d, a + b) == (d2, out + more)
    decreases |a|
  {
    if a == [] {
      assert a + b == b;
      assert [] + FeedAll(d, b).1 == FeedAll(d, b).1;
    } else {
      assert (a + b)[0] == a[0] && (a + b)[1..] == a[1..] + b;
      FeedSplit(Feed(d, a[0]).0, a[1..], b);
      var (d1, out) := Feed(d, a[0]);
      var (d2, more) := FeedAll(d1, a[1..]);
      var rest := FeedAll(d2, b).1;
      assert out + (more + rest) == (out + more) + rest;
    }
  }

  predicate Between(d: Decoder) {
    d.needed == 0 && d.lower == 0x80 && d.upper == 0xBF && d.value == 0
  }

  lemma FeedOne(d: Decoder, b: Byte)
    ensures FeedAll(d, [b]) == Feed(d, b)
  {
    var (d1, o1) := Feed(d, b);
    assert [b][1..] == [] && FeedAll(d1, []) == (d1, []);
    assert o1 + [] == o1;
  }

  lemma FeedTwo(d: Decoder, b0: Byte, b1: Byte)
    ensures FeedAll(d, [b0, b1]) == var (d1, o1) := Feed(d, b0); var (d2, o2) := Feed(d1, b1); (d2, o1 + o2)
  {
    assert [b0, b1][1..] == [b1] && [b1][1..] == [];
    var (d1, o1) := Feed(d, b0);
    var (d2, o2) := Feed(d1, b1);
    assert FeedAll(d2, []) == (d2, []);
    assert o2 + [] == o2;
    assert FeedAll(d1, [b1]) == (d2, o2 + []);
  }

  lemma FeedOneByte(d: Decoder, c: CodePoint)
    requires Between(d) && c < 0x80
    ensures FeedAll(d, Bytes(c)) == Emit(d, c)
  {
    assert Bytes(c)[1..] == [];
    assert Emit(d, c).1 + [] == Emit(d, c).1;
  }

  lemma FeedTwoBytes(d: Decoder, c: CodePoint)
    requires Between(d) && 0x80 <= c < 0x800
    ensures FeedAll(d, Bytes(c)) == Emit(d, c)
  {
    var bs := Bytes(c);
    FeedTwo(d, bs[0], bs[1]);
    var d1 := Decoder(1, 0x80, 0xBF, c / 0x40, d.started);
    assert Feed(d, bs[0]) == (d1, []);
    assert d1.value * 0x40 + (bs[1] - 0x80) == c;
    assert Feed(d1, bs[1]) == Emit(d, c);
    assert [] + Emit(d, c).1 == Emit(d, c).1;
  }

  lemma ThreeBytes(c: CodePoint)
    requires 0x800 <= c < 0x10000 && !Surrogate(c)
    ensures var bs := Bytes(c);
            && |bs| == 3 && 0xE0 <= bs[0] <= 0xEF && bs[0] - 0xE0 == c / 0x1000
            && (if bs[0] == 0xE0 then 0xA0 else 0x80) <= bs[1] <= (if bs[0] == 0xED then 0x9F else 0xBF)
            && 0x80 <= bs[2] <= 0xBF
            && c / 0x1000 * 0x40 + (bs[1] - 0x80) == c / 0x40 && c / 0x40 * 0x40 + (bs[2] - 0x80) == c
  {
  }

  lemma FourBytes(c: CodePoint)
    requires 0x10000 <= c
    ensures var bs := Bytes(c);
            && |bs| == 4 && 0xF0 <= bs[0] <= 0xF4 && bs[0] - 0xF0 == c / 0x40000
            && (if bs[0] == 0xF0 then 0x90 else 0x80) <= bs[1] <= (if bs[0] == 0xF4 then 0x8F else 0xBF)
            && 0x80 <= bs[2] <= 0xBF && 0x80 <= bs[3] <= 0xBF
            && c / 0x40000 * 0x40 + (bs[1] - 0x80) == c / 0x1000
            && c / 0x1000 * 0x40 + (bs[2] - 0x80) == c / 0x40 && c / 0x40 * 0x40 + (bs[3] - 0x80) == c
  {
  }

  lemma FeedThreeBytes(d: Decoder, c: CodePoint)
    requires Between(d) && 0x800 <= c < 0x10000 && !Surrogate(c)
    ensures FeedAll(d, Bytes(c)) == Emit(d, c)
  {
    var bs := Bytes(c);
    ThreeBytes(c);
    FeedThree(d, bs[0], bs[1], bs[2], c / 0x1000, c / 0x40, c);
    assert bs == [bs[0], bs[1], bs[2]];
  }

  lemma FeedThree(d: Decoder, b0: Byte, b1: Byte, b2: Byte, v0: int, v1: int, c: CodePoint)
    requires Between(d) && 0xE0 <= b0 <= 0xEF && v0 == b0 - 0xE0 && v1 == v0 * 0x40 + (b1 - 0x80) && c == v1 * 0x40 + (b2 - 0x80)
    requires (if b0 == 0xE0 then 0xA0 else 0x80) <= b1 <= (if b0 == 0xED then 0x9F else 0xBF) && 0x80 <= b2 <= 0xBF
    ensures FeedAll(d, [b0, b1, b2]) == Emit(d, c)
  {
    FeedSplit(d, [b0], [b1, b2]);
    assert [b0, b1, b2] == [b0] + [b1, b2];
    FeedOne(d, b0);
    var d1 := Feed(d, b0).0;
    FeedTwo(d1, b1, b2);
    assert Feed(d1, b1) == (Decoder(1, 0x80, 0xBF, v1, d.started), []);
    assert [] + ([] + Emit(d, c).1) == Emit(d, c).1;
  }

  lemma FeedFourBytes(d: Decoder, c: CodePoint)
    requires Between(d) && 0x10000 <= c
    ensures FeedAll(d, Bytes(c)) == Emit(d, c)
  {
    var bs := Bytes(c);
    FourBytes(c);
    FeedFour(d, bs[0], bs[1], bs[2], bs[3], c / 0x40000, c / 0x1000, c / 0x40, c);
    assert bs == [bs[0], bs[1], bs[2], bs[3]];
  }

  lemma FeedFour(d: Decoder, b0: Byte, b1: Byte, b2: Byte, b3: Byte, v0: int, v1: int, v2: int, c: CodePoint)
    requires Between(d) && 0xF0 <= b0 <= 0xF4 && v0 == b0 - 0xF0 && v1 == v0 * 0x40 + (b1 - 0x80)
    requires v2 == v1 * 0x40 + (b2 - 0x80) && c == v2 * 0x40 + (b3 - 0x80)
    requires (if b0 == 0xF0 then 0x90 else 0x80) <= b1 <= (if b0 == 0xF4 then 0x8F else 0xBF) && 0x80 <= b2 <= 0xBF && 0x80 <= b3 <= 0xBF
    ensures FeedAll(d, [b0, b1, b2, b3]) == Emit(d, c)
  {
    FeedSplit(d, [b0, b1], [b2, b3]);
    assert [b0, b1, b2, b3] == [b0, b1] + [b2, b3];
    FeedTwo(d, b0, b1);
    var d2 := Decoder(2, 0x80, 0xBF, v1, d.started);
    assert Feed(Feed(d, b0).0, b1) == (d2, []);
    FeedTwo(d2, b2, b3);
    assert Feed(d2, b2) == (Decoder(1, 0x80, 0xBF, v2, d.started), []);
    assert [] + ([] + Emit(d, c).1) == Emit(d, c).1;
  }

  /** One scalar's bytes, fed between sequences, come out as that scalar. */
  lemma FeedScalar(d: Decoder, c: CodePoint)
    requires Between(d) && !Surrogate(c)
    ensures FeedAll(d, Bytes(c)) == Emit(d, c)
  {
    if c < 0x80 {
      FeedOneByte(d, c);
    } else if c < 0x800 {
      FeedTwoBytes(d, c);
    } else if c < 0x10000 {
      FeedThreeBytes(d, c);
    } else {
      FeedFourBytes(d, c);
    }
  }

  lemma {:induction false} DecodeStarted(d: Decoder, t: Text)
    requires Between(d) && d.started && Scalars(t)
    ensures FeedAll(d, Encode(t)) == (d, t)
    decreases |t|
  {
    if t != [] {
      FeedSplit(d, Bytes(t[0]), Encode(t[1..]));
      FeedScalar(d, t[0]);
      assert Emit(d, t[0]) == (d, [t[0]]);
      DecodeStarted(d, t[1..]);
      assert [t[0]] + t[1..] == t;
    }
  }

  lemma DecodeFirst(c: CodePoint, rest: Text)
    requires !Surrogate(c) && Scalars(rest) && c != BYTE_ORDER_MARK
    ensures FeedAll(FRESH, Encode([c] + rest)).1 == [c] + rest
  {
    FeedSplit(FRESH, Bytes(c), Encode(rest));
    FeedScalar(FRESH, c);
    DecodeStarted(Emit(FRESH, c).0, rest);
    assert ([c] + rest)[1..] == rest;
  }

  /** Text survives the wire unless it starts with a byte order mark. */
  lemma DecodeEncode(t: Text)
    requires Scalars(t) && (t == [] || t[0] != BYTE_ORDER_MARK)
    ensures FeedAll(FRESH, Encode(t)).1 == t
  {
    if t != [] {
      DecodeFirst(t[0], t[1..]);
      assert t == [t[0]] + t[1..];
    }
  }

  // ---- Nothing but an encoding decodes without a replacement ----

  lemma SixBits(c: int)
    requires 0 <= c
    ensures c / 0x1000 == c / 0x40 / 0x40 && c / 0x40000 == c / 0x40 / 0x40 / 0x40
    ensures c / 0x1000 % 0x40 == c / 0x40 / 0x40 % 0x40
  {
  }

  /** What may follow this first byte. */
  predicate Second(b0: Byte, b1: Byte) {
    && (if b0 == 0xE0 then 0xA0 else if b0 == 0xF0 then 0x90 else 0x80) <= b1
    && b1 <= (if b0 == 0xED then 0x9F else if b0 == 0xF4 then 0x8F else 0xBF)
  }

  predicate Continues(b: Byte) {
    0x80 <= b <= 0xBF
  }

  /** Six bits more. */
  function Then(value: int, b: int): int {
    value * 0x40 + (b - 0x80)
  }

  predicate Open(d: Decoder, needed: nat, value: int) {
    d.needed == needed && d.lower == 0x80 && d.upper == 0xBF && d.value == value
  }

  /** These bytes are the start of a sequence the decoder has still to complete. */
  predicate Holding(d: Decoder, held: seq<Byte>) {
    match |held|
    case 0 => Between(d)
    case 1 =>
      || (0xC2 <= held[0] <= 0xDF && Open(d, 1, held[0] - 0xC0))
      || (0xE0 <= held[0] <= 0xEF && d.needed == 2 && d.value == held[0] - 0xE0
          && d.lower == (if held[0] == 0xE0 then 0xA0 else 0x80) && d.upper == (if held[0] == 0xED then 0x9F else 0xBF))
      || (0xF0 <= held[0] <= 0xF4 && d.needed == 3 && d.value == held[0] - 0xF0
          && d.lower == (if held[0] == 0xF0 then 0x90 else 0x80) && d.upper == (if held[0] == 0xF4 then 0x8F else 0xBF))
    case 2 =>
      || (0xE0 <= held[0] <= 0xEF && Second(held[0], held[1]) && Open(d, 1, Then(held[0] - 0xE0, held[1])))
      || (0xF0 <= held[0] <= 0xF4 && Second(held[0], held[1]) && Open(d, 2, Then(held[0] - 0xF0, held[1])))
    case 3 =>
      && 0xF0 <= held[0] <= 0xF4 && Second(held[0], held[1]) && Continues(held[2])
      && Open(d, 1, Then(Then(held[0] - 0xF0, held[1]), held[2]))
    case _ => false
  }

  lemma Unthen(value: int, b: int)
    requires 0 <= value && 0x80 <= b <= 0xBF
    ensures Then(value, b) / 0x40 == value && Then(value, b) % 0x40 == b - 0x80
  {
  }

  lemma TwoBytesAre(b0: Byte, b1: Byte) returns (c: CodePoint)
    requires 0xC2 <= b0 <= 0xDF && Continues(b1)
    ensures c == Then(b0 - 0xC0, b1) && !Surrogate(c) && Bytes(c) == [b0, b1]
  {
    c := Then(b0 - 0xC0, b1);
    Unthen(b0 - 0xC0, b1);
  }

  lemma ThreeBytesAre(b0: Byte, b1: Byte, b2: Byte) returns (c: CodePoint)
    requires 0xE0 <= b0 <= 0xEF && Second(b0, b1) && Continues(b2)
    ensures c == Then(Then(b0 - 0xE0, b1), b2) && !Surrogate(c) && Bytes(c) == [b0, b1, b2]
  {
    var v := Then(b0 - 0xE0, b1);
    c := Then(v, b2);
    Unthen(b0 - 0xE0, b1);
    Unthen(v, b2);
    SixBits(c);
  }

  lemma FourBytesAre(b0: Byte, b1: Byte, b2: Byte, b3: Byte) returns (c: CodePoint)
    requires 0xF0 <= b0 <= 0xF4 && Second(b0, b1) && Continues(b2) && Continues(b3)
    ensures c == Then(Then(Then(b0 - 0xF0, b1), b2), b3)
    ensures !Surrogate(c) && Bytes(c) == [b0, b1, b2, b3]
  {
    var v := Then(b0 - 0xF0, b1);
    var w := Then(v, b2);
    c := Then(w, b3);
    Unthen(b0 - 0xF0, b1);
    Unthen(v, b2);
    Unthen(w, b3);
    SixBits(c);
  }

  /** What one byte more comes to: nothing yet, and it is held too, or a completed scalar. */
  predicate Came(d: Decoder, held: seq<Byte>, b: Byte, done: Text) {
    var (d', out) := Feed(d, b);
    && |done| <= 1 && Scalars(done) && (if done == [] then out == [] && d'.started == d.started else (d', out) == Emit(d, done[0]))
    && Holding(d', if done == [] then held + [b] else [])
    && (done != [] ==> Bytes(done[0]) == held + [b])
  }

  lemma FeedFirst(d: Decoder, b: Byte) returns (done: Text)
    requires Between(d) && REPLACEMENT !in Feed(d, b).1
    ensures Came(d, [], b, done)
  {
    done := if b < 0x80 then [b] else [];
    assert [] + [b] == [b];
  }

  lemma FeedLast(d: Decoder, held: seq<Byte>, b: Byte) returns (done: Text)
    requires Holding(d, held) && d.needed == 1 && REPLACEMENT !in Feed(d, b).1
    ensures Came(d, held, b, done)
  {
    var c: CodePoint;
    if |held| == 1 {
      c := TwoBytesAre(held[0], b);
    } else if |held| == 2 {
      c := ThreeBytesAre(held[0], held[1], b);
    } else {
      c := FourBytesAre(held[0], held[1], held[2], b);
    }
    done := [c];
  }

  /** Unless a replacement comes out. */
  lemma FeedHolds(d: Decoder, held: seq<Byte>, b: Byte) returns (done: Text)
    requires Holding(d, held) && REPLACEMENT !in Feed(d, b).1
    ensures Came(d, held, b, done)
  {
    if held == [] {
      done := FeedFirst(d, b);
    } else if d.needed == 1 {
      done := FeedLast(d, held, b);
    } else {
      done := [];
    }
  }

  lemma EncodeMore(done: Text, t: Text)
    requires |done| <= 1
    ensures Encode(done + t) == (if done == [] then [] else Bytes(done[0])) + Encode(t)
    ensures Scalars(done) && Scalars(t) ==> Scalars(done + t)
  {
    if done == [] {
      Unit(t);
      Unit(Encode(t));
    } else {
      assert (done + t)[1..] == t;
    }
  }

  lemma FeedMore(d: Decoder, bs: seq<Byte>)
    requires bs != [] && REPLACEMENT !in FeedAll(d, bs).1
    ensures REPLACEMENT !in Feed(d, bs[0]).1 && REPLACEMENT !in FeedAll(Feed(d, bs[0]).0, bs[1..]).1
  {
    var (d1, out) := Feed(d, bs[0]);
    var more := FeedAll(d1, bs[1..]).1;
    assert forall c :: c in out || c in more ==> c in out + more;
  }

  lemma HeldMore(held: seq<Byte>, bs: seq<Byte>)
    requires bs != []
    ensures held + bs == held + [bs[0]] + bs[1..]
  {
    assert bs == [bs[0]] + bs[1..];
    Associative(held, [bs[0]], bs[1..]);
  }

  /** What was held and one byte more, and the rest of the body taken up after it. */
  lemma TakenUp(held: seq<Byte>, bs: seq<Byte>, done: Text, later: Text, end: seq<Byte>)
    requires bs != [] && |done| <= 1 && (done != [] ==> Bytes(done[0]) == held + [bs[0]])
    requires (if done == [] then held + [bs[0]] else []) + bs[1..] == Encode(later) + end
    ensures held + bs == Encode(done + later) + end
  {
    HeldMore(held, bs);
    EncodeMore(done, later);
    if done == [] {
      Unit(Encode(later));
    } else {
      Unit(bs[1..]);
      Associative(Bytes(done[0]), Encode(later), end);
    }
  }

  lemma CameOut(d: Decoder, b: Byte, bs: seq<Byte>, done: Text, later: Text)
    requires bs != [] && bs[0] == b && |done| <= 1
    requires var (d1, out) := Feed(d, b);
             && (if done == [] then out == [] && d1.started == d.started else (d1, out) == Emit(d, done[0]))
             && FeedAll(d1, bs[1..]).1 == if !d1.started && later != [] && later[0] == BYTE_ORDER_MARK then later[1..] else later
    ensures var t := done + later;
            FeedAll(d, bs).1 == if !d.started && t != [] && t[0] == BYTE_ORDER_MARK then t[1..] else t
  {
    Unit(later);
    Unit(FeedAll(Feed(d, b).0, bs[1..]).1);
    if done != [] {
      assert (done + later)[1..] == later && done == [done[0]];
    }
  }

  /** Whatever a body holds, if decoding it replaces nothing then it is the encoding of
      what comes out, but for a leading byte order mark and a last sequence cut short. */
  lemma {:induction false} DecodesOnlyEncodings(d: Decoder, held: seq<Byte>, bs: seq<Byte>) returns (t: Text, rest: seq<Byte>)
    requires Holding(d, held) && REPLACEMENT !in FeedAll(d, bs).1
    ensures held + bs == Encode(t) + rest && Scalars(t) && Holding(FeedAll(d, bs).0, rest)
    ensures FeedAll(d, bs).1 == if !d.started && t != [] && t[0] == BYTE_ORDER_MARK then t[1..] else t
    decreases |bs|
  {
    if bs == [] {
      t, rest := [], held;
      Unit(held);
    } else {
      FeedMore(d, bs);
      var done := FeedHolds(d, held, bs[0]);
      var later, end := DecodesOnlyEncodings(Feed(d, bs[0]).0, if done == [] then held + [bs[0]] else [], bs[1..]);
      t, rest := done + later, end;
      TakenUp(held, bs, done, later, end);
      EncodeMore(done, later);
      CameOut(d, bs[0], bs, done, later);
    }
  }
}
