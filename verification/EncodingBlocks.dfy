/** Converting to UTF-8 block by block: the state is retained, the value under way is not. */
module EncodingBlocks {
  import Basics
  import EncodingBits
  import opened Encoding
  import opened EncodingProofs
  import opened EncodingTheorems

  /** The bits that go into the bytes after the first are all 0. */
  predicate ZeroTail(c: Scalar) {
    if c < 0x80 then true
    else if c < 0x800 then c & 0x3F == 0
    else if c < 0x10000 then c & 0xFFF == 0
    else c & 0x3FFFF == 0
  }

  /** The continuation bytes of a forgotten value are those of the value exactly when its tail is 0. */
  lemma PendingForgotten(c: Scalar)
    ensures var s := StateAfterFirst(c); Pending(Encoder(s, 0)) == Pending(Encoder(s, c)) <==> ZeroTail(c)
  {
    PendingIs(0);
    PendingIs(c);
    ContinuationsAre(0);
    ContinuationsAre(c);
    EncodingBits.EmptyContinuations(c);
    EncodingBits.EmptyTails(c);
  }

  lemma StartForgets(n: bv32, m: bv32, units: seq<Unit>)
    requires Whole(units)
    ensures Encode(Encoder(EStart, n), units) == Encode(Encoder(EStart, m), units)
  {
  }

  lemma {:induction false} TextConcat(a: seq<Scalar>, b: seq<Scalar>)
    ensures EncodeUtf16(a + b) == EncodeUtf16(a) + EncodeUtf16(b)
    ensures EncodeUtf8(a + b) == EncodeUtf8(a) + EncodeUtf8(b)
    decreases |a|
  {
    if a == [] {
      assert a + b == b;
    } else {
      assert (a + b)[1..] == a[1..] + b;
      TextConcat(a[1..], b);
      Basics.ConcatAssoc(Utf16(a[0]), EncodeUtf16(a[1..]), EncodeUtf16(b));
      Basics.ConcatAssoc(Utf8(a[0]), EncodeUtf8(a[1..]), EncodeUtf8(b));
    }
  }

  /** A text is written completely if more units follow, or if it ends low. */
  lemma {:induction false} EncodePrefix(e: Encoder, text: seq<Scalar>, rest: seq<Unit>)
    requires e.state == EStart && Whole(rest) && (rest != [] || EndsLow(text))
    ensures Whole(EncodeUtf16(text) + rest)
    ensures var r := Encode(Encoder(EStart, 0), rest);
            Encode(e, EncodeUtf16(text) + rest) == (EncodeUtf8(text) + r.0, r.1)
    decreases |text|
  {
    var r := Encode(Encoder(EStart, 0), rest);
    if text == [] {
      assert EncodeUtf16(text) + rest == rest && EncodeUtf8(text) + r.0 == r.0;
      StartForgets(e.nCur16, 0, rest);
    } else {
      var c, tail := text[0], EncodeUtf16(text[1..]) + rest;
      EncodePrefix(Encoder(EStart, c), text[1..], rest);
      WholeText(text[1..]);
      Basics.ConcatAssoc(Utf16(c), EncodeUtf16(text[1..]), rest);
      EncodeChar(e, c, tail);
      Basics.ConcatAssoc(Utf8(c), EncodeUtf8(text[1..]), r.0);
    }
  }

  /** What two blocks write, the second in the state that the first one left. */
  function InBlocks(e: Encoder, first: seq<Unit>, second: seq<Unit>): seq<Byte>
    requires Whole(first) && Whole(second)
  {
    var r := Encode(e, first);
    r.0 + Encode(Encoder(r.1, 0), second).0
  }

  lemma LowBlocks(e: Encoder, first: seq<Scalar>, second: seq<Scalar>)
    requires e.state == EStart && EndsLow(first)
    ensures var (a, b) := (EncodeUtf16(first), EncodeUtf16(second));
      Whole(a) && Whole(b) && Whole(a + b) && InBlocks(e, a, b) == Encode(e, a + b).0
  {
    WholeText(second);
    EncodeLowText(e, first);
    EncodePrefix(e, first, EncodeUtf16(second));
  }

  lemma CancelMiddle(a: seq<Byte>, p: seq<Byte>, q: seq<Byte>, rest: seq<Byte>)
    requires |p| == |q|
    ensures a + (p + rest) == a + (q + rest) <==> p == q
  {
    if a + (p + rest) == a + (q + rest) {
      assert p == (a + (p + rest))[|a|..|a| + |p|];
      assert q == (a + (q + rest))[|a|..|a| + |q|];
    }
  }

  lemma PendingLength(s: EState, n: bv32, m: bv32)
    ensures |Pending(Encoder(s, n))| == |Pending(Encoder(s, m))|
  {
    PendingIs(n);
    PendingIs(m);
  }

  /** All of a text but its last character, and the first byte and the rest of that one. */
  lemma LastCharacter(text: seq<Scalar>)
    requires text != []
    ensures var c := text[|text| - 1];
      EncodeUtf8(text) == HighOutput(text) + Pending(Encoder(StateAfterFirst(c), c))
  {
    var most, c := text[..|text| - 1], text[|text| - 1];
    HighOutputIs(text);
    TextConcat(most, [c]);
    assert text == most + [c] && EncodeUtf8([c]) == Utf8(c);
    FirstByteIs(c);
    BytesOfChar(c);
    Basics.ConcatAssoc(EncodeUtf8(most), [Utf8(c)[0]], Pending(Encoder(StateAfterFirst(c), c)));
  }

  /** What the two blocks write when the first ends in the character c from 0x80 up. */
  lemma SecondBlock(e: Encoder, first: seq<Scalar>, b: seq<Unit>, c: Scalar, rest: seq<Byte>)
    requires e.state == EStart && !EndsLow(first) && c == first[|first| - 1]
    requires b != [] && Whole(b) && rest == Encode(Encoder(EStart, 0), b).0
    ensures Whole(EncodeUtf16(first))
    ensures InBlocks(e, EncodeUtf16(first), b)
      == HighOutput(first) + (Pending(Encoder(StateAfterFirst(c), 0)) + rest)
  {
    EncodeHighText(e, first);
    WritesPending(Encoder(StateAfterFirst(c), 0), b);
  }

  /** What both write at once. */
  lemma BothBlocks(e: Encoder, first: seq<Scalar>, b: seq<Unit>, c: Scalar, rest: seq<Byte>)
    requires e.state == EStart && !EndsLow(first) && c == first[|first| - 1]
    requires b != [] && Whole(b) && rest == Encode(Encoder(EStart, 0), b).0
    ensures Whole(EncodeUtf16(first) + b)
    ensures Encode(e, EncodeUtf16(first) + b).0
      == HighOutput(first) + (Pending(Encoder(StateAfterFirst(c), c)) + rest)
  {
    EncodePrefix(e, first, b);
    LastCharacter(first);
    Basics.ConcatAssoc(HighOutput(first), Pending(Encoder(StateAfterFirst(c), c)), rest);
  }

  lemma HighBlocks(e: Encoder, first: seq<Scalar>, second: seq<Scalar>)
    requires e.state == EStart && !EndsLow(first) && second != []
    ensures var (a, b) := (EncodeUtf16(first), EncodeUtf16(second));
      && Whole(a) && Whole(b) && Whole(a + b)
      && (InBlocks(e, a, b) == Encode(e, a + b).0 <==> ZeroTail(first[|first| - 1]))
  {
    WholeText(second);
    var c, b := first[|first| - 1], EncodeUtf16(second);
    var s, rest := StateAfterFirst(c), Encode(Encoder(EStart, 0), b).0;
    SecondBlock(e, first, b, c, rest);
    BothBlocks(e, first, b, c, rest);
    PendingLength(s, 0, c);
    CancelMiddle(HighOutput(first), Pending(Encoder(s, 0)), Pending(Encoder(s, c)), rest);
    PendingForgotten(c);
  }

  /**
   * Two blocks write what both write at once if and only if the first is empty
   * or its last character is below 0x80, or has no bits in the bytes after its
   * first, or nothing follows.
   */
  lemma BlocksJoinIff(e: Encoder, first: seq<Scalar>, second: seq<Scalar>)
    requires e.state == EStart
    ensures var (a, b) := (EncodeUtf16(first), EncodeUtf16(second));
      && Whole(a) && Whole(b) && Whole(a + b)
      && (InBlocks(e, a, b) == Encode(e, a + b).0
          <==> first == [] || second == [] || ZeroTail(first[|first| - 1]))
  {
    if EndsLow(first) {
      LowBlocks(e, first, second);
    } else if second == [] {
      var a := EncodeUtf16(first);
      WholeText(first);
      assert a + EncodeUtf16(second) == a;
      var r := Encode(e, a);
      assert r.0 + Encode(Encoder(r.1, 0), EncodeUtf16(second)).0 == r.0;
    } else {
      HighBlocks(e, first, second);
    }
  }
}
