/** Whole texts: exactness of both converters and of both length predictors. */
module EncodingTheorems {
  import opened Encoding
  import opened EncodingProofs
  import EncodingBits
  import Basics

  // -------------------------------------------------------------- to UTF-16

  /** On the UTF-8 of any text, in either byte order, the code units written
      are the UTF-16 of the text. */
  lemma ToUtf16IsExact(text: seq<Scalar>, isBigEndian: bool)
    ensures ToUtf16(EncodeUtf8(text), isBigEndian) == StoredAll(EncodeUtf16(text), isBigEndian)
  {
    CompletesText(Decoder(EStart, 0), text);
    SplitText(text);
  }

  lemma LeadByteLength(c: Scalar)
    ensures CharLen(Utf8(c)[0]) == |Utf8(c)|
    ensures (CharLen(Utf8(c)[0]) == 4) == (|Utf16(c)| == 2)
  {
    if c < 0x80 {
      LowByte(c);
    } else if c < 0x800 {
      EncodingBits.TwoBytes(c);
    } else if c < 0x10000 {
      EncodingBits.ThreeBytes(c);
    } else {
      EncodingBits.FourBytes(c);
    }
  }

  lemma LowByte(c: bv32)
    requires c < 0x80
    ensures (c as Byte) < 0x80
  {
  }

  /** The prediction of utf16LengthFromUtf8 is the exact number of code units. */
  lemma {:induction false} UnitsPredictedExactly(text: seq<Scalar>)
    ensures UnitsPredicted(EncodeUtf8(text)) == |EncodeUtf16(text)|
  {
    if text != [] {
      var c, rest := text[0], EncodeUtf8(text[1..]);
      LeadByteLength(c);
      assert Skip(Utf8(c) + rest, |Utf8(c)|) == rest;
      UnitsPredictedExactly(text[1..]);
    }
  }

  // --------------------------------------------------------------- to UTF-8

  /** The last character is written completely although the input ends with it. */
  predicate EndsLow(text: seq<Scalar>) {
    text == [] || text[|text| - 1] < 0x80
  }

  lemma {:induction false} WholeText(text: seq<Scalar>)
    ensures Whole(EncodeUtf16(text))
    ensures EncodeUtf16(text) == [] <==> text == []
  {
    if text != [] {
      WholeText(text[1..]);
      ReadsChar(text[0], EncodeUtf16(text[1..]));
    }
  }

  lemma {:induction false} EncodeLowText(e: Encoder, text: seq<Scalar>)
    requires e.state == EStart && EndsLow(text)
    ensures Whole(EncodeUtf16(text))
    ensures Encode(e, EncodeUtf16(text)) == (EncodeUtf8(text), EStart)
    decreases |text|
  {
    WholeText(text);
    if text != [] {
      WholeText(text[1..]);
      EncodeChar(e, text[0], EncodeUtf16(text[1..]));
      EncodeLowText(Encoder(EStart, text[0]), text[1..]);
    }
  }

  lemma FirstOfMore(text: seq<Scalar>)
    requires |text| > 1
    ensures EncodeUtf16(text) == Utf16(text[0]) + EncodeUtf16(text[1..])
    ensures EncodeUtf8(text) == Utf8(text[0]) + EncodeUtf8(text[1..])
  {
  }

  lemma LastOfMore(text: seq<Scalar>)
    requires |text| > 1
    ensures EndsLow(text) == EndsLow(text[1..]) && text[1..][|text| - 2] == text[|text| - 1]
    ensures HighOutput(text) == Utf8(text[0]) + HighOutput(text[1..])
  {
  }

  /** One character before a text of which the output is known. */
  lemma EncodeMore(e: Encoder, text: seq<Scalar>, out: seq<Byte>, final: EState)
    requires e.state == EStart && |text| > 1 && Whole(EncodeUtf16(text[1..]))
    requires Encode(Encoder(EStart, text[0]), EncodeUtf16(text[1..])) == (out, final)
    ensures Whole(EncodeUtf16(text))
    ensures Encode(e, EncodeUtf16(text)) == (Utf8(text[0]) + out, final)
  {
    WholeText(text[1..]);
    FirstOfMore(text);
    EncodeChar(e, text[0], EncodeUtf16(text[1..]));
  }

  /** All characters are written but the last, of which there is one byte. */
  ghost predicate LosesLast(e: Encoder, text: seq<Scalar>)
    requires text != []
  {
    && Whole(EncodeUtf16(text))
    && Encode(e, EncodeUtf16(text)) == (HighOutput(text), StateAfterFirst(text[|text| - 1]))
  }

  lemma HighMore(e: Encoder, text: seq<Scalar>, tail: seq<Scalar>)
    requires e.state == EStart && |text| > 1 && tail == text[1..] && LosesLast(Encoder(EStart, text[0]), tail)
    ensures LosesLast(e, text)
  {
    LastOfMore(text);
    EncodeMore(e, text, HighOutput(tail), StateAfterFirst(tail[|tail| - 1]));
  }

  lemma HighAlone(e: Encoder, text: seq<Scalar>)
    requires e.state == EStart && |text| == 1 && !EndsLow(text)
    ensures LosesLast(e, text)
  {
    EncodeHighChar(e, text[0]);
    assert text == [text[0]];
  }

  /** A text that ends in a character from 0x80 up loses all but one byte of it. */
  lemma {:induction false} EncodeHighText(e: Encoder, text: seq<Scalar>)
    requires e.state == EStart && !EndsLow(text)
    ensures LosesLast(e, text)
    decreases |text|
  {
    if |text| == 1 {
      HighAlone(e, text);
    } else {
      EncodeHighText(Encoder(EStart, text[0]), text[1..]);
      HighMore(e, text, text[1..]);
    }
  }

  /** So the output is shorter than the UTF-8 of the text. */
  lemma HighOutputIsShort(text: seq<Scalar>)
    requires !EndsLow(text)
    ensures |HighOutput(text)| < |EncodeUtf8(text)|
    decreases |text|
  {
    if |text| == 1 {
      HighIsLong(text[0]);
      assert EncodeUtf8(text) == Utf8(text[0]) + EncodeUtf8(text[1..]);
    } else {
      FirstOfMore(text);
      LastOfMore(text);
      HighOutputIsShort(text[1..]);
    }
  }

  /** All characters but the last, and one byte of the last. */
  function HighOutput(text: seq<Scalar>): seq<Byte>
    requires text != []
  {
    if |text| == 1 then [Utf8(text[0])[0]] else Utf8(text[0]) + HighOutput(text[1..])
  }

  lemma {:induction false} HighOutputIs(text: seq<Scalar>)
    requires text != []
    ensures HighOutput(text) == EncodeUtf8(text[..|text| - 1]) + [Utf8(text[|text| - 1])[0]]
  {
    if |text| > 1 {
      var most := text[..|text| - 1];
      assert most[1..] == text[1..][..|text| - 2];
      HighOutputIs(text[1..]);
      Basics.ConcatAssoc(Utf8(text[0]), EncodeUtf8(most[1..]), [Utf8(text[|text| - 1])[0]]);
    }
  }

  lemma EncodeHighChar(e: Encoder, c: Scalar)
    requires e.state == EStart && c >= 0x80
    ensures Whole(EncodeUtf16([c]))
    ensures Encode(e, EncodeUtf16([c])) == (HighOutput([c]), StateAfterFirst(c))
  {
    WholeText([c]);
    EncodeChar(e, c, []);
    FirstByteIs(c);
    assert [c][1..] == [];
  }

  lemma HighIsLong(c: Scalar)
    requires c >= 0x80
    ensures |Utf8(c)| >= 2
  {
  }

  /**
   * utf16ToUtf8 is exact on a text, and is ready for the next block, if and
   * only if the text is empty or ends in a character below 0x80: it stops once
   * the input is consumed. The terminator that convertUtf16ToUtf8 includes is
   * such a last character.
   */
  lemma ToUtf8IsExactIffEndsLow(e: Encoder, text: seq<Scalar>)
    requires e.state == EStart
    ensures Whole(EncodeUtf16(text))
    ensures Encode(e, EncodeUtf16(text)) == (EncodeUtf8(text), EStart) <==> EndsLow(text)
    ensures Encode(e, EncodeUtf16(text)).0 == EncodeUtf8(text) <==> EndsLow(text)
  {
    if EndsLow(text) {
      EncodeLowText(e, text);
    } else {
      EncodeHighText(e, text);
      HighOutputIsShort(text);
      HighIsLong(text[|text| - 1]);
    }
  }

  lemma UnitKind(c: Scalar)
    ensures var u := Utf16(c)[0];
            |Utf8(c)| == if u < 0x80 then 1 else if u < 0x800 then 2 else if IsLead(u) then 4 else 3
    ensures IsLead(Utf16(c)[0]) == (|Utf16(c)| == 2)
    ensures IsLead(Utf16(c)[0]) ==> Utf16(c)[0] >= 0x800
  {
    if c >= 0x10000 {
      PairIs(c);
    } else {
      BmpIsNoLead(c);
      BmpKeepsOrder(c);
    }
  }

  lemma BmpKeepsOrder(c: bv32)
    requires c < 0x10000
    ensures (c as Unit) < 0x80 <==> c < 0x80
    ensures (c as Unit) < 0x800 <==> c < 0x800
  {
  }

  /** The prediction of utf8LengthFromUtf16 is the exact number of bytes. */
  lemma {:induction false} BytesPredictedExactly(text: seq<Scalar>)
    ensures BytesPredicted(EncodeUtf16(text)) == |EncodeUtf8(text)|
  {
    if text != [] {
      var c, rest := text[0], EncodeUtf16(text[1..]);
      UnitKind(c);
      assert Skip(Utf16(c) + rest, |Utf16(c)|) == rest;
      assert |Utf16(c)| == 1 ==> (Utf16(c) + rest)[1..] == rest;
      BytesPredictedExactly(text[1..]);
    }
  }

  // ------------------------------------------------------------ round trips

  /** Bytes in memory written in one byte order are read back in the same order. */
  lemma {:induction false} MemoryRoundTrip(units: seq<Unit>, isBigEndian: bool)
    ensures Units(Memory(StoredAll(units, isBigEndian)), isBigEndian) == units
  {
    if units != [] {
      EncodingBits.UnitBytes(units[0]);
      var rest := Memory(StoredAll(units[1..], isBigEndian));
      var memory := Memory(StoredAll(units, isBigEndian));
      assert StoredAll(units, isBigEndian)[1..] == StoredAll(units[1..], isBigEndian);
      assert memory[2..] == rest;
      MemoryRoundTrip(units[1..], isBigEndian);
    }
  }

  lemma {:induction false} MemorySize(units: seq<Unit>, isBigEndian: bool)
    ensures |Memory(StoredAll(units, isBigEndian))| == 2 * |units|
  {
    if units != [] {
      assert StoredAll(units, isBigEndian)[1..] == StoredAll(units[1..], isBigEndian);
      MemorySize(units[1..], isBigEndian);
    }
  }

  /** UTF-8 to UTF-16 and back, over memory, in either byte order. */
  lemma Utf8RoundTrip(text: seq<Scalar>, isBigEndian: bool)
    ensures var units := Units(Memory(ToUtf16(EncodeUtf8(text), isBigEndian)), isBigEndian);
            Whole(units) && (Encode(Encoder(EStart, 0), units).0 == EncodeUtf8(text) <==> EndsLow(text))
  {
    ToUtf16IsExact(text, isBigEndian);
    MemoryRoundTrip(EncodeUtf16(text), isBigEndian);
    ToUtf8IsExactIffEndsLow(Encoder(EStart, 0), text);
  }

  lemma LeadByteCompletesNothing(d: Decoder, b: Byte)
    requires d.state == EStart && b >= 0xC0
    ensures Feed(d, b).state != EStart
  {
  }

  lemma HighStartsWithLead(c: Scalar)
    requires c >= 0x80
    ensures Utf8(c)[0] >= 0xC0
  {
    if c < 0x800 {
      EncodingBits.TwoBytes(c);
      EncodingBits.TwoByteLead(c);
    } else if c < 0x10000 {
      EncodingBits.ThreeBytes(c);
    } else {
      EncodingBits.FourBytes(c);
    }
  }

  lemma {:induction false} CompletesBeforeLead(d: Decoder, text: seq<Scalar>, b: Byte)
    requires d.state == EStart && b >= 0xC0
    ensures Completed(d, EncodeUtf8(text) + [b]) == text
    decreases |text|
  {
    if text == [] {
      LeadByteCompletesNothing(d, b);
      assert EncodeUtf8(text) + [b] == [b];
      assert [b][1..] == [];
    } else {
      assert EncodeUtf8(text) + [b] == Utf8(text[0]) + (EncodeUtf8(text[1..]) + [b]);
      CompletesChar(d, text[0], EncodeUtf8(text[1..]) + [b]);
      CompletesBeforeLead(Decoder(EStart, text[0]), text[1..], b);
    }
  }

  lemma {:induction false} LastCharCounts(text: seq<Scalar>)
    requires text != []
    ensures |EncodeUtf16(text[..|text| - 1])| < |EncodeUtf16(text)|
  {
    if |text| > 1 {
      assert text[..|text| - 1][1..] == text[1..][..|text| - 2];
      LastCharCounts(text[1..]);
    }
  }

  /** UTF-16 to UTF-8 and back, over memory, in either byte order. */
  lemma Utf16RoundTrip(text: seq<Scalar>, isBigEndian: bool)
    ensures var memory := Memory(StoredAll(EncodeUtf16(text), isBigEndian));
            && Whole(Units(memory, isBigEndian))
            && (Memory(ToUtf16(Encode(Encoder(EStart, 0), Units(memory, isBigEndian)).0, isBigEndian)) == memory
                <==> EndsLow(text))
  {
    MemoryRoundTrip(EncodeUtf16(text), isBigEndian);
    if EndsLow(text) {
      EncodeLowText(Encoder(EStart, 0), text);
      ToUtf16IsExact(text, isBigEndian);
    } else {
      var most, c := text[..|text| - 1], text[|text| - 1];
      EncodeHighText(Encoder(EStart, 0), text);
      HighOutputIs(text);
      HighStartsWithLead(c);
      CompletesBeforeLead(Decoder(EStart, 0), most, Utf8(c)[0]);
      SplitText(most);
      LastCharCounts(text);
      MemorySize(EncodeUtf16(text), isBigEndian);
      MemorySize(EncodeUtf16(most), isBigEndian);
    }
  }

  lemma {:induction false} Utf8Terminated(text: seq<Scalar>)
    ensures EncodeUtf8(text + [0]) == EncodeUtf8(text) + [0]
    ensures EncodeUtf16(text + [0]) == EncodeUtf16(text) + [0]
  {
    if text == [] {
      assert text + [0] == [0];
      assert EncodeUtf8([0]) == [0] && EncodeUtf16([0]) == [0];
    } else {
      assert (text + [0])[1..] == text[1..] + [0];
      Utf8Terminated(text[1..]);
    }
  }

  /** With the terminator included, as convertUtf16ToUtf8 includes it, the text
      is unrestricted, and one byte more than predicted is written. */
  lemma TerminatedIsExact(text: seq<Scalar>)
    ensures Whole(EncodeUtf16(text) + [0])
    ensures Encode(Encoder(EStart, 0), EncodeUtf16(text) + [0]).0 == EncodeUtf8(text) + [0]
    ensures |Encode(Encoder(EStart, 0), EncodeUtf16(text) + [0]).0| == BytesPredicted(EncodeUtf16(text)) + 1
  {
    Utf8Terminated(text);
    EncodeLowText(Encoder(EStart, 0), text + [0]);
    BytesPredictedExactly(text);
  }
}
