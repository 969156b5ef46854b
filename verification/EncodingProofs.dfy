/** The converters agree with the standard encodings and undo each other. */
module EncodingProofs {
  import opened Encoding
  import EncodingBits

  // ------------------------------------------------------- one character

  lemma FeedTwo(d: Decoder, c: Scalar, b0: Byte, b1: Byte)
    requires 0x80 <= c < 0x800 && d.state == EStart
    requires b0 == 0xC0 | ((c >> 6) as Byte) && b1 == 0x80 | ((c & 0x3F) as Byte)
    ensures Feed(d, b0).state == EFinal && Feed(Feed(d, b0), b1) == Decoder(EStart, c)
  {
    EncodingBits.TwoBytes(c);
  }

  lemma FeedThree(d: Decoder, c: Scalar, b0: Byte, b1: Byte, b2: Byte)
    requires 0x800 <= c < 0x10000 && d.state == EStart
    requires b0 == 0xE0 | ((c >> 12) as Byte) && b1 == 0x80 | (((c >> 6) & 0x3F) as Byte)
    requires b2 == 0x80 | ((c & 0x3F) as Byte)
    ensures Feed(d, b0).state == EPenultimate && Feed(Feed(d, b0), b1).state == EFinal
    ensures Feed(Feed(Feed(d, b0), b1), b2) == Decoder(EStart, c)
  {
    EncodingBits.ThreeBytes(c);
  }

  lemma FeedFour(d: Decoder, c: Scalar, b0: Byte, b1: Byte, b2: Byte, b3: Byte)
    requires 0x10000 <= c && d.state == EStart
    requires b0 == 0xF0 | ((c >> 18) as Byte) && b1 == 0x80 | (((c >> 12) & 0x3F) as Byte)
    requires b2 == 0x80 | (((c >> 6) & 0x3F) as Byte) && b3 == 0x80 | ((c & 0x3F) as Byte)
    ensures Feed(d, b0).state == ESecondOf4Bytes && Feed(Feed(d, b0), b1).state == EPenultimate
    ensures Feed(Feed(Feed(d, b0), b1), b2).state == EFinal
    ensures Feed(Feed(Feed(Feed(d, b0), b1), b2), b3) == Decoder(EStart, c)
  {
    EncodingBits.FourBytes(c);
  }

  lemma FeedOne(d: Decoder, c: Scalar, b0: Byte)
    requires c < 0x80 && d.state == EStart && b0 == c as Byte
    ensures Feed(d, b0) == Decoder(EStart, c)
  {
  }

  lemma SplitIsUtf16(c: Scalar)
    ensures Split(c) == Utf16(c)
  {
    if c >= 0x10000 {
      EncodingBits.Pair(c);
    }
  }

  lemma {:induction false} StoredConcat(a: seq<Unit>, b: seq<Unit>, isBigEndian: bool)
    ensures StoredAll(a + b, isBigEndian) == StoredAll(a, isBigEndian) + StoredAll(b, isBigEndian)
    ensures |StoredAll(a, isBigEndian)| == |a|
  {
    if a == [] {
      assert a + b == b;
    } else {
      assert (a + b)[1..] == a[1..] + b;
      StoredConcat(a[1..], b, isBigEndian);
    }
  }

  lemma {:induction false} StoredAt(us: seq<Unit>, isBigEndian: bool, i: nat)
    requires i < |us|
    ensures |StoredAll(us, isBigEndian)| == |us|
    ensures StoredAll(us, isBigEndian)[i] == Stored(us[i], isBigEndian)
  {
    if |us| > 1 {
      StoredAt(us[1..], isBigEndian, if i == 0 then 0 else i - 1);
    }
  }

  /** The states ds are visited one byte at a time, and only the last one is a start state. */
  predicate Visits(ds: seq<Decoder>, bytes: seq<Byte>) {
    && |ds| == |bytes| + 1
    && (forall i :: 0 <= i < |bytes| ==> Feed(ds[i], bytes[i]) == ds[i + 1])
    && (forall i :: 0 < i < |bytes| ==> ds[i].state != EStart)
    && ds[|bytes|].state == EStart
  }

  lemma {:induction false} CompletesOnce(ds: seq<Decoder>, bytes: seq<Byte>, rest: seq<Byte>)
    requires bytes != [] && Visits(ds, bytes)
    ensures Completed(ds[0], bytes + rest) == [ds[|bytes|].nCur] + Completed(ds[|bytes|], rest)
    decreases |bytes|
  {
    assert (bytes + rest)[1..] == bytes[1..] + rest;
    if |bytes| == 1 {
      assert bytes[1..] + rest == rest;
    } else {
      CompletesOnce(ds[1..], bytes[1..], rest);
    }
  }

  /** From the start state the bytes of a character complete exactly that character. */
  lemma CompletesChar(d: Decoder, c: Scalar, rest: seq<Byte>)
    requires d.state == EStart
    ensures Completed(d, Utf8(c) + rest) == [c] + Completed(Decoder(EStart, c), rest)
  {
    var e := Utf8(c);
    var end := Decoder(EStart, c);
    if c < 0x80 {
      FeedOne(d, c, e[0]);
      CompletesOnce([d, end], e, rest);
    } else if c < 0x800 {
      FeedTwo(d, c, e[0], e[1]);
      CompletesOnce([d, Feed(d, e[0]), end], e, rest);
    } else if c < 0x10000 {
      FeedThree(d, c, e[0], e[1], e[2]);
      CompletesOnce([d, Feed(d, e[0]), Feed(Feed(d, e[0]), e[1]), end], e, rest);
    } else {
      FeedFour(d, c, e[0], e[1], e[2], e[3]);
      var d1 := Feed(d, e[0]);
      CompletesOnce([d, d1, Feed(d1, e[1]), Feed(Feed(d1, e[1]), e[2]), end], e, rest);
    }
  }

  lemma {:induction false} CompletesText(d: Decoder, text: seq<Scalar>)
    requires d.state == EStart
    ensures Completed(d, EncodeUtf8(text)) == text
    decreases |text|
  {
    if text != [] {
      CompletesChar(d, text[0], EncodeUtf8(text[1..]));
      CompletesText(Decoder(EStart, text[0]), text[1..]);
    }
  }

  lemma {:induction false} SplitText(text: seq<Scalar>)
    ensures SplitAll(text) == EncodeUtf16(text)
  {
    if text != [] {
      SplitIsUtf16(text[0]);
      SplitText(text[1..]);
    }
  }

  // --------------------------------------------- utf16ToUtf8, one character

  /** The continuation bytes still to be written for the current value. */
  function Pending(e: Encoder): seq<Byte>
    decreases Rank(e.state)
  {
    if e.state == EStart then []
    else
      var (b, s) := Continuation(e);
      [b] + Pending(Encoder(s, e.nCur16))
  }

  lemma {:induction false} WritesPending(e: Encoder, units: seq<Unit>)
    requires units != [] && Whole(units)
    ensures var rest := Encode(Encoder(EStart, e.nCur16), units);
            Encode(e, units) == (Pending(e) + rest.0, rest.1)
    decreases Rank(e.state)
  {
    if e.state != EStart {
      var (b, s) := Continuation(e);
      WritesPending(Encoder(s, e.nCur16), units);
      var rest := Encode(Encoder(EStart, e.nCur16), units);
      assert [b] + (Pending(Encoder(s, e.nCur16)) + rest.0) == Pending(e) + rest.0;
    } else {
      assert e == Encoder(EStart, e.nCur16);
      assert Pending(e) + Encode(e, units).0 == Encode(e, units).0;
    }
  }

  lemma FirstByteIs(c: Scalar)
    ensures FirstByte(c) == Utf8(c)[0]
    ensures (StateAfterFirst(c) == EStart) == (c < 0x80)
  {
    EncodingBits.SameBytes(c);
  }

  lemma ContinuationsAre(c: Scalar)
    ensures Continuation(Encoder(EFinal, c)).0 == 0x80 | ((c & 0x3F) as Byte)
    ensures Continuation(Encoder(EPenultimate, c)).0 == 0x80 | (((c >> 6) & 0x3F) as Byte)
    ensures Continuation(Encoder(ESecondOf4Bytes, c)).0 == 0x80 | (((c >> 12) & 0x3F) as Byte)
  {
    EncodingBits.SameBytes(c);
  }

  lemma PendingIs(n: bv32)
    ensures var e1, e2, e3 := Encoder(EFinal, n), Encoder(EPenultimate, n), Encoder(ESecondOf4Bytes, n);
            && Pending(e1) == [Continuation(e1).0]
            && Pending(e2) == [Continuation(e2).0, Continuation(e1).0]
            && Pending(e3) == [Continuation(e3).0, Continuation(e2).0, Continuation(e1).0]
  {
    var e1, e2 := Encoder(EFinal, n), Encoder(EPenultimate, n);
    assert Pending(e1) == [Continuation(e1).0];
    assert Pending(e2) == [Continuation(e2).0] + Pending(e1);
  }

  lemma ThreeAndMore(b0: Byte, b1: Byte, b2: Byte, b3: Byte)
    ensures [b0] + [b1] == [b0, b1]
    ensures [b0] + [b1, b2] == [b0, b1, b2]
    ensures [b0] + [b1, b2, b3] == [b0, b1, b2, b3]
  {
  }

  lemma BytesOfChar(c: Scalar)
    ensures [FirstByte(c)] + Pending(Encoder(StateAfterFirst(c), c)) == Utf8(c)
  {
    FirstByteIs(c);
    ContinuationsAre(c);
    PendingIs(c);
    var e1, e2, e3 := Encoder(EFinal, c), Encoder(EPenultimate, c), Encoder(ESecondOf4Bytes, c);
    ThreeAndMore(FirstByte(c), Continuation(e1).0, Continuation(e1).0, Continuation(e1).0);
    ThreeAndMore(FirstByte(c), Continuation(e2).0, Continuation(e1).0, Continuation(e1).0);
    ThreeAndMore(FirstByte(c), Continuation(e3).0, Continuation(e2).0, Continuation(e1).0);
  }

  lemma PairIs(c: Scalar)
    requires 0x10000 <= c
    ensures IsLead(Utf16(c)[0]) && !IsLead(Utf16(c)[1])
    ensures Combine(Utf16(c)[0], Utf16(c)[1]) == c
  {
    EncodingBits.Pair(c);
  }

  lemma ReadsPair(lead: Unit, trail: Unit, rest: seq<Unit>)
    requires IsLead(lead) && !IsLead(trail) && Whole(rest)
    ensures var units := [lead, trail] + rest;
            && Whole(units) && UnitsRead(units) == 2 && Value(units) == Combine(lead, trail) && units[2..] == rest
  {
    var units := [lead, trail] + rest;
    assert rest != [] ==> units[|units| - 1] == rest[|rest| - 1];
  }

  /** The code units of a character are read back as that character. */
  lemma ReadsChar(c: Scalar, rest: seq<Unit>)
    requires Whole(rest)
    ensures var units := Utf16(c) + rest;
            && Whole(units) && UnitsRead(units) == |Utf16(c)| && Value(units) == c
            && units[UnitsRead(units)..] == rest
  {
    if c >= 0x10000 {
      PairIs(c);
      ReadsPair(Utf16(c)[0], Utf16(c)[1], rest);
    } else {
      BmpIsNoLead(c);
    }
  }

  lemma BmpIsNoLead(c: Scalar)
    requires c < 0x10000
    ensures !IsLead(c as Unit) && (c as Unit) as bv32 == c
  {
  }

  /** What is written for a character when the input does not end with it, and when it does. */
  lemma EncodeChar(e: Encoder, c: Scalar, rest: seq<Unit>)
    requires e.state == EStart && Whole(rest)
    ensures Whole(Utf16(c) + rest)
    ensures rest != [] || c < 0x80 ==>
              var r := Encode(Encoder(EStart, c), rest);
              Encode(e, Utf16(c) + rest) == (Utf8(c) + r.0, r.1)
    ensures rest == [] && c >= 0x80 ==>
              Encode(e, Utf16(c) + rest) == ([Utf8(c)[0]], StateAfterFirst(c))
  {
    ReadsChar(c, rest);
    BytesOfChar(c);
    FirstByteIs(c);
    var after := Encoder(StateAfterFirst(c), c);
    if rest != [] {
      WritesPending(after, rest);
      var r := Encode(Encoder(EStart, c), rest);
      assert [FirstByte(c)] + (Pending(after) + r.0) == Utf8(c) + r.0;
    } else {
      assert Encode(after, rest) == ([], after.state);
      assert Encode(Encoder(EStart, c), rest) == ([], EStart);
      assert [FirstByte(c)] + [] == [FirstByte(c)];
      assert Utf8(c) + [] == Utf8(c);
    }
  }
}
