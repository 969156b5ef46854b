/** The encoding object, with its loops, its output buffers and its retained state. */
module EncodingObject {
  import opened Encoding
  import opened EncodingProofs

  class ASEncoding {
    /** The state that utf16ToUtf8 keeps for the next block. */
    var state: EState

    constructor ()
      ensures state == EStart
    {
      state := EStart;
    }

    /** The length of a code-unit string: the position of its terminator. */
    method Utf16Len(utf16In: seq<Unit>) returns (length: nat)
      requires exists k :: 0 <= k < |utf16In| && utf16In[k] == 0
      ensures length < |utf16In| && utf16In[length] == 0
      ensures 0 !in utf16In[..length]
    {
      length := 0;
      while utf16In[length] != 0
        invariant 0 <= length < |utf16In|
        invariant 0 !in utf16In[..length]
        invariant exists k :: length <= k < |utf16In| && utf16In[k] == 0
        decreases |utf16In| - length
      {
        length := length + 1;
      }
    }

    /** The length in bytes of the UTF-16 made from the first len bytes of utf8In. */
    method Utf16LengthFromUtf8(utf8In: seq<Byte>, len: nat) returns (length: nat)
      requires len <= |utf8In|
      ensures length == 2 * UnitsPredicted(utf8In[..len])
    {
      var ulen, i := 0, 0;
      ghost var all := utf8In[..len];
      while i < len
        invariant ulen + UnitsPredicted(Skip(all, i)) == UnitsPredicted(all)
        decreases len - i
      {
        var ch := utf8In[i];
        PredictStep(all, i);
        var charLen;
        if ch < 0x80 {
          charLen := 1;
        } else if ch < 0xE0 {
          charLen := 2;
        } else if ch < 0xF0 {
          charLen := 3;
        } else {
          charLen := 4;
          ulen := ulen + 1;
        }
        i := i + charLen;
        ulen := ulen + 1;
      }
      length := ulen * 2;
    }

    /** The length of the UTF-8 made from the first inLen bytes of utf16In. */
    method Utf8LengthFromUtf16(utf16In: seq<Unit>, inLen: nat, isBigEndian: bool) returns (len: nat)
      requires (inLen + 1) / 2 <= |utf16In|
      ensures len == BytesPredicted(StoredAll(utf16In[..(inLen + 1) / 2], isBigEndian))
    {
      len := 0;
      var wcharLen := inLen / 2 + inLen % 2;
      ghost var all := StoredAll(utf16In[..wcharLen], isBigEndian);
      StoredConcat(utf16In[..wcharLen], [], isBigEndian);
      var i := 0;
      assert Skip(all, 0) == all;
      while i < wcharLen
        invariant 0 <= i
        invariant len + BytesPredicted(Skip(all, i)) == BytesPredicted(all)
        decreases wcharLen - i
      {
        var uch := if isBigEndian then Swap(utf16In[i]) else utf16In[i];
        StoredAt(utf16In[..wcharLen], isBigEndian, i);
        SkipMore(all, i);
        if uch < 0x80 {
          len := len + 1;
        } else if uch < 0x800 {
          len := len + 2;
        } else if 0xD800 <= uch <= 0xDBFF {
          len := len + 4;
          i := i + 1;
        } else {
          len := len + 3;
        }
        i := i + 1;
      }
    }

    /** Convert bytes to code units; the buffer must have room for what is written. */
    method Utf8ToUtf16(utf8In: seq<Byte>, inLen: nat, isBigEndian: bool, utf16Out: array<Unit>)
        returns (length: nat)
      requires inLen <= |utf8In|
      requires |ToUtf16(utf8In[..inLen], isBigEndian)| <= utf16Out.Length
      modifies utf16Out
      ensures var units := ToUtf16(utf8In[..inLen], isBigEndian);
              length == 2 * |units| && utf16Out[..] == units + old(utf16Out[..])[|units|..]
    {
      length := DecodeBytes(utf8In, inLen, isBigEndian, utf16Out,
                            utf8In[..inLen], ToUtf16(utf8In[..inLen], isBigEndian));
    }

    method DecodeBytes(utf8In: seq<Byte>, inLen: nat, isBigEndian: bool, utf16Out: array<Unit>,
                       ghost bytes: seq<Byte>, ghost units: seq<Unit>)
        returns (length: nat)
      requires inLen <= |utf8In| && bytes == utf8In[..inLen]
      requires units == UnitsFrom(Decoder(EStart, 0), bytes, isBigEndian) && |units| <= utf16Out.Length
      modifies utf16Out
      ensures length == 2 * |units| && utf16Out[..] == units + old(utf16Out[..])[|units|..]
    {
      var d := Decoder(EStart, 0);
      var pRead, pCur := 0, 0;
      ghost var before := utf16Out[..];
      while pRead < inLen
        invariant 0 <= pRead <= inLen && 0 <= pCur <= |units|
        invariant units[pCur..] == UnitsFrom(d, bytes[pRead..], isBigEndian)
        invariant utf16Out[..] == units[..pCur] + before[pCur..]
      {
        ghost var rest := bytes[pRead..];
        assert rest[0] == utf8In[pRead] && rest[1..] == bytes[pRead + 1..];
        UnitsStep(d, rest, isBigEndian);
        d := Feed(d, utf8In[pRead]);
        pRead := pRead + 1;
        if d.state == EStart {
          pCur := WriteUnits(d.nCur, isBigEndian, utf16Out, pCur, units, before,
                             UnitsFrom(d, bytes[pRead..], isBigEndian));
        }
      }
      assert units[pCur..] == [];
      length := pCur * 2;
    }

    /** Write the units of one value; what is left of all units is the rest. */
    method WriteUnits(n: bv32, isBigEndian: bool, utf16Out: array<Unit>, pCur: nat,
                      ghost units: seq<Unit>, ghost before: seq<Unit>, ghost rest: seq<Unit>)
        returns (pNext: nat)
      requires pCur <= |units| <= utf16Out.Length == |before|
      requires units[pCur..] == StoredAll(Split(n), isBigEndian) + rest
      requires utf16Out[..] == units[..pCur] + before[pCur..]
      modifies utf16Out
      ensures pCur <= pNext <= |units| && units[pNext..] == rest
      ensures utf16Out[..] == units[..pNext] + before[pNext..]
    {
      var us := Split(n);
      DropHead(units, pCur, StoredAll(us, isBigEndian), rest);
      StoredAt(us, isBigEndian, 0);
      assert StoredAll(us, isBigEndian)[0] == units[pCur];
      PutUnit(us[0], isBigEndian, utf16Out, pCur, units, before);
      pNext := pCur + 1;
      if n >= 0x10000 {
        StoredAt(us, isBigEndian, 1);
        assert StoredAll(us, isBigEndian)[1] == units[pCur + 1];
        PutUnit(us[1], isBigEndian, utf16Out, pNext, units, before);
        pNext := pNext + 1;
      }
    }

    method PutUnit(u: Unit, isBigEndian: bool, utf16Out: array<Unit>, pCur: nat,
                   ghost units: seq<Unit>, ghost before: seq<Unit>)
      requires pCur < |units| <= utf16Out.Length == |before| && units[pCur] == Stored(u, isBigEndian)
      requires utf16Out[..] == units[..pCur] + before[pCur..]
      modifies utf16Out
      ensures utf16Out[..] == units[..pCur + 1] + before[pCur + 1..]
    {
      utf16Out[pCur] := if isBigEndian then Swap(u) else u;
    }

    /** Convert a block of code units to bytes, continuing in the retained state. */
    method Utf16ToUtf8(utf16In: seq<Byte>, inLen: nat, isBigEndian: bool, firstBlock: bool, utf8Out: array<Byte>)
        returns (length: nat)
      requires inLen <= |utf16In| && |utf16In| == (inLen + 1) / 2 * 2
      requires var units := Units(utf16In, isBigEndian);
               Whole(units) && |Encode(Encoder(if firstBlock then EStart else state, 0), units).0| <= utf8Out.Length
      modifies `state, utf8Out
      ensures var r := Encode(Encoder(if firstBlock then EStart else old(state), 0), Units(utf16In, isBigEndian));
              && length == |r.0| && utf8Out[..] == r.0 + old(utf8Out[..])[length..]
              && state == r.1
    {
      if firstBlock {
        state := EStart;
      }
      length := EncodeBlock(utf16In, inLen, isBigEndian, utf8Out,
                            Encode(Encoder(state, 0), Units(utf16In, isBigEndian)));
    }

    method EncodeBlock(utf16In: seq<Byte>, inLen: nat, isBigEndian: bool, utf8Out: array<Byte>,
                       ghost r: (seq<Byte>, EState)) returns (length: nat)
      requires |utf16In| == (inLen + 1) / 2 * 2 && Whole(Units(utf16In, isBigEndian))
      requires r == Encode(Encoder(state, 0), Units(utf16In, isBigEndian)) && |r.0| <= utf8Out.Length
      modifies `state, utf8Out
      ensures length == |r.0| && utf8Out[..] == r.0 + old(utf8Out[..])[length..] && state == r.1
    {
      var nCur16: bv32 := 0;
      var pRead: nat, pCur: nat := 0, 0;
      ghost var before, left := utf8Out[..], r.0;   // left is still to be written
      while pRead < inLen
        invariant pRead % 2 == 0 && pRead <= |utf16In|
        invariant Remains(Encoder(state, nCur16), Units(utf16In[pRead..], isBigEndian), left, r.1)
        invariant pCur + |left| == |r.0| && r.0[pCur..] == left
        invariant utf8Out[..] == r.0[..pCur] + before[pCur..]
        decreases inLen - pRead, Rank(state)
      {
        var nCur: Byte;
        nCur, nCur16, pRead, left := NextOutputAt(utf16In, pRead, isBigEndian, nCur16, left, r.1);
        PutByte(utf8Out, pCur, nCur, left, r.0, before);
        pCur := pCur + 1;
      }
      length := pCur;
    }

    method PutByte(utf8Out: array<Byte>, pCur: nat, b: Byte, ghost left: seq<Byte>, ghost out: seq<Byte>,
                   ghost before: seq<Byte>)
      requires pCur <= |out| <= utf8Out.Length == |before| && out[pCur..] == [b] + left
      requires utf8Out[..] == out[..pCur] + before[pCur..]
      modifies utf8Out
      ensures pCur < |out| && out[pCur + 1..] == left
      ensures utf8Out[..] == out[..pCur + 1] + before[pCur + 1..]
    {
      NextByte(out, pCur, b, left);
      utf8Out[pCur] := b;
    }

    method NextOutputAt(utf16In: seq<Byte>, start: nat, isBigEndian: bool, nCur16: bv32,
                        ghost left: seq<Byte>, ghost final: EState)
        returns (nCur: Byte, n: bv32, pRead: nat, ghost left': seq<Byte>)
      requires start < |utf16In| && start % 2 == 0 && |utf16In| % 2 == 0
      requires Remains(Encoder(state, nCur16), Units(utf16In[start..], isBigEndian), left, final)
      modifies `state
      ensures start <= pRead <= |utf16In| && pRead % 2 == 0
      ensures pRead == start ==> Rank(state) < Rank(old(state))
      ensures left == [nCur] + left'
      ensures Remains(Encoder(state, n), Units(utf16In[pRead..], isBigEndian), left', final)
    {
      var taken: nat;
      nCur, n, taken, left' := NextOutput(utf16In[start..], isBigEndian, nCur16, left, final);
      assert utf16In[start..][taken..] == utf16In[start + taken..];
      pRead := start + taken;
    }

    /** The next byte to write; in the start state the next character is read first. */
    method NextOutput(memory: seq<Byte>, isBigEndian: bool, nCur16: bv32, ghost left: seq<Byte>, ghost final: EState)
        returns (nCur: Byte, n: bv32, taken: nat, ghost left': seq<Byte>)
      requires |memory| > 0 && |memory| % 2 == 0
      requires Remains(Encoder(state, nCur16), Units(memory, isBigEndian), left, final)
      modifies `state
      ensures taken <= |memory| && taken % 2 == 0
      ensures taken == 0 ==> Rank(state) < Rank(old(state))
      ensures left == [nCur] + left'
      ensures Remains(Encoder(state, n), Units(memory[taken..], isBigEndian), left', final)
    {
      ghost var e := Encoder(state, nCur16);
      UnitsEven(memory, isBigEndian);
      if state == EStart {
        n, taken := ReadValue(memory, isBigEndian);
        nCur := FirstByte(n);
        state := StateAfterFirst(n);
      } else {
        n, taken := nCur16, 0;
        var (b, s) := Continuation(Encoder(state, nCur16));
        nCur := b;
        state := s;
      }
      EncodeStep(e, Units(memory, isBigEndian), nCur, Encoder(state, n), Units(memory[taken..], isBigEndian));
      left' := Encode(Encoder(state, n), Units(memory[taken..], isBigEndian)).0;
    }

    /** Read one code unit, or a surrogate pair, and say how many bytes it takes. */
    method ReadValue(memory: seq<Byte>, isBigEndian: bool) returns (n: bv32, taken: nat)
      requires |memory| > 0 && |memory| % 2 == 0 && Whole(Units(memory, isBigEndian))
      ensures n == Value(Units(memory, isBigEndian)) && taken == 2 * UnitsRead(Units(memory, isBigEndian))
      ensures taken <= |memory|
      ensures Units(memory[taken..], isBigEndian) == Units(memory, isBigEndian)[taken / 2..]
    {
      UnitsEven(memory, isBigEndian);
      var u := ReadUnit(memory, isBigEndian);
      if 0xD800 <= u <= 0xDBFF {
        ghost var units := Units(memory, isBigEndian);
        assert |units| > 1;
        var trail := ReadUnit(memory[2..], isBigEndian);
        assert memory[2..][2..] == memory[4..];
        ValueOfTwo(u, trail, Units(memory[4..], isBigEndian));
        n, taken := Combine(u, trail), 4;
      } else {
        ValueOfOne(u, Units(memory[2..], isBigEndian));
        n, taken := u as bv32, 2;
      }
    }

    method ReadUnit(memory: seq<Byte>, isBigEndian: bool) returns (u: Unit)
      requires |memory| >= 2
      ensures Units(memory, isBigEndian) == [u] + Units(memory[2..], isBigEndian)
      ensures |Units(memory[2..], isBigEndian)| == |memory[2..]| / 2
    {
      UnitsCons(memory, isBigEndian);
      UnitsEven(memory[2..], isBigEndian);
      if isBigEndian {
        u := (memory[0] as Unit) << 8;
        u := u | (memory[1] as Unit);
      } else {
        u := memory[0] as Unit;
        u := u | ((memory[1] as Unit) << 8);
      }
    }
  }

  lemma ValueOfOne(u: Unit, rest: seq<Unit>)
    requires !IsLead(u) && Whole([u] + rest)
    ensures Value([u] + rest) == u as bv32 && UnitsRead([u] + rest) == 1 && ([u] + rest)[1..] == rest
  {
  }

  lemma ValueOfTwo(lead: Unit, trail: Unit, rest: seq<Unit>)
    requires IsLead(lead) && Whole([lead] + ([trail] + rest))
    ensures var units := [lead] + ([trail] + rest);
            Value(units) == Combine(lead, trail) && UnitsRead(units) == 2 && units[2..] == rest
  {
  }

  lemma PredictStep(bytes: seq<Byte>, i: nat)
    requires i < |bytes|
    ensures var n := CharLen(bytes[i]);
      UnitsPredicted(Skip(bytes, i)) == (if n == 4 then 2 else 1) + UnitsPredicted(Skip(bytes, i + n))
  {
    var n := CharLen(bytes[i]);
    assert Skip(Skip(bytes, i), n) == Skip(bytes, i + n);
  }

  lemma SkipMore<T>(s: seq<T>, i: nat)
    requires i < |s|
    ensures Skip(s, i) != [] && Skip(s, i)[0] == s[i]
    ensures Skip(s, i)[1..] == Skip(s, i + 1) && Skip(Skip(s, i), 2) == Skip(s, i + 2)
  {
  }

  lemma UnitsCons(memory: seq<Byte>, isBigEndian: bool)
    requires |memory| >= 2
    ensures Units(memory, isBigEndian) == [UnitAt(memory, 0, isBigEndian)] + Units(memory[2..], isBigEndian)
  {
  }

  lemma {:induction false} UnitsEven(memory: seq<Byte>, isBigEndian: bool)
    ensures |Units(memory, isBigEndian)| == |memory| / 2
  {
    if |memory| >= 2 {
      UnitsEven(memory[2..], isBigEndian);
    }
  }

  /** One step of the encoder from e, with the byte it writes and where it goes. */
  lemma EncodeStep(e: Encoder, units: seq<Unit>, b: Byte, e': Encoder, units': seq<Unit>)
    requires units != [] && Whole(units)
    requires e.state == EStart ==> b == FirstByte(Value(units)) && units' == units[UnitsRead(units)..]
                                   && e' == Encoder(StateAfterFirst(Value(units)), Value(units))
    requires e.state != EStart ==> (b, e'.state) == Continuation(e) && units' == units && e'.nCur16 == e.nCur16
    ensures Whole(units')
    ensures var r := Encode(e', units'); Encode(e, units) == ([b] + r.0, r.1)
  {
  }

  lemma DropHead(units: seq<Unit>, k: nat, head: seq<Unit>, tail: seq<Unit>)
    requires k <= |units| && units[k..] == head + tail
    ensures head <= units[k..] && k + |head| <= |units| && units[k + |head|..] == tail
  {
    assert units[k..][|head|..] == tail;
  }

  /** The encoder in e still writes `left` for these units and then stops in `final`. */
  ghost predicate Remains(e: Encoder, units: seq<Unit>, left: seq<Byte>, final: EState) {
    Whole(units) && Encode(e, units) == (left, final)
  }

  lemma NextByte(all: seq<Byte>, k: nat, b: Byte, rest: seq<Byte>)
    requires k <= |all| && all[k..] == [b] + rest
    ensures k < |all| && all[k] == b && all[k + 1..] == rest
    ensures all[..k + 1] == all[..k] + [b]
  {
    assert all[k..][0] == b && all[k..][1..] == rest;
  }

  /** The code units still to be written from the decoder state d. */
  ghost function UnitsFrom(d: Decoder, bytes: seq<Byte>, isBigEndian: bool): seq<Unit> {
    StoredAll(SplitAll(Completed(d, bytes)), isBigEndian)
  }

  lemma UnitsStep(d: Decoder, bytes: seq<Byte>, isBigEndian: bool)
    requires bytes != []
    ensures var d' := Feed(d, bytes[0]);
            UnitsFrom(d, bytes, isBigEndian) ==
              if d'.state == EStart then StoredAll(Split(d'.nCur), isBigEndian) + UnitsFrom(d', bytes[1..], isBigEndian)
              else UnitsFrom(d', bytes[1..], isBigEndian)
  {
    var d' := Feed(d, bytes[0]);
    var rest := Completed(d', bytes[1..]);
    if d'.state == EStart {
      assert ([d'.nCur] + rest)[1..] == rest;
      StoredConcat(Split(d'.nCur), SplitAll(rest), isBigEndian);
    } else {
      assert [] + rest == rest && [] + UnitsFrom(d', bytes[1..], isBigEndian) == UnitsFrom(d', bytes[1..], isBigEndian);
    }
  }
}
