/**
 * The two converters of ASEncoding as state machines over bytes and code
 * units, and the standard encodings they are measured against: section 3 of
 * RFC 3629 (UTF-8) and sections 2.1 and 2.2 of RFC 2781 (UTF-16).
 */
module Encoding {
  type Byte = bv8
  type Unit = bv16

  /** A code point that is not a surrogate. */
  type Scalar = c: bv32 | c < 0xD800 || 0xDFFF < c < 0x110000

  datatype EState = EStart | ESecondOf4Bytes | EPenultimate | EFinal

  // -------------------------------------------------- the standard encodings

  function Utf8(c: Scalar): (r: seq<Byte>)
    ensures 1 <= |r| <= 4
  {
    if c < 0x80 then [c as Byte]
    else if c < 0x800 then
      [0xC0 | ((c >> 6) as Byte), 0x80 | ((c & 0x3F) as Byte)]
    else if c < 0x10000 then
      [0xE0 | ((c >> 12) as Byte), 0x80 | (((c >> 6) & 0x3F) as Byte), 0x80 | ((c & 0x3F) as Byte)]
    else
      [0xF0 | ((c >> 18) as Byte), 0x80 | (((c >> 12) & 0x3F) as Byte),
       0x80 | (((c >> 6) & 0x3F) as Byte), 0x80 | ((c & 0x3F) as Byte)]
  }

  function Utf16(c: Scalar): (r: seq<Unit>)
    ensures 1 <= |r| <= 2
  {
    if c < 0x10000 then [c as Unit]
    else
      var u := c - 0x10000;
      [0xD800 | ((u >> 10) as Unit), 0xDC00 | ((u & 0x3FF) as Unit)]
  }

  function EncodeUtf8(text: seq<Scalar>): seq<Byte> {
    if text == [] then [] else Utf8(text[0]) + EncodeUtf8(text[1..])
  }

  function EncodeUtf16(text: seq<Scalar>): seq<Unit> {
    if text == [] then [] else Utf16(text[0]) + EncodeUtf16(text[1..])
  }

  /** A code unit with its two bytes exchanged. */
  function Swap(u: Unit): Unit {
    ((u & 0xFF) << 8) | (u >> 8)
  }

  /** A code unit as a little-endian host stores it for the given byte order. */
  function Stored(u: Unit, isBigEndian: bool): Unit {
    if isBigEndian then Swap(u) else u
  }

  function StoredAll(us: seq<Unit>, isBigEndian: bool): seq<Unit> {
    if us == [] then [] else [Stored(us[0], isBigEndian)] + StoredAll(us[1..], isBigEndian)
  }

  // ----------------------------------------------------- utf8ToUtf16, a step

  datatype Decoder = Decoder(state: EState, nCur: bv32)

  function Feed(d: Decoder, b: Byte): Decoder {
    var w := b as bv32;
    match d.state
    case EStart =>
      if 0xF0 & b == 0xF0 then Decoder(ESecondOf4Bytes, (0x7 & w) << 18)
      else if 0xE0 & b == 0xE0 then Decoder(EPenultimate, (0x1F & w) << 12)
      else if 0xC0 & b == 0xC0 then Decoder(EFinal, (0x3F & w) << 6)
      else Decoder(EStart, w)
    case ESecondOf4Bytes => Decoder(EPenultimate, d.nCur | ((0x3F & w) << 12))
    case EPenultimate => Decoder(EFinal, d.nCur | ((0x3F & w) << 6))
    case EFinal => Decoder(EStart, d.nCur | (0x3F & w))
  }

  /** The values completed while the bytes are read: one at every return to the start state. */
  function Completed(d: Decoder, bytes: seq<Byte>): seq<bv32>
    decreases |bytes|
  {
    if bytes == [] then []
    else
      var d' := Feed(d, bytes[0]);
      (if d'.state == EStart then [d'.nCur] else []) + Completed(d', bytes[1..])
  }

  /** One code unit, or a surrogate pair, for a completed value. */
  function Split(n: bv32): (r: seq<Unit>)
    ensures 1 <= |r| <= 2
  {
    if n >= 0x10000 then
      var c := n - 0x10000;
      [(((c >> 10) + 0xD800) & 0xFFFF) as Unit, (((c & 0x3FF) + 0xDC00) & 0xFFFF) as Unit]
    else [n as Unit]
  }

  function SplitAll(ns: seq<bv32>): seq<Unit> {
    if ns == [] then [] else Split(ns[0]) + SplitAll(ns[1..])
  }

  /** The code units written for a byte sequence, read from the start state. */
  function ToUtf16(bytes: seq<Byte>, isBigEndian: bool): seq<Unit> {
    StoredAll(SplitAll(Completed(Decoder(EStart, 0), bytes)), isBigEndian)
  }

  // ----------------------------------------------------- utf16ToUtf8, a step

  predicate IsLead(u: Unit) { 0xD800 <= u <= 0xDBFF }

  /** The input may be read in whole code units: no pair is cut at the end. */
  predicate Whole(units: seq<Unit>) {
    units == [] || !IsLead(units[|units| - 1])
  }

  datatype Encoder = Encoder(state: EState, nCur16: bv32)

  /** The value read at the start of a character, and how many units it takes. */
  function UnitsRead(units: seq<Unit>): nat
    requires units != []
  {
    if IsLead(units[0]) then 2 else 1
  }

  function Combine(lead: Unit, trail: Unit): bv32 {
    ((((lead & 0x3FF) as bv32) << 10) | ((trail & 0x3FF) as bv32)) + 0x10000
  }

  function Value(units: seq<Unit>): bv32
    requires units != [] && Whole(units)
  {
    if IsLead(units[0]) then Combine(units[0], units[1])
    else units[0] as bv32
  }

  function FirstByte(n: bv32): Byte {
    if n < 0x80 then (n & 0xFF) as Byte
    else if n < 0x800 then ((0xC0 | (n >> 6)) & 0xFF) as Byte
    else if n < 0x10000 then ((0xE0 | (n >> 12)) & 0xFF) as Byte
    else ((0xF0 | (n >> 18)) & 0xFF) as Byte
  }

  function StateAfterFirst(n: bv32): EState {
    if n < 0x80 then EStart
    else if n < 0x800 then EFinal
    else if n < 0x10000 then EPenultimate
    else ESecondOf4Bytes
  }

  /** The next continuation byte and the state after it. */
  function Continuation(e: Encoder): (r: (Byte, EState))
    requires e.state != EStart
  {
    match e.state
    case ESecondOf4Bytes => (((0x80 | ((e.nCur16 >> 12) & 0x3F)) & 0xFF) as Byte, EPenultimate)
    case EPenultimate => (((0x80 | ((e.nCur16 >> 6) & 0x3F)) & 0xFF) as Byte, EFinal)
    case EFinal => (((0x80 | (e.nCur16 & 0x3F)) & 0xFF) as Byte, EStart)
  }

  function Rank(s: EState): nat {
    match s
    case EStart => 0
    case EFinal => 1
    case EPenultimate => 2
    case ESecondOf4Bytes => 3
  }

  /** What is written from here on, and the state in which the input runs out:
      the machine stops once the input is consumed, whatever is still to write. */
  function Encode(e: Encoder, units: seq<Unit>): (r: (seq<Byte>, EState))
    requires Whole(units)
    decreases |units|, Rank(e.state)
  {
    if units == [] then ([], e.state)
    else if e.state == EStart then
      var n := Value(units);
      var rest := Encode(Encoder(StateAfterFirst(n), n), units[UnitsRead(units)..]);
      ([FirstByte(n)] + rest.0, rest.1)
    else
      var (b, s) := Continuation(e);
      var rest := Encode(Encoder(s, e.nCur16), units);
      ([b] + rest.0, rest.1)
  }

  // ------------------------------------------------------ memory and lengths

  /** A code unit read from memory in the given byte order. */
  function UnitAt(memory: seq<Byte>, i: nat, isBigEndian: bool): Unit
    requires 2 * i + 1 < |memory|
  {
    if isBigEndian then ((memory[2 * i] as Unit) << 8) | (memory[2 * i + 1] as Unit)
    else (memory[2 * i] as Unit) | ((memory[2 * i + 1] as Unit) << 8)
  }

  function Units(memory: seq<Byte>, isBigEndian: bool): seq<Unit> {
    if |memory| < 2 then [] else [UnitAt(memory, 0, isBigEndian)] + Units(memory[2..], isBigEndian)
  }

  /** The bytes of an array of code units on a little-endian host. */
  function Memory(units: seq<Unit>): seq<Byte> {
    if units == [] then [] else [(units[0] & 0xFF) as Byte, (units[0] >> 8) as Byte] + Memory(units[1..])
  }

  function CharLen(b: Byte): nat {
    if b < 0x80 then 1 else if b < 0xE0 then 2 else if b < 0xF0 then 3 else 4
  }

  function Skip<T>(s: seq<T>, n: nat): seq<T> {
    if n < |s| then s[n..] else []
  }

  /** The number of code units predicted for a byte sequence. */
  function UnitsPredicted(bytes: seq<Byte>): nat
    decreases |bytes|
  {
    if bytes == [] then 0
    else
      var n := CharLen(bytes[0]);
      (if n == 4 then 2 else 1) + UnitsPredicted(Skip(bytes, n))
  }

  /** The number of bytes predicted for a sequence of code units. */
  function BytesPredicted(units: seq<Unit>): nat
    decreases |units|
  {
    if units == [] then 0
    else if units[0] < 0x80 then 1 + BytesPredicted(units[1..])
    else if units[0] < 0x800 then 2 + BytesPredicted(units[1..])
    else if IsLead(units[0]) then 4 + BytesPredicted(Skip(units, 2))
    else 3 + BytesPredicted(units[1..])
  }
}
