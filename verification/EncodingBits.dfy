/** Facts on the bits of one character, free of sequences and states. */
module EncodingBits {

  lemma TwoBytes(c: bv32)
    requires 0x80 <= c < 0x800
    ensures var b0, b1 := 0xC0 | ((c >> 6) as bv8), 0x80 | ((c & 0x3F) as bv8);
            && 0xF0 & b0 != 0xF0 && 0xE0 & b0 != 0xE0 && 0xC0 & b0 == 0xC0
            && ((0x3F & (b0 as bv32)) << 6) | (0x3F & (b1 as bv32)) == c
            && 0x80 <= b0 < 0xE0
  {
  }

  lemma ThreeBytes(c: bv32)
    requires c < 0x10000
    ensures var b0, b1, b2 := 0xE0 | ((c >> 12) as bv8), 0x80 | (((c >> 6) & 0x3F) as bv8), 0x80 | ((c & 0x3F) as bv8);
            && 0xF0 & b0 != 0xF0 && 0xE0 & b0 == 0xE0
            && ((0x1F & (b0 as bv32)) << 12) | ((0x3F & (b1 as bv32)) << 6) | (0x3F & (b2 as bv32)) == c
            && 0xE0 <= b0 < 0xF0
  {
  }

  lemma FourBytes(c: bv32)
    requires 0x10000 <= c < 0x110000
    ensures var b0, b1, b2, b3 := 0xF0 | ((c >> 18) as bv8), 0x80 | (((c >> 12) & 0x3F) as bv8),
                                  0x80 | (((c >> 6) & 0x3F) as bv8), 0x80 | ((c & 0x3F) as bv8);
            && 0xF0 & b0 == 0xF0 && 0xF0 <= b0
            && ((0x7 & (b0 as bv32)) << 18) | ((0x3F & (b1 as bv32)) << 12)
               | ((0x3F & (b2 as bv32)) << 6) | (0x3F & (b3 as bv32)) == c
  {
  }

  lemma Pair(c: bv32)
    requires 0x10000 <= c < 0x110000
    ensures var u := c - 0x10000;
            var lead, trail := 0xD800 | ((u >> 10) as bv16), 0xDC00 | ((u & 0x3FF) as bv16);
            && (((u >> 10) + 0xD800) & 0xFFFF) as bv16 == lead
            && (((u & 0x3FF) + 0xDC00) & 0xFFFF) as bv16 == trail
            && 0xD800 <= lead <= 0xDBFF && 0xDC00 <= trail <= 0xDFFF
            && ((((lead & 0x3FF) as bv32) << 10) | ((trail & 0x3FF) as bv32)) + 0x10000 == c
  {
  }

  lemma SameBytes(c: bv32)
    requires c < 0x110000
    ensures c < 0x80 ==> (c & 0xFF) as bv8 == c as bv8
    ensures c < 0x800 ==> ((0xC0 | (c >> 6)) & 0xFF) as bv8 == 0xC0 | ((c >> 6) as bv8)
    ensures c < 0x10000 ==> ((0xE0 | (c >> 12)) & 0xFF) as bv8 == 0xE0 | ((c >> 12) as bv8)
    ensures ((0xF0 | (c >> 18)) & 0xFF) as bv8 == 0xF0 | ((c >> 18) as bv8)
    ensures ((0x80 | ((c >> 12) & 0x3F)) & 0xFF) as bv8 == 0x80 | (((c >> 12) & 0x3F) as bv8)
    ensures ((0x80 | ((c >> 6) & 0x3F)) & 0xFF) as bv8 == 0x80 | (((c >> 6) & 0x3F) as bv8)
    ensures ((0x80 | (c & 0x3F)) & 0xFF) as bv8 == 0x80 | ((c & 0x3F) as bv8)
  {
  }

  /** Continuation bytes without payload, and what their bits make together. */
  lemma EmptyContinuations(c: bv32)
    ensures 0x80 | ((c & 0x3F) as bv8) == 0x80 <==> c & 0x3F == 0
    ensures 0x80 | (((c >> 6) & 0x3F) as bv8) == 0x80 <==> (c >> 6) & 0x3F == 0
    ensures 0x80 | (((c >> 12) & 0x3F) as bv8) == 0x80 <==> (c >> 12) & 0x3F == 0
  {
  }

  lemma EmptyTails(c: bv32)
    ensures c & 0xFFF == 0 <==> c & 0x3F == 0 && (c >> 6) & 0x3F == 0
    ensures c & 0x3FFFF == 0 <==> c & 0x3F == 0 && (c >> 6) & 0x3F == 0 && (c >> 12) & 0x3F == 0
  {
  }

  lemma UnitBytes(u: bv16)
    ensures (((u & 0xFF) as bv8) as bv16) | ((((u >> 8) as bv8) as bv16) << 8) == u
    ensures var s := ((u & 0xFF) << 8) | (u >> 8);
            ((((s & 0xFF) as bv8) as bv16) << 8) | (((s >> 8) as bv8) as bv16) == u
  {
  }

  lemma TwoByteLead(c: bv32)
    requires 0x80 <= c < 0x800
    ensures 0xC0 | ((c >> 6) as bv8) >= 0xC0
  {
  }
}
