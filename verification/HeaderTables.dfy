/** Search in the sorted keyword tables: the early exits lose nothing. */
module HeaderTables {
  import opened Basics

  datatype FileType = CType | JavaType | SharpType

  /** The lexicographic order on names. */
  predicate Less(a: string, b: string) {
    b != [] && (a == [] || a[0] < b[0] || (a[0] == b[0] && Less(a[1..], b[1..])))
  }

  /** As the tables are built: by name, or with the longest first. */
  predicate SortedByName(table: seq<string>) {
    forall p, q :: 0 <= p < q < |table| ==> !Less(table[q], table[p])
  }

  predicate SortedByLength(table: seq<string>) {
    forall p, q :: 0 <= p < q < |table| ==> |table[p]| >= |table[q]|
  }

  predicate IsLegalNameChar(c: char, fileType: FileType) {
    || 'a' <= c <= 'z' || 'A' <= c <= 'Z' || '0' <= c <= '9' || c == '.' || c == '_'
    || (fileType == JavaType && c == '$') || (fileType == SharpType && c == '@')
  }

  /** The name stands at position i of the line. */
  predicate Stands(line: string, i: nat, name: string) {
    i + |name| <= |line| && line[i..i + |name|] == name
  }

  /** The name stands at i and is not part of a longer word. */
  predicate WholeWord(line: string, i: nat, name: string, fileType: FileType) {
    Stands(line, i, name) && (i + |name| == |line| || !IsLegalNameChar(line[i + |name|], fileType))
  }

  /** The first character from i on that is not blank, or a blank. */
  function NextChar(line: string, i: nat): (c: char)
    requires i <= |line|
    decreases |line| - i
  {
    if i == |line| then ' ' else if IsBlank(line[i]) then NextChar(line, i + 1) else line[i]
  }

  /** What follows the word says that it is not a header here. */
  predicate Excluded(line: string, i: nat, name: string)
    requires i + |name| <= |line|
  {
    var c := NextChar(line, i + |name|);
    && i + |name| < |line|
    && (c == ',' || c == ')' || (name in {"get", "set", "default"} && c in {';', '(', '='}))
  }

  // ------------------------------------------------------- the early exits

  /** Two names of the same length: which comes first is decided where they differ. */
  lemma {:induction false} LessAtDifference(a: string, b: string)
    requires |a| == |b| && a != b
    ensures Less(a, b) <==> !Less(b, a)
  {
    assert a != [] && b != [];
    assert a == [a[0]] + a[1..] && b == [b[0]] + b[1..];
    if a[0] == b[0] {
      LessAtDifference(a[1..], b[1..]);
    }
  }

  lemma {:induction false} NotLessItself(a: string)
    ensures !Less(a, a)
  {
    if a != [] {
      NotLessItself(a[1..]);
    }
  }

  /** If the text here is before the name h, any name k that stands here is before h as well. */
  lemma {:induction false} BeforeIsBefore(text: string, h: string, k: string)
    requires |h| <= |text| && |k| <= |text|
    requires Less(text[..|h|], h) && text[..|k|] == k
    ensures Less(k, h)
  {
    if k != [] {
      assert text[0] == k[0] && text[..|h|][0] == text[0];
      if text[0] == h[0] {
        assert text[..|h|][1..] == text[1..][..|h| - 1];
        assert text[..|k|][1..] == text[1..][..|k| - 1];
        BeforeIsBefore(text[1..], h[1..], k[1..]);
      }
    }
  }

  /** After the early exit at p no entry stands at i. */
  lemma NothingLater(line: string, i: nat, table: seq<string>, p: nat, q: nat)
    requires SortedByName(table) && p <= q < |table| && i + |table[p]| <= |line|
    requires Less(line[i..i + |table[p]|], table[p])
    ensures !Stands(line, i, table[q])
  {
    if Stands(line, i, table[q]) {
      var text := line[i..];
      assert text[..|table[p]|] == line[i..i + |table[p]|];
      assert text[..|table[q]|] == line[i..i + |table[q]|];
      BeforeIsBefore(text, table[p], table[q]);
      NotLessItself(table[p]);
    }
  }

  /** The first entry that stands at i as a whole word, by exhaustive search. */
  function FirstWholeWord(line: string, i: nat, table: seq<string>, fileType: FileType): (r: Option<string>)
    ensures r == None <==> forall p :: 0 <= p < |table| ==> !WholeWord(line, i, table[p], fileType)
    ensures r.Some? ==> r.value in table && WholeWord(line, i, r.value, fileType)
  {
    if table == [] then None
    else if WholeWord(line, i, table[0], fileType) then Some(table[0])
    else
      assert table == [table[0]] + table[1..];
      FirstWholeWord(line, i, table[1..], fileType)
  }

  /** The header at i: the first whole word of the table, unless what follows excludes it. */
  function HeaderAt(line: string, i: nat, table: seq<string>, fileType: FileType): Option<string> {
    var first := FirstWholeWord(line, i, table, fileType);
    if first.Some? && !Excluded(line, i, first.value) then first else None
  }

  lemma {:induction false} SkipsNonWords(line: string, i: nat, table: seq<string>, p: nat, fileType: FileType)
    requires p <= |table|
    requires forall q :: 0 <= q < p ==> !WholeWord(line, i, table[q], fileType)
    ensures FirstWholeWord(line, i, table, fileType) == FirstWholeWord(line, i, table[p..], fileType)
    decreases p
  {
    if p == 0 {
      assert table[0..] == table;
    } else {
      assert table[1..][p - 1..] == table[p..];
      forall q | 0 <= q < p - 1 ensures !WholeWord(line, i, table[1..][q], fileType) {
        assert table[1..][q] == table[q + 1];
      }
      SkipsNonWords(line, i, table[1..], p - 1, fileType);
    }
  }

  /** findHeader: on a table sorted by name it is the exhaustive search. */
  method FindHeader(line: string, i: nat, table: seq<string>, fileType: FileType) returns (header: Option<string>)
    requires i < |line| && SortedByName(table)
    ensures header == HeaderAt(line, i, table, fileType)
  {
    var p := 0;
    while p < |table|
      invariant 0 <= p <= |table|
      invariant forall q :: 0 <= q < p ==> !WholeWord(line, i, table[q], fileType)
    {
      var h := table[p];
      var wordEnd := i + |h|;
      if wordEnd > |line| {
        p := p + 1;
        continue;
      }
      var word := line[i..wordEnd];
      if Less(h, word) {
        NotLessItself(h);
        p := p + 1;
        continue;
      }
      if Less(word, h) {
        forall q | p <= q < |table| ensures !WholeWord(line, i, table[q], fileType) {
          NothingLater(line, i, table, p, q);
        }
        break;
      }
      assert word == h by {
        if word != h {
          LessAtDifference(word, h);
        }
      }
      if wordEnd < |line| && IsLegalNameChar(line[wordEnd], fileType) {
        p := p + 1;
        continue;
      }
      SkipsNonWords(line, i, table, p, fileType);
      assert table[p..][0] == h;
      header := UnlessExcluded(line, i, h);
      return;
    }
    return None;
  }

  method UnlessExcluded(line: string, i: nat, h: string) returns (header: Option<string>)
    requires i + |h| <= |line|
    ensures header == if Excluded(line, i, h) then None else Some(h)
  {
    var wordEnd := i + |h|;
    if wordEnd == |line| {
      return Some(h);
    }
    var peekChar := NextChar(line, wordEnd);
    if peekChar == ',' || peekChar == ')' {
      return None;
    }
    if h in {"get", "set", "default"} && (peekChar == ';' || peekChar == '(' || peekChar == '=') {
      return None;
    }
    return Some(h);
  }

  // ------------------------------------------------------- what is found

  predicate IsName(name: string, fileType: FileType) {
    forall k :: 0 <= k < |name| ==> IsLegalNameChar(name[k], fileType)
  }

  /** Only one name can be the whole word at a position. */
  lemma WholeWordIsUnique(line: string, i: nat, a: string, b: string, fileType: FileType)
    requires IsName(a, fileType) && IsName(b, fileType)
    requires WholeWord(line, i, a, fileType) && WholeWord(line, i, b, fileType)
    ensures a == b
  {
    if |a| < |b| {
      LongerWordGoesOn(line, i, a, b, fileType);
    } else if |b| < |a| {
      LongerWordGoesOn(line, i, b, a, fileType);
    }
  }

  lemma LongerWordGoesOn(line: string, i: nat, a: string, b: string, fileType: FileType)
    requires IsName(b, fileType) && |a| < |b| && Stands(line, i, a) && Stands(line, i, b)
    ensures !WholeWord(line, i, a, fileType)
  {
    assert line[i..i + |b|][|a|] == b[|a|];
  }

  /** In a table of names a header is found if and only if it is in the table, is
      the whole word at i and is not excluded by what follows. */
  lemma FoundIffWholeWord(line: string, i: nat, table: seq<string>, fileType: FileType, h: string)
    requires IsName(h, fileType) && forall p :: 0 <= p < |table| ==> IsName(table[p], fileType)
    ensures HeaderAt(line, i, table, fileType) == Some(h)
       <==> h in table && WholeWord(line, i, h, fileType) && !Excluded(line, i, h)
  {
    var first := FirstWholeWord(line, i, table, fileType);
    if h in table && WholeWord(line, i, h, fileType) {
      var p :| 0 <= p < |table| && table[p] == h;
      var q :| 0 <= q < |table| && table[q] == first.value;
      WholeWordIsUnique(line, i, h, first.value, fileType);
    }
  }

  /** findOperator: on a table with the longest first it finds the longest operator that stands here. */
  method FindOperator(line: string, i: nat, table: seq<string>) returns (op: Option<string>)
    requires i < |line| && SortedByLength(table)
    ensures op == None <==> forall p :: 0 <= p < |table| ==> !Stands(line, i, table[p])
    ensures op.Some? ==> op.value in table && Stands(line, i, op.value)
    ensures op.Some? ==> forall p :: 0 <= p < |table| && Stands(line, i, table[p]) ==> |table[p]| <= |op.value|
  {
    var p := 0;
    while p < |table|
      invariant 0 <= p <= |table|
      invariant forall q :: 0 <= q < p ==> !Stands(line, i, table[q])
    {
      if i + |table[p]| <= |line| {
        if line[i..i + |table[p]|] == table[p] {
          return Some(table[p]);
        }
      }
      p := p + 1;
    }
    return None;
  }
}
