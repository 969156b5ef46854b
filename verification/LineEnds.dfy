/** Conversion of line ends, measured against the logical lines of a text. */
module LineEnds {
  import opened Basics

  datatype LineEndFormat = Windows | Linux | MacOld

  function Eol(f: LineEndFormat): string {
    match f
    case Windows => "\r\n"
    case Linux => "\n"
    case MacOld => "\r"
  }

  predicate IsEol(c: char) {
    c == '\r' || c == '\n'
  }

  /** The length of the line end at the start of a text: CRLF, CR and LF each end a line. */
  function EolLength(s: string): (n: nat)
    ensures n <= |s|
  {
    if s == [] || !IsEol(s[0]) then 0
    else if s[0] == '\r' && |s| > 1 && s[1] == '\n' then 2
    else 1
  }

  /** The logical lines of a text; there is always at least one. */
  function Lines(s: string): (ls: seq<string>)
    ensures |ls| > 0
    decreases |s|
  {
    if s == [] then [[]]
    else if EolLength(s) > 0 then [[]] + Lines(s[EolLength(s)..])
    else
      var rest := Lines(s[1..]);
      [[s[0]] + rest[0]] + rest[1..]
  }

  /** The text with the given lines and line ends. */
  function Join(ls: seq<string>, eol: string): string
    requires |ls| > 0
  {
    if |ls| == 1 then ls[0] else ls[0] + eol + Join(ls[1..], eol)
  }

  predicate Clean(l: string) {
    forall i :: 0 <= i < |l| ==> !IsEol(l[i])
  }

  predicate AllClean(ls: seq<string>) {
    forall k :: 0 <= k < |ls| ==> Clean(ls[k])
  }

  lemma {:induction false} LinesAreClean(s: string)
    ensures AllClean(Lines(s))
    decreases |s|
  {
    if s != [] {
      if EolLength(s) > 0 {
        LinesAreClean(s[EolLength(s)..]);
      } else {
        LinesAreClean(s[1..]);
      }
    }
  }

  // ------------------------------------------------------------ lines of joins

  lemma {:induction false} LinesOfClean(l: string)
    requires Clean(l)
    ensures Lines(l) == [l]
  {
    if l != [] {
      LinesOfClean(l[1..]);
      assert [l[0]] + l[1..] == l;
    }
  }

  /** A clean line followed by a line end and a text that cannot lengthen the line end. */
  lemma {:induction false} LinesOfFirst(l: string, eol: string, rest: string)
    requires Clean(l) && eol in {"\r\n", "\n", "\r"}
    requires eol == "\r" ==> rest == [] || rest[0] != '\n'
    ensures Lines(l + eol + rest) == [l] + Lines(rest)
    decreases |l|
  {
    var s := l + eol + rest;
    if l == [] {
      assert s == eol + rest;
      assert EolLength(s) == |eol| && s[|eol|..] == rest;
    } else {
      assert s[1..] == l[1..] + eol + rest && s[0] == l[0];
      LinesOfFirst(l[1..], eol, rest);
      assert [l[0]] + l[1..] == l;
      assert ([l[1..]] + Lines(rest))[1..] == Lines(rest);
    }
  }

  lemma JoinStart(ls: seq<string>)
    requires |ls| > 0 && AllClean(ls)
    ensures Join(ls, "\r") == [] || Join(ls, "\r")[0] != '\n'
  {
    var s := Join(ls, "\r");
    if ls[0] != [] {
      assert s[0] == ls[0][0];
    }
  }

  /** Joining clean lines and taking the lines again gives them back. */
  lemma {:induction false} LinesOfJoin(ls: seq<string>, f: LineEndFormat)
    requires |ls| > 0 && AllClean(ls)
    ensures Lines(Join(ls, Eol(f))) == ls
  {
    if |ls| == 1 {
      LinesOfClean(ls[0]);
    } else {
      LinesOfJoin(ls[1..], f);
      if f == MacOld {
        JoinStart(ls[1..]);
      }
      LinesOfFirst(ls[0], Eol(f), Join(ls[1..], Eol(f)));
    }
  }

  // ------------------------------------------------------------- conversion

  /** The text with its logical lines kept and every line end as requested. */
  function Converted(s: string, f: LineEndFormat): string {
    Join(Lines(s), Eol(f))
  }

  lemma JoinCharacter(s: string, eol: string)
    requires s != [] && EolLength(s) == 0
    ensures Join(Lines(s), eol) == [s[0]] + Join(Lines(s[1..]), eol)
  {
    var rest := Lines(s[1..]);
    var ls := Lines(s);
    assert ls[1..] == rest[1..];
    if |rest| > 1 {
      assert [s[0]] + rest[0] + eol + Join(rest[1..], eol) == [s[0]] + (rest[0] + eol + Join(rest[1..], eol));
    }
  }

  lemma JoinLineEnd(s: string, eol: string)
    requires EolLength(s) > 0
    ensures Join(Lines(s), eol) == eol + Join(Lines(s[EolLength(s)..]), eol)
  {
    var rest := Lines(s[EolLength(s)..]);
    assert ([[]] + rest)[1..] == rest;
    assert [] + eol + Join(rest, eol) == eol + Join(rest, eol);
  }

  method ConvertLineEnds(inStr: string, lineEnd: LineEndFormat) returns (outStr: string)
    ensures outStr == Converted(inStr, lineEnd)
  {
    outStr := [];
    var pos := 0;
    ghost var eol := Eol(lineEnd);
    while pos < |inStr|
      invariant 0 <= pos <= |inStr|
      invariant outStr + Join(Lines(inStr[pos..]), eol) == Join(Lines(inStr), eol)
    {
      ghost var before, start := outStr, pos;
      if inStr[pos] == '\r' {
        if pos + 1 < |inStr| && inStr[pos + 1] == '\n' {
          if lineEnd == MacOld {
            outStr := outStr + [inStr[pos]];
          } else if lineEnd == Linux {
            outStr := outStr + [inStr[pos + 1]];
          } else {
            outStr := outStr + [inStr[pos]] + [inStr[pos + 1]];
          }
          pos := pos + 1;
        } else {
          if lineEnd == Windows {
            outStr := outStr + [inStr[pos]] + ['\n'];
          } else if lineEnd == Linux {
            outStr := outStr + ['\n'];
          } else {
            outStr := outStr + [inStr[pos]];
          }
        }
      } else if inStr[pos] == '\n' {
        if lineEnd == Windows {
          outStr := outStr + ['\r'] + [inStr[pos]];
        } else if lineEnd == MacOld {
          outStr := outStr + ['\r'];
        } else {
          outStr := outStr + [inStr[pos]];
        }
      } else {
        outStr := outStr + [inStr[pos]];
      }
      pos := pos + 1;
      Written(inStr, start, pos, before, outStr, eol);
    }
    assert inStr[pos..] == [];
    assert outStr + [] == outStr;
  }

  /** One step of the conversion wrote what the first character or line end becomes. */
  lemma Written(s: string, start: nat, pos: nat, before: string, after: string, eol: string)
    requires start < pos <= |s|
    requires var rest := s[start..];
             if EolLength(rest) > 0 then pos == start + EolLength(rest) && after == before + eol
             else pos == start + 1 && after == before + [s[start]]
    ensures after + Join(Lines(s[pos..]), eol) == before + Join(Lines(s[start..]), eol)
  {
    var rest := s[start..];
    assert rest[pos - start..] == s[pos..];
    var tail := Join(Lines(s[pos..]), eol);
    if EolLength(rest) > 0 {
      JoinLineEnd(rest, eol);
      ConcatAssoc(before, eol, tail);
    } else {
      JoinCharacter(rest, eol);
      ConcatAssoc(before, [s[start]], tail);
    }
  }

  /** The logical lines are kept. */
  lemma ConversionKeepsLines(s: string, f: LineEndFormat)
    ensures Lines(Converted(s, f)) == Lines(s)
  {
    LinesAreClean(s);
    LinesOfJoin(Lines(s), f);
  }

  /** Converting to f and then to g is converting to g; so converting twice is converting once. */
  lemma ConversionsCollapse(s: string, f: LineEndFormat, g: LineEndFormat)
    ensures Converted(Converted(s, f), g) == Converted(s, g)
    ensures Converted(Converted(s, f), f) == Converted(s, f)
  {
    ConversionKeepsLines(s, f);
  }

  /** Every line end in the text is the requested one. */
  predicate OnlyEnds(s: string, f: LineEndFormat) {
    match f
    case Windows =>
      && (forall i :: 0 <= i < |s| && s[i] == '\r' ==> i + 1 < |s| && s[i + 1] == '\n')
      && (forall i :: 0 <= i < |s| && s[i] == '\n' ==> i > 0 && s[i - 1] == '\r')
    case Linux => '\r' !in s
    case MacOld => '\n' !in s
  }

  lemma {:induction false} JoinHasOnlyEnds(ls: seq<string>, f: LineEndFormat)
    requires |ls| > 0 && AllClean(ls)
    ensures OnlyEnds(Join(ls, Eol(f)), f)
  {
    if |ls| > 1 {
      JoinHasOnlyEnds(ls[1..], f);
      EndsConcat(ls[0] + Eol(f), Join(ls[1..], Eol(f)), f);
    }
  }

  lemma EndsConcat(a: string, b: string, f: LineEndFormat)
    requires OnlyEnds(a, f) && OnlyEnds(b, f)
    ensures OnlyEnds(a + b, f)
  {
  }

  /** Only the requested line end is left. */
  lemma ConversionLeavesOnly(s: string, f: LineEndFormat)
    ensures OnlyEnds(Converted(s, f), f)
  {
    LinesAreClean(s);
    JoinHasOnlyEnds(Lines(s), f);
  }
}
