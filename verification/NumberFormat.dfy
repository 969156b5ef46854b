/** Grouping the digits of a number from the right, with the last group size repeated. */
module NumberFormat {
  import opened Basics
  import opened LineEnds

  /** The decimal text of a number. */
  function Decimal(num: int): (s: string)
    ensures s != []
    decreases if num < 0 then 1 - num else num
  {
    if num < 0 then "-" + Decimal(-num)
    else if num < 10 then [('0' as int + num) as char]
    else Decimal(num / 10) + [('0' as int + num % 10) as char]
  }

  /** The size of the k-th group from the right; no sizes at all mean one group. */
  function Size(sizes: seq<nat>, k: nat, length: nat): nat {
    if sizes == [] then length else if k < |sizes| then sizes[k] else Last(sizes)
  }

  predicate Positive(sizes: seq<nat>) {
    forall k :: 0 <= k < |sizes| ==> sizes[k] > 0
  }

  /** The groups from left to right; k groups are already taken from the right. */
  function Groups(s: string, sizes: seq<nat>, k: nat, length: nat): (gs: seq<string>)
    requires Positive(sizes) && 0 < |s| <= length
    ensures |gs| > 0
    decreases |s|
  {
    var size := Size(sizes, k, length);
    if |s| <= size then [s] else Groups(s[..|s| - size], sizes, k + 1, length) + [s[|s| - size..]]
  }

  /**
   * A grouping of s: the pieces make up s, the j-th from the right has the j-th
   * size, and the leftmost is what is left, at most of its size and not empty.
   */
  ghost predicate IsGrouping(gs: seq<string>, s: string, sizes: seq<nat>, k: nat, length: nat) {
    && |gs| > 0 && Flat(gs) == s
    && 0 < |gs[0]| <= Size(sizes, k + |gs| - 1, length)
    && forall j :: 0 < j < |gs| ==> |gs[j]| == Size(sizes, k + |gs| - 1 - j, length)
  }

  lemma {:induction false} GroupsAreGrouping(s: string, sizes: seq<nat>, k: nat, length: nat)
    requires Positive(sizes) && 0 < |s| <= length
    ensures IsGrouping(Groups(s, sizes, k, length), s, sizes, k, length)
    decreases |s|
  {
    var size := Size(sizes, k, length);
    var gs := Groups(s, sizes, k, length);
    if |s| <= size {
      assert Flat(gs) == Flat([]) + s;
    } else {
      var front := Groups(s[..|s| - size], sizes, k + 1, length);
      GroupsAreGrouping(s[..|s| - size], sizes, k + 1, length);
      assert DropLast(gs) == front;
      assert s == s[..|s| - size] + s[|s| - size..];
    }
  }

  lemma {:induction false} FlatLength(gs: seq<string>)
    ensures |Flat(gs)| >= if gs == [] then 0 else |gs[0]|
  {
    if |gs| > 1 {
      FlatLength(DropLast(gs));
    }
  }

  lemma FlatOne(gs: seq<string>)
    requires |gs| == 1
    ensures Flat(gs) == gs[0] && gs == [gs[0]]
  {
    assert DropLast(gs) == [];
    assert Flat(gs) == Flat([]) + gs[0];
  }

  /** There is only one grouping. */
  lemma {:induction false} GroupingIsUnique(gs: seq<string>, s: string, sizes: seq<nat>, k: nat, length: nat)
    requires Positive(sizes) && 0 < |s| <= length && IsGrouping(gs, s, sizes, k, length)
    ensures gs == Groups(s, sizes, k, length)
    decreases |s|
  {
    var size := Size(sizes, k, length);
    if |gs| == 1 {
      FlatOne(gs);
    } else {
      var front := DropLast(gs);
      FlatLength(front);
      assert |Last(gs)| == size && |s| == |Flat(front)| + size;
      assert s[..|s| - size] == Flat(front) && s[|s| - size..] == Last(gs);
      GroupingIsUnique(front, Flat(front), sizes, k + 1, length);
    }
  }

  // --------------------------------------------------------------- formatting

  /** The digits of a number in groups. */
  function Formatted(s: string, sizes: seq<nat>, separator: string, k: nat, length: nat): string
    requires Positive(sizes) && 0 < |s| <= length
  {
    Join(Groups(s, sizes, k, length), separator)
  }

  lemma {:induction false} JoinLast(gs: seq<string>, last: string, separator: string)
    requires |gs| > 0
    ensures Join(gs + [last], separator) == Join(gs, separator) + (separator + last)
  {
    var all := gs + [last];
    if |gs| == 1 {
      assert all[1..] == [last];
      assert Join(all, separator) == gs[0] + separator + last;
    } else {
      assert all[1..] == gs[1..] + [last];
      JoinLast(gs[1..], last, separator);
      ConcatAssoc(gs[0] + separator, Join(gs[1..], separator), separator + last);
    }
  }

  lemma TakeGroup(s: string, sizes: seq<nat>, separator: string, k: nat, length: nat, done: string)
    requires Positive(sizes) && 0 < |s| <= length
    ensures var size := Size(sizes, k, length);
      Formatted(s, sizes, separator, k, length) + done
        == if |s| <= size then s + done
           else Formatted(s[..|s| - size], sizes, separator, k + 1, length) + (separator + (s[|s| - size..] + done))
  {
    var size := Size(sizes, k, length);
    if |s| > size {
      var front := Groups(s[..|s| - size], sizes, k + 1, length);
      var last := s[|s| - size..];
      JoinLast(front, last, separator);
      ConcatAssoc(Join(front, separator), separator + last, done);
      ConcatAssoc(separator, last, done);
    }
  }

  method GetNumberFormat(num: int, groupingArg: seq<nat>, separator: string) returns (formattedNum: string)
    requires Positive(groupingArg)
    ensures var s := Decimal(num); formattedNum == Formatted(s, groupingArg, separator, 0, |s|)
  {
    var number := Decimal(num);
    ghost var s := number;
    formattedNum := "";
    var ig := 0;
    var grouping := if groupingArg == [] then 0 else groupingArg[ig];
    var i: int := |number|;
    if grouping == 0 {
      grouping := |number|;
    }
    ghost var k: nat := 0;
    assert Formatted(s, groupingArg, separator, 0, |s|) + [] == Formatted(s, groupingArg, separator, 0, |s|);
    while i > 0
      invariant 0 <= i <= |s| && |number| == i
      invariant grouping == Size(groupingArg, k, |s|) && grouping > 0
      invariant groupingArg != [] ==> ig < |groupingArg| && (ig == k || ig == |groupingArg| - 1 <= k)
      invariant groupingArg == [] ==> ig == 0
      invariant (if i > 0 then Formatted(number, groupingArg, separator, k, |s|) else []) + formattedNum
        == Formatted(s, groupingArg, separator, 0, |s|)
      decreases i
    {
      TakeGroup(number, groupingArg, separator, k, |s|, formattedNum);
      var group;
      if i < grouping {
        group := number;
      } else {
        group := number[i - grouping..];
      }
      formattedNum := group + formattedNum;
      i := i - grouping;
      if i < 0 {
        i := 0;
      }
      if i > 0 {
        formattedNum := separator + formattedNum;
      }
      number := number[..i];
      if groupingArg != [] && ig + 1 < |groupingArg| {
        ig := ig + 1;
        grouping := groupingArg[ig];
      }
      k := k + 1;
    }
  }

  // ------------------------------------------------------ separators taken out

  /** The text without the characters of the separator. */
  function Without(s: string, separator: string): string {
    if s == [] then [] else Without(DropLast(s), separator) + if Last(s) in separator then [] else [Last(s)]
  }

  lemma {:induction false} WithoutConcat(a: string, b: string, separator: string)
    ensures Without(a + b, separator) == Without(a, separator) + Without(b, separator)
  {
    if b == [] {
      assert a + b == a;
    } else {
      assert DropLast(a + b) == a + DropLast(b);
      WithoutConcat(a, DropLast(b), separator);
    }
  }

  predicate Disjoint(s: string, separator: string) {
    s == [] || (Last(s) !in separator && Disjoint(DropLast(s), separator))
  }

  lemma {:induction false} DisjointIff(s: string, separator: string)
    ensures Disjoint(s, separator) <==> forall c <- s :: c !in separator
  {
    if s != [] {
      DisjointIff(DropLast(s), separator);
      assert s == DropLast(s) + [Last(s)];
    }
  }

  lemma {:induction false} WithoutKeeps(s: string, separator: string)
    requires Disjoint(s, separator)
    ensures Without(s, separator) == s
  {
    if s != [] {
      assert Last(s) !in separator;
      WithoutKeeps(DropLast(s), separator);
      assert Without(s, separator) == DropLast(s) + [Last(s)];
    }
  }

  lemma {:induction false} WithoutSeparator(part: string, separator: string)
    requires forall i :: 0 <= i < |part| ==> part[i] in separator
    ensures Without(part, separator) == []
  {
    if part != [] {
      WithoutSeparator(DropLast(part), separator);
    }
  }

  lemma {:induction false} WithoutJoin(gs: seq<string>, separator: string)
    requires |gs| > 0
    ensures Without(Join(gs, separator), separator) == Without(Flat(gs), separator)
  {
    if |gs| == 1 {
      FlatOne(gs);
    } else {
      var front := DropLast(gs);
      assert gs == front + [Last(gs)];
      JoinLast(front, Last(gs), separator);
      WithoutJoin(front, separator);
      WithoutConcat(Join(front, separator), separator + Last(gs), separator);
      WithoutConcat(separator, Last(gs), separator);
      WithoutSeparator(separator, separator);
      WithoutConcat(Flat(front), Last(gs), separator);
    }
  }

  /** Taking the separators out gives the digits back, whatever the group sizes. */
  lemma SeparatorsComeOut(s: string, sizes: seq<nat>, separator: string)
    requires Positive(sizes) && s != [] && forall c <- s :: c !in separator
    ensures Without(Formatted(s, sizes, separator, 0, |s|), separator) == s
  {
    GroupsAreGrouping(s, sizes, 0, |s|);
    WithoutJoin(Groups(s, sizes, 0, |s|), separator);
    DisjointIff(s, separator);
    WithoutKeeps(s, separator);
  }
}
