/** Glob matching with one remembered backtrack point, against its declarative meaning. */
module Wildcards {

  function Lower(c: char): char {
    if 'A' <= c <= 'Z' then (c as int + 32) as char else c
  }

  /** The pattern character w stands for the data character c. */
  predicate Stands(w: char, c: char, caseSensitive: bool) {
    w == '?' || (if caseSensitive then w == c else Lower(w) == Lower(c))
  }

  /** What a pattern means: `*` is any string, `?` any character, the rest themselves. */
  ghost predicate Matches(wild: string, data: string, caseSensitive: bool)
    decreases |wild|
  {
    if wild == [] then data == []
    else if wild[0] == '*' then
      exists k :: 0 <= k <= |data| && Matches(wild[1..], data[k..], caseSensitive)
    else data != [] && Stands(wild[0], data[0], caseSensitive) && Matches(wild[1..], data[1..], caseSensitive)
  }

  function NonStars(wild: string): nat {
    if wild == [] then 0 else (if wild[0] == '*' then 0 else 1) + NonStars(wild[1..])
  }

  lemma {:induction false} MatchesNeeds(wild: string, data: string, caseSensitive: bool)
    requires Matches(wild, data, caseSensitive)
    ensures |data| >= NonStars(wild)
    decreases |wild|
  {
    if wild == [] {
    } else if wild[0] == '*' {
      var k :| 0 <= k <= |data| && Matches(wild[1..], data[k..], caseSensitive);
      MatchesNeeds(wild[1..], data[k..], caseSensitive);
    } else {
      MatchesNeeds(wild[1..], data[1..], caseSensitive);
    }
  }

  lemma {:induction false} OnlyStarsMatchNothing(wild: string, caseSensitive: bool)
    ensures Matches(wild, [], caseSensitive) <==> NonStars(wild) == 0
    decreases |wild|
  {
    if wild != [] {
      OnlyStarsMatchNothing(wild[1..], caseSensitive);
      if wild[0] == '*' {
        var nothing: string := [];
        assert nothing[0..] == nothing;
      }
    }
  }

  /** What a star matches from a later position it matches from an earlier one. */
  lemma StarReachesFurther(wild: string, data: string, i: nat, j: nat, caseSensitive: bool)
    requires wild != [] && wild[0] == '*' && i <= j <= |data|
    requires Matches(wild, data[j..], caseSensitive)
    ensures Matches(wild, data[i..], caseSensitive)
  {
    var k :| 0 <= k <= |data[j..]| && Matches(wild[1..], data[j..][k..], caseSensitive);
    assert data[j..][k..] == data[i..][j - i + k..];
  }

  /** The pattern part [from, to) has no star and stands for the data part of the same length at `at`. */
  predicate Segment(wild: string, from: nat, to: nat, data: string, at: nat, caseSensitive: bool)
    requires from <= to <= |wild|
  {
    && at + (to - from) <= |data|
    && forall i :: from <= i < to ==> wild[i] != '*' && Stands(wild[i], data[at + (i - from)], caseSensitive)
  }

  /** Behind a matched segment the question is the rest against the rest. */
  lemma {:induction false} SegmentMatches(wild: string, from: nat, to: nat, data: string, at: nat, caseSensitive: bool)
    requires from <= to <= |wild| && Segment(wild, from, to, data, at, caseSensitive)
    ensures Matches(wild[from..], data[at..], caseSensitive)
       <==> Matches(wild[to..], data[at + (to - from)..], caseSensitive)
    decreases |wild| - from
  {
    if from < to {
      assert wild[from..][0] == wild[from] && wild[from..][1..] == wild[from + 1..];
      assert data[at..][0] == data[at] && data[at..][1..] == data[at + 1..];
      SegmentMatches(wild, from + 1, to, data, at + 1, caseSensitive);
    }
  }

  /** A match of the literal part of a pattern leaves a match of what follows it. */
  lemma {:induction false} LiteralConsumes(wild: string, from: nat, to: nat, data: string, at: nat, caseSensitive: bool)
    requires from <= to <= |wild| && at <= |data|
    requires forall i :: from <= i < to ==> wild[i] != '*'
    requires Matches(wild[from..], data[at..], caseSensitive)
    ensures at + (to - from) <= |data| && Matches(wild[to..], data[at + (to - from)..], caseSensitive)
    decreases |wild| - from
  {
    if from < to {
      assert wild[from..][0] == wild[from] && wild[from..][1..] == wild[from + 1..];
      assert data[at..][1..] == data[at + 1..];
      LiteralConsumes(wild, from + 1, to, data, at + 1, caseSensitive);
    }
  }

  /** Some retry from position `first` on can still succeed. */
  ghost predicate CanRetry(wild: string, mp: nat, data: string, first: nat, caseSensitive: bool)
    requires mp <= |wild|
  {
    exists k :: first <= k <= |data| && Matches(wild[mp..], data[k..], caseSensitive)
  }

  lemma StarIsRetry(wild: string, star: nat, data: string, at: nat, caseSensitive: bool)
    requires star < |wild| && wild[star] == '*' && at <= |data|
    ensures Matches(wild[star..], data[at..], caseSensitive) <==> CanRetry(wild, star + 1, data, at, caseSensitive)
  {
    assert wild[star..][1..] == wild[star + 1..];
    if Matches(wild[star..], data[at..], caseSensitive) {
      var k :| 0 <= k <= |data[at..]| && Matches(wild[star + 1..], data[at..][k..], caseSensitive);
      assert data[at..][k..] == data[at + k..];
    }
    if CanRetry(wild, star + 1, data, at, caseSensitive) {
      var k :| at <= k <= |data| && Matches(wild[star + 1..], data[k..], caseSensitive);
      assert data[at..][k - at..] == data[k..];
    }
  }

  /** The attempt under way started at `first` and has matched [mp, wi); the
      answer is whether it or a later one succeeds. */
  ghost predicate Attempt(wild: string, mp: nat, wi: nat, data: string, first: nat, di: nat, caseSensitive: bool,
                          answer: bool) {
    && mp <= wi <= |wild| && first <= di <= |data| && di - first == wi - mp
    && Segment(wild, mp, wi, data, first, caseSensitive)
    && (answer <==> CanRetry(wild, mp, data, first, caseSensitive))
  }

  /** Reaching a new star, the earliest place is as good as any: older retries may be forgotten. */
  lemma NewStarSuffices(wild: string, mp: nat, star: nat, data: string, first: nat, at: nat, caseSensitive: bool)
    requires mp <= star < |wild| && wild[star] == '*'
    requires first <= at <= |data| && at - first == star - mp
    requires Segment(wild, mp, star, data, first, caseSensitive)
    ensures CanRetry(wild, mp, data, first, caseSensitive) <==> CanRetry(wild, star + 1, data, at, caseSensitive)
  {
    StarIsRetry(wild, star, data, at, caseSensitive);
    if CanRetry(wild, mp, data, first, caseSensitive) {
      RetryReachesStar(wild, mp, star, data, first, at, caseSensitive);
    }
    if CanRetry(wild, star + 1, data, at, caseSensitive) {
      SegmentMatches(wild, mp, star, data, first, caseSensitive);
      MatchIsRetry(wild, mp, data, first, caseSensitive);
    }
  }

  lemma MatchIsRetry(wild: string, mp: nat, data: string, first: nat, caseSensitive: bool)
    requires mp <= |wild| && first <= |data| && Matches(wild[mp..], data[first..], caseSensitive)
    ensures CanRetry(wild, mp, data, first, caseSensitive)
  {
  }

  lemma RetryReachesStar(wild: string, mp: nat, star: nat, data: string, first: nat, at: nat, caseSensitive: bool)
    requires mp <= star < |wild| && wild[star] == '*'
    requires first <= at <= |data| && at - first == star - mp
    requires forall i :: mp <= i < star ==> wild[i] != '*'
    requires CanRetry(wild, mp, data, first, caseSensitive)
    ensures Matches(wild[star..], data[at..], caseSensitive)
  {
    var k :| first <= k <= |data| && Matches(wild[mp..], data[k..], caseSensitive);
    LiteralConsumes(wild, mp, star, data, k, caseSensitive);
    StarReachesFurther(wild[star..], data, at, k + (star - mp), caseSensitive);
  }

  /** A failed attempt leaves the later ones. */
  lemma RetryLater(wild: string, mp: nat, wi: nat, data: string, first: nat, di: nat, caseSensitive: bool)
    requires mp <= wi <= |wild| && first <= di < |data| && di - first == wi - mp
    requires Segment(wild, mp, wi, data, first, caseSensitive)
    requires wi == |wild| || (wild[wi] != '*' && !Stands(wild[wi], data[di], caseSensitive))
    ensures CanRetry(wild, mp, data, first, caseSensitive) <==> CanRetry(wild, mp, data, first + 1, caseSensitive)
  {
    SegmentMatches(wild, mp, wi, data, first, caseSensitive);
    assert !Matches(wild[wi..], data[di..], caseSensitive);
  }

  /** With the data used up, the attempt under way decides. */
  lemma AtEndOfData(wild: string, mp: nat, wi: nat, data: string, first: nat, caseSensitive: bool, answer: bool)
    requires Attempt(wild, mp, wi, data, first, |data|, caseSensitive, answer)
    ensures answer <==> NonStars(wild[wi..]) == 0
  {
    SegmentMatches(wild, mp, wi, data, first, caseSensitive);
    assert data[|data|..] == [];
    OnlyStarsMatchNothing(wild[wi..], caseSensitive);
    if CanRetry(wild, mp, data, first, caseSensitive) {
      var k :| first <= k <= |data| && Matches(wild[mp..], data[k..], caseSensitive);
      LiteralConsumes(wild, mp, wi, data, k, caseSensitive);
      MatchesNeeds(wild[wi..], data[k + (wi - mp)..], caseSensitive);
    }
  }

  /** Before the first star of the second loop nothing has to be retried. */
  lemma StartAttempt(wild: string, w: nat, data: string, d: nat, caseSensitive: bool)
    requires w <= |wild| && d <= |data|
    requires d == |data| || (w < |wild| && wild[w] == '*')
    ensures Attempt(wild, w, w, data, d, d, caseSensitive, Matches(wild[w..], data[d..], caseSensitive))
  {
    if CanRetry(wild, w, data, d, caseSensitive) && d < |data| {
      var k :| d <= k <= |data| && Matches(wild[w..], data[k..], caseSensitive);
      StarReachesFurther(wild[w..], data, d, k, caseSensitive);
    }
  }

  lemma RestartAttempt(wild: string, mp: nat, wi: nat, data: string, first: nat, di: nat, caseSensitive: bool,
        answer: bool)
    requires Attempt(wild, mp, wi, data, first, di, caseSensitive, answer)
    requires wi < |wild| && wild[wi] == '*'
    ensures Attempt(wild, wi + 1, wi + 1, data, di, di, caseSensitive, answer)
  {
    NewStarSuffices(wild, mp, wi, data, first, di, caseSensitive);
  }

  lemma ExtendAttempt(wild: string, mp: nat, wi: nat, data: string, first: nat, di: nat, caseSensitive: bool,
        answer: bool)
    requires Attempt(wild, mp, wi, data, first, di, caseSensitive, answer)
    requires wi < |wild| && di < |data| && wild[wi] != '*' && Stands(wild[wi], data[di], caseSensitive)
    ensures Attempt(wild, mp, wi + 1, data, first, di + 1, caseSensitive, answer)
  {
  }

  lemma FailAttempt(wild: string, mp: nat, wi: nat, data: string, first: nat, di: nat, caseSensitive: bool,
        answer: bool)
    requires Attempt(wild, mp, wi, data, first, di, caseSensitive, answer) && di < |data|
    requires wi == |wild| || (wild[wi] != '*' && !Stands(wild[wi], data[di], caseSensitive))
    ensures Attempt(wild, mp, mp, data, first + 1, first + 1, caseSensitive, answer)
  {
    RetryLater(wild, mp, wi, data, first, di, caseSensitive);
  }

  /** A pattern that ends in a star matches whatever is left. */
  lemma LastStar(wild: string, data: string, at: nat, caseSensitive: bool)
    requires at <= |data|
    ensures CanRetry(wild, |wild|, data, at, caseSensitive)
  {
    assert wild[|wild|..] == [] && data[|data|..] == [];
    assert Matches(wild[|wild|..], data[|data|..], caseSensitive);
  }

  /** The pointer at i into a C string, whose terminator is its end, stands at a star. */
  predicate AtStar(wild: string, i: nat) {
    i < |wild| && wild[i] == '*'
  }

  method Wildcmp(wild: string, data: string, caseSensitive: bool) returns (result: bool)
    ensures result <==> Matches(wild, data, caseSensitive)
  {
    var wi, di := 0, 0;
    while di < |data| && !AtStar(wild, wi)
      invariant 0 <= wi <= |wild| && 0 <= di <= |data| && wi == di
      invariant Segment(wild, 0, wi, data, 0, caseSensitive)
      decreases |data| - di
    {
      if wi == |wild| || !Stands(wild[wi], data[di], caseSensitive) {
        SegmentMatches(wild, 0, wi, data, 0, caseSensitive);
        assert wild[0..] == wild && data[0..] == data;
        return false;
      }
      wi, di := wi + 1, di + 1;
    }
    SegmentMatches(wild, 0, wi, data, 0, caseSensitive);
    assert wild[0..] == wild && data[0..] == data;
    StartAttempt(wild, wi, data, di, caseSensitive);
    result := BacktrackFrom(wild, wi, data, di, caseSensitive, Matches(wild[wi..], data[di..], caseSensitive));
  }

  /** The second and third loop: `mp` is the place after the last star seen and
      `cp` the place in the data to retry from. */
  method BacktrackFrom(wild: string, w: nat, data: string, d: nat, caseSensitive: bool, ghost answer: bool)
      returns (result: bool)
    requires Attempt(wild, w, w, data, d, d, caseSensitive, answer)
    ensures result <==> answer
  {
    // the source starts with null pointers, which are not read before the first star
    var wi: nat, di: nat, mp: nat, cp: nat := w, d, w, d + 1;
    while di < |data|
      invariant cp > 0 && Attempt(wild, mp, wi, data, cp - 1, di, caseSensitive, answer)
      decreases |wild| - mp, |data| + 1 - cp, |data| - di
    {
      if AtStar(wild, wi) {
        wi, mp, cp := PassStar(wild, mp, wi, data, cp, di, caseSensitive, answer);
        if wi == |wild| {
          return true;
        }
      } else {
        wi, di, cp := MatchOrRetry(wild, mp, wi, data, cp, di, caseSensitive, answer);
      }
    }
    AtEndOfData(wild, mp, wi, data, cp - 1, caseSensitive, answer);
    result := OnlyStarsLeft(wild, wi);
  }

  /** At a star: the place behind it and the next character of the data are remembered. */
  method PassStar(wild: string, m: nat, w: nat, data: string, c: nat, d: nat, caseSensitive: bool, ghost answer: bool)
      returns (wi: nat, mp: nat, cp: nat)
    requires c > 0 && AtStar(wild, w) && Attempt(wild, m, w, data, c - 1, d, caseSensitive, answer)
    ensures wi == mp > m && cp == d + 1
    ensures Attempt(wild, mp, wi, data, cp - 1, d, caseSensitive, answer)
    ensures wi == |wild| ==> answer
  {
    RestartAttempt(wild, m, w, data, c - 1, d, caseSensitive, answer);
    wi := w + 1;
    mp, cp := wi, d + 1;
    if wi == |wild| {
      LastStar(wild, data, d, caseSensitive);
    }
  }

  /** One turn away from a star: go on with the attempt, or start the next one. */
  method MatchOrRetry(wild: string, mp: nat, w: nat, data: string, c: nat, d: nat, caseSensitive: bool,
                      ghost answer: bool) returns (wi: nat, di: nat, cp: nat)
    requires c > 0 && d < |data| && !AtStar(wild, w)
    requires Attempt(wild, mp, w, data, c - 1, d, caseSensitive, answer)
    ensures cp > 0 && Attempt(wild, mp, wi, data, cp - 1, di, caseSensitive, answer)
    ensures (cp == c && di == d + 1) || cp == c + 1 <= |data| + 1
  {
    if w < |wild| && Stands(wild[w], data[d], caseSensitive) {
      ExtendAttempt(wild, mp, w, data, c - 1, d, caseSensitive, answer);
      wi, di, cp := w + 1, d + 1, c;
    } else {
      FailAttempt(wild, mp, w, data, c - 1, d, caseSensitive, answer);
      wi, di, cp := mp, c, c + 1;
    }
  }

  /** The third loop: step over stars and see whether the pattern ends. */
  method OnlyStarsLeft(wild: string, w: nat) returns (result: bool)
    requires w <= |wild|
    ensures result <==> NonStars(wild[w..]) == 0
  {
    var wi := w;
    while AtStar(wild, wi)
      invariant w <= wi <= |wild|
      invariant NonStars(wild[w..]) == NonStars(wild[wi..])
      decreases |wild| - wi
    {
      assert wild[wi..][1..] == wild[wi + 1..];
      wi := wi + 1;
    }
    result := wi == |wild|;
  }
}
