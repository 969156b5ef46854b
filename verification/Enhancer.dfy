/** The enhancer as an object: it follows the switch stack and unindents the text of each line. */
module EnhancerObject {
  import opened Basics
  import opened LineIndents
  import opened Switches

  /** A text after unindents in the order they are made. */
  function UnindentAll(s: Settings, text: string, amounts: seq<int>): Option<string>
    requires Sound(s)
    requires forall k :: 0 <= k < |amounts| ==> amounts[k] >= 0
  {
    if amounts == [] then Some(text)
    else
      var before := UnindentAll(s, text, DropLast(amounts));
      if before.None? then None else Unindented(s, before.value, Last(amounts))
  }

  lemma UnindentOnce(s: Settings, text: string, amounts: seq<int>, amount: nat)
    requires Sound(s)
    requires forall k :: 0 <= k < |amounts| ==> amounts[k] >= 0
    ensures var before := UnindentAll(s, text, amounts);
      UnindentAll(s, text, amounts + [amount])
        == if before.None? then None else Unindented(s, before.value, amount)
  {
    assert DropLast(amounts + [amount]) == amounts;
  }

  /** The state after a whole line; a blank line that is not filled ends at once. */
  function LineState(c: Config, st: State, blank: bool, skipped: bool, ts: seq<Token>): (r: State)
    requires Valid(st)
    ensures Valid(r)
  {
    var begun := BeginLine(c, st, blank, skipped);
    if blank && !c.emptyLineFill then begun else FinishLine(Run(c, begun, ts))
  }

  class Enhancer {
    const config: Config
    const settings: Settings
    var sw: SwitchVariables
    var switchStack: seq<SwitchVariables>
    var switchDepth: int
    var lookingForCaseBrace: bool
    var unindentNextLine: bool
    var shouldUnindentLine: bool
    var shouldUnindentComment: bool
    var skipped: bool
    var unindents: seq<int>
    var line: Option<string>
    ghost var original: string

    ghost function State(): Switches.State
      reads this
    {
      Switches.State(sw, switchStack, switchDepth, lookingForCaseBrace, unindentNextLine,
                     shouldUnindentLine, shouldUnindentComment, skipped, unindents)
    }

    /** The frames are sound, and the line is the text it was after the unindents so far. */
    ghost predicate Sane()
      reads this
    {
      && Sound(settings) && Valid(State()) && FramesOk(State())
      && line == UnindentAll(settings, original, unindents)
    }

    constructor (c: Config, s: Settings)
      requires Sound(s)
      ensures Sane() && State() == Initial() && config == c && settings == s
    {
      config, settings := c, s;
      sw, switchStack, switchDepth := SwitchVariables(0, 0, false), [], 0;
      lookingForCaseBrace, unindentNextLine := false, false;
      shouldUnindentLine, shouldUnindentComment, skipped := false, false, false;
      unindents, line, original := [], Some([]), [];
    }

    method Unindent(amount: nat)
      requires Sane()
      modifies `unindents, `line
      ensures Sane() && unindents == old(unindents) + [amount]
    {
      UnindentOnce(settings, original, unindents, amount);
      if line.Some? {
        var erased;
        line, erased := UnindentLine(settings, line.value, amount);
      }
      unindents := unindents + [amount];
    }

    method SaveSwitch()
      requires Sane()
      modifies `switchDepth, `switchStack, `sw
      ensures Sane() && State() == PushSwitch(old(State()))
    {
      switchDepth := switchDepth + 1;
      switchStack := switchStack + [sw];
      sw := sw.(switchBraceCount := 0);
      sw := sw.(unindentCase := false);
    }

    method RestoreSwitch()
      requires Sane() && switchStack != []
      modifies `switchDepth, `switchStack, `sw
      ensures Sane()
      ensures State() == old(State()).(
        switchDepth := old(switchDepth) - 1, sw := Last(old(switchStack)), switchStack := DropLast(old(switchStack)))
    {
      switchDepth := switchDepth - 1;
      sw := Last(switchStack);
      switchStack := DropLast(switchStack);
    }

    /** The unindent of the line on which a switch ends. */
    method UnindentLastLine(first: bool)
      requires Sane() && switchStack != []
      modifies `shouldUnindentLine, `unindents, `line
      ensures Sane() && !shouldUnindentLine
      ensures var amount := if first then Last(switchStack).unindentDepth else sw.unindentDepth;
        unindents == if old(shouldUnindentLine) && amount > 0 then old(unindents) + [amount] else old(unindents)
    {
      var lineUnindent := sw.unindentDepth;
      if first && switchStack != [] {
        lineUnindent := Last(switchStack).unindentDepth;
      }
      if shouldUnindentLine {
        if lineUnindent > 0 {
          Unindent(lineUnindent);
        }
        shouldUnindentLine := false;
      }
    }

    method ProcessClose(first: bool)
      requires Sane() && switchStack != []
      modifies `sw, `lookingForCaseBrace, `shouldUnindentLine, `switchDepth, `switchStack, `unindents, `line
      ensures Sane() && State() == CloseInSwitch(old(State()), first)
    {
      lookingForCaseBrace := false;
      sw := sw.(switchBraceCount := sw.switchBraceCount - 1);
      if sw.switchBraceCount == 0 {
        UnindentLastLine(first);
        RestoreSwitch();
      }
    }

    method ProcessOpen()
      requires Sane()
      modifies `sw, `lookingForCaseBrace
      ensures Sane() && State() == OpenInSwitch(old(State()))
    {
      sw := sw.(switchBraceCount := sw.switchBraceCount + 1);
      if lookingForCaseBrace {
        sw := sw.(unindentCase := true);
        sw := sw.(unindentDepth := sw.unindentDepth + 1);
        lookingForCaseBrace := false;
      }
    }

    method ProcessLabel(follow: Follow)
      requires Sane()
      modifies `sw, `lookingForCaseBrace, `unindentNextLine
      ensures Sane() && State() == LabelInSwitch(old(State()), follow)
    {
      lookingForCaseBrace := false;
      if sw.unindentCase {
        sw := sw.(unindentCase := false);
        sw := sw.(unindentDepth := sw.unindentDepth - 1);
      }
      if follow.Brace? {
        sw := sw.(switchBraceCount := sw.switchBraceCount + 1);
        if !follow.oneLine {
          unindentNextLine := true;
        }
        return;
      }
      lookingForCaseBrace := true;
    }

    method ProcessSwitchBlock(t: Token)
      requires Sane() && switchStack != [] && (t.OpenBrace? || t.CloseBrace? || t.Label? || t.Other?)
      requires Processed(config, State())
      modifies `sw, `lookingForCaseBrace, `unindentNextLine, `shouldUnindentLine,
               `switchDepth, `switchStack, `unindents, `line
      ensures Sane() && State() == Step(config, old(State()), t)
    {
      if t.OpenBrace? {
        ProcessOpen();
      } else if t.CloseBrace? {
        ProcessClose(t.first);
      } else if t.Label? {
        ProcessLabel(t.follow);
      } else {
        lookingForCaseBrace := false;
      }
    }

    /** A comment in an unindented case, outside the braces of the case. */
    method ProcessComment()
      requires Sane()
      modifies `shouldUnindentComment
      ensures Sane() && State() == SeeComment(old(State()))
    {
      if sw.switchBraceCount == 1 && sw.unindentCase {
        shouldUnindentComment := true;
      }
    }

    method ParseToken(t: Token)
      requires Sane() && t != EndLine && !t.StartLine?
      modifies `sw, `lookingForCaseBrace, `unindentNextLine, `shouldUnindentLine, `shouldUnindentComment,
               `switchDepth, `switchStack, `unindents, `line
      ensures Sane() && State() == Step(config, old(State()), t)
    {
      if t.LineComment? {
        if t.first {
          ProcessComment();
        }
      } else if t.BlockComment? {
        ProcessComment();
      } else if t.SwitchWord? {
        SaveSwitch();
      } else if !(config.caseIndent || switchDepth == 0 || skipped) {
        ProcessSwitchBlock(t);
      }
    }

    method ParseCurrentLine(ts: seq<Token>)
      requires Sane() && forall k :: 0 <= k < |ts| ==> ts[k] != EndLine && !ts[k].StartLine?
      modifies `sw, `lookingForCaseBrace, `unindentNextLine, `shouldUnindentLine, `shouldUnindentComment,
               `switchDepth, `switchStack, `unindents, `line
      ensures Sane() && State() == Run(config, old(State()), ts)
    {
      var i := 0;
      while i < |ts|
        invariant 0 <= i <= |ts| && Sane()
        invariant Run(config, State(), ts[i..]) == Run(config, old(State()), ts)
      {
        assert ts[i..][0] == ts[i] && ts[i..][1..] == ts[i + 1..];
        ParseToken(ts[i]);
        i := i + 1;
      }
      assert Run(config, State(), []) == State();
    }

    method StartOfLine(text: string, inPreprocessor: bool) returns (ended: bool)
      requires Sane()
      modifies `shouldUnindentLine, `shouldUnindentComment, `skipped, `unindents, `line, `original,
               `sw, `unindentNextLine
      ensures Sane() && original == text && ended == (text == [] && !config.emptyLineFill)
      ensures State() == BeginLine(config, old(State()), text == [], inPreprocessor)
    {
      line, original, unindents := Some(text), text, [];
      shouldUnindentLine, shouldUnindentComment, skipped := true, false, inPreprocessor;
      if |text| == 0 && !config.emptyLineFill {
        return true;
      }
      if unindentNextLine {
        sw := sw.(unindentDepth := sw.unindentDepth + 1);
        sw := sw.(unindentCase := true);
        unindentNextLine := false;
      }
      return false;
    }

    method EndOfLine()
      requires Sane()
      modifies `unindents, `line
      ensures Sane() && State() == FinishLine(old(State()))
    {
      if shouldUnindentComment && sw.unindentDepth > 0 {
        Unindent(sw.unindentDepth - 1);
      } else if shouldUnindentLine && sw.unindentDepth > 0 {
        Unindent(sw.unindentDepth);
      }
    }

    method Enhance(text: string, ts: seq<Token>, inPreprocessor: bool) returns (result: Option<string>)
      requires Sane() && forall k :: 0 <= k < |ts| ==> ts[k] != EndLine && !ts[k].StartLine?
      modifies this
      ensures Sane() && State() == LineState(config, old(State()), text == [], inPreprocessor, ts)
      ensures result == UnindentAll(settings, text, unindents)
    {
      var ended := StartOfLine(text, inPreprocessor);
      if ended {
        return line;
      }
      ParseCurrentLine(ts);
      EndOfLine();
      return line;
    }
  }
}
