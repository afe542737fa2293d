/**
 * The stream classifier `parse_grok3_streaming_json`: a one-boolean state machine over the
 * upstream's lines that brackets each run of reasoning tokens with think tags.
 */
module Classifier {
  import opened Text

  const ThinkOpen := "<think>\n"
  const ThinkClose := "\n</think>\n\n"

  /** One line of the upstream body: blank, or a token object already decoded from JSON. */
  datatype Line = Blank | TokenLine(token: string, tokenThinking: bool)

  /** What one line hands to the handler ("" for nothing) and the new value of `is_thinking`. */
  datatype Step = Step(emit: string, isThinking: bool)

  /** The loop body of `parse_grok3_streaming_json` for one line. */
  function Advance(isThinking: bool, line: Line, ignoreThinking: bool): Step {
    match line
    case Blank => Step("", isThinking)
    case TokenLine(token, tokenThinking) =>
      if ignoreThinking && tokenThinking then Step("", isThinking)
      else if tokenThinking then Step(if isThinking then token else ThinkOpen + token, true)
      else if isThinking then Step(token + ThinkClose, false)
      else Step(token, false)
  }

  /** The handler is called only with non-empty strings. */
  function Emit(s: string): seq<string> {
    if s == "" then [] else [s]
  }

  /** The handler's calls, in order, for `lines` read from state `isThinking`. */
  function ClassifyFrom(isThinking: bool, lines: seq<Line>, ignoreThinking: bool): (calls: seq<string>)
    ensures |calls| <= |lines|
    ensures forall k :: 0 <= k < |calls| ==> calls[k] != ""
    decreases lines
  {
    if lines == [] then []
    else
      var step := Advance(isThinking, lines[0], ignoreThinking);
      Emit(step.emit) + ClassifyFrom(step.isThinking, lines[1..], ignoreThinking)
  }

  /** The value of `is_thinking` after `lines`. */
  function StateAfter(isThinking: bool, lines: seq<Line>, ignoreThinking: bool): bool
    decreases lines
  {
    if lines == [] then isThinking
    else StateAfter(Advance(isThinking, lines[0], ignoreThinking).isThinking, lines[1..], ignoreThinking)
  }

  /** The handler's calls for a whole response; `is_thinking` starts false. */
  function Classify(lines: seq<Line>, ignoreThinking: bool): seq<string> {
    ClassifyFrom(false, lines, ignoreThinking)
  }

  /** `parse_grok3_streaming_json`, returning the handler's calls in order. */
  method ParseStreamingJson(lines: seq<Line>, ignoreThinking: bool) returns (calls: seq<string>)
    ensures calls == Classify(lines, ignoreThinking)
  {
    var isThinking := false;
    calls := [];
    for i := 0 to |lines|
      invariant calls == ClassifyFrom(false, lines[..i], ignoreThinking)
      invariant isThinking == StateAfter(false, lines[..i], ignoreThinking)
    {
      ClassifyStep(lines, i, ignoreThinking);
      ghost var step := Advance(isThinking, lines[i], ignoreThinking);
      ghost var before := calls;
      match lines[i]
      case Blank =>
      case TokenLine(token, tokenThinking) =>
        var respToken := token;
        if ignoreThinking && tokenThinking {
        } else {
          if tokenThinking {
            if !isThinking {
              respToken := ThinkOpen + respToken;
            }
            isThinking := true;
          } else if isThinking {
            respToken := respToken + ThinkClose;
            isThinking := false;
          }
          if respToken != "" {
            calls := calls + [respToken];
          }
        }
      assert calls == before + Emit(step.emit) && isThinking == step.isThinking;
    }
    assert lines[..|lines|] == lines;
  }

  /** Reading one more line of a response: what the loop body of the classifier must do. */
  lemma ClassifyStep(lines: seq<Line>, i: int, ignoreThinking: bool)
    requires 0 <= i < |lines|
    ensures var step := Advance(StateAfter(false, lines[..i], ignoreThinking), lines[i], ignoreThinking);
      && ClassifyFrom(false, lines[..i + 1], ignoreThinking) == ClassifyFrom(false, lines[..i], ignoreThinking) + Emit(step.emit)
      && StateAfter(false, lines[..i + 1], ignoreThinking) == step.isThinking
  {
    var prefix, line := lines[..i], lines[i];
    assert lines[..i + 1] == prefix + [line];
    ClassifyAppend(false, prefix, [line], ignoreThinking);
    StateAppend(false, prefix, [line], ignoreThinking);
    assert [line][1..] == [];
  }

  /** Reading `a + b` leaves the state that reading `b` leaves, started where `a` left off. */
  lemma {:induction false} StateAppend(isThinking: bool, a: seq<Line>, b: seq<Line>, ignoreThinking: bool)
    ensures StateAfter(isThinking, a + b, ignoreThinking)
         == StateAfter(StateAfter(isThinking, a, ignoreThinking), b, ignoreThinking)
    decreases a
  {
    if a == [] {
      assert a + b == b;
    } else {
      assert (a + b)[0] == a[0] && (a + b)[1..] == a[1..] + b;
      StateAppend(Advance(isThinking, a[0], ignoreThinking).isThinking, a[1..], b, ignoreThinking);
    }
  }

  /** Reading a line in front of `rest`. */
  lemma ClassifyCons(isThinking: bool, line: Line, rest: seq<Line>, ignoreThinking: bool)
    ensures var step := Advance(isThinking, line, ignoreThinking);
      ClassifyFrom(isThinking, [line] + rest, ignoreThinking)
      == Emit(step.emit) + ClassifyFrom(step.isThinking, rest, ignoreThinking)
  {
    assert ([line] + rest)[0] == line && ([line] + rest)[1..] == rest;
  }

  /**
   * The classifier works line by line: reading `a + b` hands the handler what reading `a`
   * does, then what reading `b` does from the state `a` left.
   */
  lemma {:induction false} ClassifyAppend(isThinking: bool, a: seq<Line>, b: seq<Line>, ignoreThinking: bool)
    ensures ClassifyFrom(isThinking, a + b, ignoreThinking)
         == ClassifyFrom(isThinking, a, ignoreThinking) + ClassifyFrom(StateAfter(isThinking, a, ignoreThinking), b, ignoreThinking)
    decreases a
  {
    if a == [] {
      assert a + b == b;
    } else {
      var step := Advance(isThinking, a[0], ignoreThinking);
      var head := Emit(step.emit);
      var tail := ClassifyFrom(step.isThinking, a[1..], ignoreThinking);
      var rest := ClassifyFrom(StateAfter(step.isThinking, a[1..], ignoreThinking), b, ignoreThinking);
      calc {
        ClassifyFrom(isThinking, a + b, ignoreThinking);
        == { assert a + b == [a[0]] + (a[1..] + b); ClassifyCons(isThinking, a[0], a[1..] + b, ignoreThinking); }
        head + ClassifyFrom(step.isThinking, a[1..] + b, ignoreThinking);
        == { ClassifyAppend(step.isThinking, a[1..], b, ignoreThinking); }
        head + (tail + rest);
        ==
        (head + tail) + rest;
        == { assert a == [a[0]] + a[1..]; ClassifyCons(isThinking, a[0], a[1..], ignoreThinking); }
        ClassifyFrom(isThinking, a, ignoreThinking) + rest;
      }
    }
  }

  /** The non-empty tokens of the answer (non-thinking) lines, in order. */
  function AnswerTokens(lines: seq<Line>): seq<string>
    decreases lines
  {
    if lines == [] then []
    else
      (match lines[0]
       case TokenLine(token, false) => Emit(token)
       case _ => [])
      + AnswerTokens(lines[1..])
  }

  /**
   * With reasoning suppressed, `is_thinking` never becomes true and the handler receives exactly
   * the non-empty answer tokens, in order, with no think tags added.
   */
  lemma {:induction false} IgnoreThinking(lines: seq<Line>)
    ensures !StateAfter(false, lines, true)
    ensures Classify(lines, true) == AnswerTokens(lines)
    decreases lines
  {
    if lines != [] {
      IgnoreThinking(lines[1..]);
    }
  }

  /** Whether the most recent token line of `lines` was a reasoning token (false when there is none). */
  function LastThinking(lines: seq<Line>): bool
    decreases lines
  {
    if lines == [] then false
    else
      match lines[|lines| - 1]
      case Blank => LastThinking(lines[..|lines| - 1])
      case TokenLine(_, tokenThinking) => tokenThinking
  }

  /** Without suppression, `is_thinking` is exactly whether the most recent token was a reasoning token. */
  lemma {:induction false} StateIsLastThinking(lines: seq<Line>)
    ensures StateAfter(false, lines, false) == LastThinking(lines)
    decreases |lines|
  {
    if lines != [] {
      var init, last := lines[..|lines| - 1], lines[|lines| - 1];
      assert lines == init + [last];
      StateIsLastThinking(init);
      StateAppend(false, init, [last], false);
    }
  }

  /**
   * The text one line contributes when the previous token was (or was not) a reasoning token:
   * a reasoning token after an answer token gains the open tag in front, an answer token after
   * a reasoning token gains the close tag behind, and every other token is passed on unchanged.
   */
  function Framed(previousThinking: bool, line: Line): string {
    match line
    case Blank => ""
    case TokenLine(token, tokenThinking) =>
      (if tokenThinking && !previousThinking then ThinkOpen else "")
      + token
      + (if !tokenThinking && previousThinking then ThinkClose else "")
  }

  /**
   * Framing of a line in context: within any response, a line after the prefix `a` produces
   * `Framed(LastThinking(a), line)` if that is non-empty and nothing otherwise.
   */
  lemma Framing(a: seq<Line>, line: Line, b: seq<Line>)
    ensures Classify(a + [line] + b, false)
         == Classify(a, false) + Emit(Framed(LastThinking(a), line))
          + ClassifyFrom(LastThinking(a + [line]), b, false)
  {
    ClassifyAppend(false, a + [line], b, false);
    ClassifyAppend(false, a, [line], false);
    StateAppend(false, a, [line], false);
    StateIsLastThinking(a);
    StateIsLastThinking(a + [line]);
    var prev := LastThinking(a);
    assert [line][1..] == [];
    assert ClassifyFrom(prev, [line], false) == Emit(Advance(prev, line, false).emit);
    AdvanceIsFramed(prev, line);
  }

  /** Without suppression, what the state machine emits for a line is its framed text. */
  lemma AdvanceIsFramed(previousThinking: bool, line: Line)
    ensures Advance(previousThinking, line, false).emit == Framed(previousThinking, line)
  {
    match line
    case Blank =>
    case TokenLine(token, tokenThinking) =>
      if tokenThinking && !previousThinking {
        assert Framed(previousThinking, line) == ThinkOpen + token + "";
      } else if !tokenThinking && previousThinking {
        assert Framed(previousThinking, line) == "" + token + ThinkClose;
      } else {
        assert Framed(previousThinking, line) == "" + token + "";
      }
  }

  /**
   * No close tag is added at the end of the stream: when the last line is a reasoning token,
   * the output ends with that token (opened with the think tag if it starts a run).
   */
  lemma EndsOpen(a: seq<Line>, token: string)
    ensures Classify(a + [TokenLine(token, true)], false)
         == Classify(a, false) + Emit(if LastThinking(a) then token else ThinkOpen + token)
  {
    var line := TokenLine(token, true);
    Framing(a, line, []);
    assert a + [line] + [] == a + [line];
    assert Framed(LastThinking(a), line) == if LastThinking(a) then token else ThinkOpen + token by {
      if LastThinking(a) {
        assert Framed(LastThinking(a), line) == "" + token + "";
      } else {
        assert Framed(LastThinking(a), line) == ThinkOpen + token + "";
      }
    }
  }

  /** The framed text of every line, each framed by the line before it. */
  function FramedLines(lines: seq<Line>): seq<string>
    decreases |lines|
  {
    if lines == [] then []
    else FramedLines(lines[..|lines| - 1]) + [Framed(LastThinking(lines[..|lines| - 1]), lines[|lines| - 1])]
  }

  /**
   * Dropping empty strings loses no text: the concatenated output equals the concatenation of
   * every line's framed text.
   */
  lemma {:induction false} ClassifiedText(lines: seq<Line>)
    ensures Join(Classify(lines, false)) == Join(FramedLines(lines))
    decreases |lines|
  {
    if lines != [] {
      var init, last := lines[..|lines| - 1], lines[|lines| - 1];
      assert lines == init + [last] + [];
      assert lines[..|lines| - 1] == init;
      ClassifiedText(init);
      Framing(init, last, []);
      var piece := Framed(LastThinking(init), last);
      assert Classify(lines, false) == Classify(init, false) + Emit(piece);
      assert FramedLines(lines) == FramedLines(init) + [piece];
      JoinAppend(Classify(init, false), Emit(piece));
      JoinAppend(FramedLines(init), [piece]);
      assert Join([piece]) == piece + Join([]);
      assert Join(Emit(piece)) == piece by {
        if piece != "" { assert Join([piece]) == piece + Join([]); }
      }
    }
  }

  /** The worked example: two reasoning tokens then an answer token. */
  lemma ClassifyExample()
    ensures Classify([TokenLine("a", true), TokenLine("b", true), TokenLine("c", false)], false)
         == ["<think>\na", "b", "c\n</think>\n\n"]
    ensures Classify([TokenLine("a", true), TokenLine("b", true), TokenLine("c", false)], true)
         == ["c"]
  {
    var lines := [TokenLine("a", true), TokenLine("b", true), TokenLine("c", false)];
    assert lines[1..] == [TokenLine("b", true), TokenLine("c", false)];
    assert lines[1..][1..] == [TokenLine("c", false)];
    assert lines[1..][1..][1..] == [];
    assert Advance(false, lines[0], false) == Step("<think>\na", true);
    assert Advance(true, lines[1], false) == Step("b", true);
    assert Advance(true, lines[2], false) == Step("c\n</think>\n\n", false);
  }
}
