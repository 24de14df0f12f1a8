/**
 * `run_ui_test` from `advanced_tools.py`: a line-oriented script of device
 * actions. The script is stripped and split at `\n`; each line is stripped,
 * and blank lines and `#` comments are skipped. Every other line adds exactly
 * one result line: a recognised command sends its shell command and reports
 * it, anything else is reported as unrecognised and the script goes on. An
 * `int()` that fails, a `float()` or `time.sleep` that raises, or a shell call
 * that raises abandons the script, and the tool then returns only its
 * failure text.
 *
 * `float(token)` followed by `time.sleep` is the oracle `wait`: it answers
 * with `str()` of the parsed seconds, or with the message of the exception.
 */
module UiTest {
  import opened Common
  import opened Text
  import opened AdbServer

  // ---------------------------------------------------------------- parsing

  /** What one script line asks for. */
  datatype Instr =
    | Skip
    | Tap(x: int, y: int)
    | Swipe(x1: int, y1: int, x2: int, y2: int, duration: string)
    | TypeText(text: string)
    | Wait(seconds: string)
    | Press(keycode: string)
    | Home
    | Back
    | Unrecognised(line: string)
    | Invalid(message: string)

  /** The message of the `ValueError` that `int(token)` raises. */
  function IntError(token: string): string {
    "invalid literal for int() with base 10: '" + token + "'"
  }

  /** `x, y = int(tx), int(ty)`: the first token that `int()` rejects raises. */
  function TapOf(tx: string, ty: string): (i: Instr)
    ensures i.Tap? <==> ParseInt(tx).Some? && ParseInt(ty).Some?
    ensures i.Tap? ==> ParseInt(tx) == Some(i.x) && ParseInt(ty) == Some(i.y)
    ensures ParseInt(tx).None? ==> i == Invalid(IntError(tx))
    ensures ParseInt(tx).Some? && ParseInt(ty).None? ==> i == Invalid(IntError(ty))
  {
    match ParseInt(tx)
    case None => Invalid(IntError(tx))
    case Some(x) =>
      match ParseInt(ty)
      case None => Invalid(IntError(ty))
      case Some(y) => Tap(x, y)
  }

  /** `x1, y1, x2, y2 = int(t1), int(t2), int(t3), int(t4)`, then the duration token. */
  function SwipeOf(t1: string, t2: string, t3: string, t4: string, duration: string): (i: Instr)
    ensures i.Swipe? <==> ParseInt(t1).Some? && ParseInt(t2).Some? && ParseInt(t3).Some? && ParseInt(t4).Some?
    ensures i.Swipe? ==>
      && ParseInt(t1) == Some(i.x1) && ParseInt(t2) == Some(i.y1)
      && ParseInt(t3) == Some(i.x2) && ParseInt(t4) == Some(i.y2)
      && i.duration == duration
    ensures ParseInt(t1).None? ==> i == Invalid(IntError(t1))
    ensures ParseInt(t1).Some? && ParseInt(t2).None? ==> i == Invalid(IntError(t2))
    ensures ParseInt(t1).Some? && ParseInt(t2).Some? && ParseInt(t3).None? ==> i == Invalid(IntError(t3))
    ensures ParseInt(t1).Some? && ParseInt(t2).Some? && ParseInt(t3).Some? && ParseInt(t4).None? ==>
      i == Invalid(IntError(t4))
  {
    match ParseInt(t1)
    case None => Invalid(IntError(t1))
    case Some(x1) =>
      match ParseInt(t2)
      case None => Invalid(IntError(t2))
      case Some(y1) =>
        match ParseInt(t3)
        case None => Invalid(IntError(t3))
        case Some(x2) =>
          match ParseInt(t4)
          case None => Invalid(IntError(t4))
          case Some(y2) => Swipe(x1, y1, x2, y2, duration)
  }

  /** A line that `run_ui_test` skips: blank, or a comment, once stripped. */
  predicate Skipped(raw: string) {
    var line := Strip(raw);
    line == [] || line[0] == '#'
  }

  /** `text[1:-1]` when the text both starts and ends with `"`, else the text itself. */
  function Dequote(text: string): (r: string)
    ensures StartsWith(text, "\"") && EndsWith(text, "\"") ==> |r| == if |text| >= 2 then |text| - 2 else 0
    ensures !(StartsWith(text, "\"") && EndsWith(text, "\"")) ==> r == text
  {
    if StartsWith(text, "\"") && EndsWith(text, "\"") then
      if |text| >= 2 then text[1..|text| - 1] else ""
    else text
  }

  /** The command words of the script language, after lower-casing. */
  datatype Keyword = TapWord | SwipeWord | TextWord | WaitWord | PressWord | HomeWord | BackWord | OtherWord

  /** `parts[0].lower()` compared with each command word. */
  function KeywordOf(w: string): Keyword {
    var l := Lower(w);
    if l == "tap" then TapWord
    else if l == "swipe" then SwipeWord
    else if l == "text" then TextWord
    else if l == "wait" then WaitWord
    else if l == "press" then PressWord
    else if l == "home" then HomeWord
    else if l == "back" then BackWord
    else OtherWord
  }

  /**
   * The instruction of a stripped, non-skipped `line` whose tokens are `parts`:
   * each command checks its argument count; anything that fails to match is
   * unrecognised.
   */
  function ParseWords(line: string, parts: seq<string>): (i: Instr)
    requires parts != []
    ensures !i.Skip?
  {
    var kw := KeywordOf(parts[0]);
    var args := parts[1..];
    if kw == TapWord && |args| >= 2 then TapOf(args[0], args[1])
    else if kw == SwipeWord && |args| >= 4 then SwipeOf(args[0], args[1], args[2], args[3], if |args| >= 5 then args[4] else "300")
    else if kw == TextWord && |args| >= 1 then TypeText(Dequote(Join(args, " ")))
    else if kw == WaitWord && |args| >= 1 then Wait(args[0])
    else if kw == PressWord && |args| >= 1 then Press(args[0])
    else if kw == HomeWord then Home
    else if kw == BackWord then Back
    else Unrecognised(line)
  }

  /** A stripped line that is not blank has at least one token. */
  lemma TokensOfStripped(line: string)
    requires line != [] && Strip(line) == line
    ensures SplitWs(line) != []
  {
    assert LStrip(line) == line;
  }

  /** The instruction one raw script line stands for. */
  function Parse(raw: string): (i: Instr)
    ensures i.Skip? <==> Skipped(raw)
  {
    if Skipped(raw) then Skip
    else
      var line := Strip(raw);
      StripIdempotent(raw);
      TokensOfStripped(line);
      ParseWords(line, SplitWs(line))
  }

  /** The instructions of the script lines, line by line. */
  function Instrs(lines: seq<string>): (r: seq<Instr>)
    ensures |r| == |lines|
  {
    if lines == [] then [] else [Parse(lines[0])] + Instrs(lines[1..])
  }

  lemma {:induction false} InstrsAt(lines: seq<string>, k: nat)
    requires k < |lines|
    ensures Instrs(lines)[k] == Parse(lines[k])
  {
    if k > 0 {
      InstrsAt(lines[1..], k - 1);
    }
  }

  /** The instructions that send a shell command. */
  predicate Sends(i: Instr) {
    i.Tap? || i.Swipe? || i.TypeText? || i.Press? || i.Home? || i.Back?
  }

  /** The shell command an instruction sends. */
  function CommandOf(i: Instr): string
    requires Sends(i)
  {
    match i
    case Tap(x, y) => "input tap " + IntToString(x) + " " + IntToString(y)
    case Swipe(x1, y1, x2, y2, duration) =>
      "input swipe " + IntToString(x1) + " " + IntToString(y1) + " " + IntToString(x2) + " "
        + IntToString(y2) + " " + duration
    case TypeText(text) => "input text '" + EscapeText(text) + "'"
    case Press(k) => "input keyevent " + k
    case Home => "input keyevent 3"
    case Back => "input keyevent 4"
  }

  /** The result line of an instruction that does not fail; `secs` is what `wait` slept. */
  function Report(i: Instr, secs: string): string
    requires Sends(i) || i.Unrecognised? || i.Wait?
  {
    match i
    case Tap(x, y) => "点击 (" + IntToString(x) + ", " + IntToString(y) + ")"
    case Swipe(x1, y1, x2, y2, _) =>
      "滑动 (" + IntToString(x1) + ", " + IntToString(y1) + ") 到 (" + IntToString(x2) + ", " + IntToString(y2) + ")"
    case TypeText(text) => "输入文本: " + text
    case Wait(_) => "等待 " + secs + " 秒"
    case Press(k) => "按下按键 " + k
    case Home => "按下Home键"
    case Back => "按下返回键"
    case Unrecognised(line) => "未识别的命令: " + line
  }

  // ---------------------------------------------------------------- running

  /** The result lines so far, the operations sent, and the exception that stopped the script, if one did. */
  datatype Outcome = Outcome(results: seq<string>, sent: seq<Op>, error: Option<string>)

  /**
   * One instruction on device `d` after the operations in `hist`: a skipped line
   * reports nothing; any other reports one line, or fails; only a recognised
   * device command is sent, and it is sent whether or not it then raises.
   */
  function Perform(d: Device, wait: string -> Reply<string>, hist: seq<Op>, i: Instr): (r: Outcome)
    ensures r.error.None? ==> |r.results| == if i.Skip? then 0 else 1
    ensures r.error.Some? ==> r.results == []
    ensures r.sent == if Sends(i) then [Shell(CommandOf(i))] else []
  {
    if i.Skip? then Outcome([], [], None)
    else if i.Invalid? then Outcome([], [], Some(i.message))
    else if i.Unrecognised? then Outcome([Report(i, "")], [], None)
    else if i.Wait? then
      match wait(i.seconds)
      case Raised(m) => Outcome([], [], Some(m))
      case Ok(secs) => Outcome([Report(i, secs)], [], None)
    else
      var cmd := CommandOf(i);
      match d.shell(hist, cmd)
      case Raised(m) => Outcome([], [Shell(cmd)], Some(m))
      case Ok(_) => Outcome([Report(i, "")], [Shell(cmd)], None)
  }

  /** The script loop over the instructions `prog`, on device `d` after the operations in `hist`. */
  function Steps(d: Device, wait: string -> Reply<string>, hist: seq<Op>, prog: seq<Instr>): Outcome
    decreases |prog|
  {
    if prog == [] then Outcome([], [], None)
    else
      var e := Perform(d, wait, hist, prog[0]);
      if e.error.Some? then e
      else
        var rest := Steps(d, wait, hist + e.sent, prog[1..]);
        Outcome(e.results + rest.results, e.sent + rest.sent, rest.error)
  }

  const UiTestLabel := "执行UI测试失败"

  /** The lines of the script, before each is stripped. */
  function ScriptLines(steps: string): seq<string> {
    SplitOn(Strip(steps), '\n')
  }

  /** `run_ui_test` as a function. */
  function UiTestRun(devices: seq<Device>, id: Option<string>, steps: string, wait: string -> Reply<string>): Run {
    match Resolve(devices, id)
    case Raised(m) => Run(Failure(UiTestLabel, m), [])
    case Ok(d) =>
      var o := Steps(d, wait, [], Instrs(ScriptLines(steps)));
      if o.error.Some? then Run(Failure(UiTestLabel, o.error.value), o.sent)
      else Run("执行结果:\n" + Join(o.results, "\n"), o.sent)
  }

  /** The loop of `run_ui_test` over the instructions `prog`, on device `d`. */
  method RunSteps(d: Device, wait: string -> Reply<string>, prog: seq<Instr>)
    returns (results: seq<string>, sent: seq<Op>, error: Option<string>)
    ensures Outcome(results, sent, error) == Steps(d, wait, [], prog)
  {
    results := [];
    sent := [];
    var n := 0;
    while n < |prog|
      invariant 0 <= n <= |prog|
      invariant Steps(d, wait, [], prog) ==
        var rest := Steps(d, wait, sent, prog[n..]);
        Outcome(results + rest.results, sent + rest.sent, rest.error)
    {
      assert prog[n..][1..] == prog[n + 1..];
      assert prog[n..][0] == prog[n];
      var e := Perform(d, wait, sent, prog[n]);
      if e.error.Some? {
        assert results + [] == results;
        return results, sent + e.sent, e.error;
      }
      ghost var rest := Steps(d, wait, sent + e.sent, prog[n + 1..]);
      ConcatAssoc(results, e.results, rest.results);
      ConcatAssoc(sent, e.sent, rest.sent);
      results := results + e.results;
      sent := sent + e.sent;
      n := n + 1;
    }
    assert prog[n..] == [];
    assert results + [] == results && sent + [] == sent;
    error := None;
  }

  /** `run_ui_test`: resolve the device, then run the instructions of the script lines. */
  method RunUiTest(devices: seq<Device>, id: Option<string>, steps: string, wait: string -> Reply<string>)
    returns (output: string, sent: seq<Op>)
    ensures Run(output, sent) == UiTestRun(devices, id, steps, wait)
  {
    var r := GetDevice(devices, id);
    if r.Raised? {
      return Failure(UiTestLabel, r.message), [];
    }
    var results, error;
    results, sent, error := RunSteps(r.value, wait, Instrs(ScriptLines(steps)));
    if error.Some? {
      output := Failure(UiTestLabel, error.value);
    } else {
      output := "执行结果:\n" + Join(results, "\n");
    }
  }

  // ---------------------------------------------------------------- properties of the loop

  /** The instructions of the lines that are not skipped, in input order. */
  function Kept(prog: seq<Instr>): (r: seq<Instr>)
    ensures |r| <= |prog|
    ensures forall k :: 0 <= k < |r| ==> !r[k].Skip?
  {
    if prog == [] then []
    else (if prog[0].Skip? then [] else [prog[0]]) + Kept(prog[1..])
  }

  /** Running a script in two parts: the second part starts after the first part's operations, unless the first failed. */
  lemma {:induction false} StepsAppend(d: Device, wait: string -> Reply<string>, hist: seq<Op>, a: seq<Instr>, b: seq<Instr>)
    ensures var o := Steps(d, wait, hist, a);
      Steps(d, wait, hist, a + b) ==
        if o.error.Some? then o
        else
          var o2 := Steps(d, wait, hist + o.sent, b);
          Outcome(o.results + o2.results, o.sent + o2.sent, o2.error)
    decreases |a|
  {
    if a == [] {
      assert a + b == b;
      var o2 := Steps(d, wait, hist, b);
      assert [] + o2.results == o2.results && [] + o2.sent == o2.sent && hist + [] == hist;
    } else {
      assert (a + b)[0] == a[0];
      assert (a + b)[1..] == a[1..] + b;
      var e := Perform(d, wait, hist, a[0]);
      if e.error.None? {
        var h := hist + e.sent;
        StepsAppend(d, wait, h, a[1..], b);
        var o1 := Steps(d, wait, h, a[1..]);
        if o1.error.None? {
          var o2 := Steps(d, wait, h + o1.sent, b);
          ConcatAssoc(hist, e.sent, o1.sent);
          ConcatAssoc(e.results, o1.results, o2.results);
          ConcatAssoc(e.sent, o1.sent, o2.sent);
        }
      }
    }
  }

  /** Blank and comment lines send nothing and report nothing: the script runs as if they were absent. */
  lemma {:induction false} SkippedLinesAreInert(d: Device, wait: string -> Reply<string>, hist: seq<Op>, prog: seq<Instr>)
    ensures Steps(d, wait, hist, prog) == Steps(d, wait, hist, Kept(prog))
    decreases |prog|
  {
    if prog != [] {
      var rest := prog[1..];
      if prog[0].Skip? {
        assert Kept(prog) == Kept(rest);
        assert hist + [] == hist;
        assert Steps(d, wait, hist, prog) == Steps(d, wait, hist, rest) by {
          var o := Steps(d, wait, hist, rest);
          assert [] + o.results == o.results && [] + o.sent == o.sent;
        }
        SkippedLinesAreInert(d, wait, hist, rest);
      } else {
        var k := Kept(prog);
        assert k == [prog[0]] + Kept(rest);
        assert k[0] == prog[0] && k[1..] == Kept(rest);
        var e := Perform(d, wait, hist, prog[0]);
        if e.error.None? {
          SkippedLinesAreInert(d, wait, hist + e.sent, rest);
        }
      }
    }
  }

  /** A line that did not stop the script. */
  predicate Passes(wait: string -> Reply<string>, i: Instr) {
    Sends(i) || i.Unrecognised? || (i.Wait? && wait(i.seconds).Ok?)
  }

  /** The result line of a line that did not stop the script. */
  function ReportOf(wait: string -> Reply<string>, i: Instr): string
    requires Passes(wait, i)
  {
    Report(i, if i.Wait? then wait(i.seconds).value else "")
  }

  /**
   * A script that runs to the end reports exactly one line per kept line, in
   * input order: the k-th result is the report of the k-th kept line, and an
   * unrecognised line is reported, not fatal.
   */
  lemma {:induction false} OneResultPerKeptLine(d: Device, wait: string -> Reply<string>, hist: seq<Op>, prog: seq<Instr>)
    ensures var o := Steps(d, wait, hist, prog);
      o.error.None? ==>
        && |o.results| == |Kept(prog)|
        && forall k :: 0 <= k < |Kept(prog)| ==>
             Passes(wait, Kept(prog)[k]) && o.results[k] == ReportOf(wait, Kept(prog)[k])
    decreases |prog|
  {
    if prog != [] {
      var rest := prog[1..];
      var e := Perform(d, wait, hist, prog[0]);
      if e.error.None? {
        OneResultPerKeptLine(d, wait, hist + e.sent, rest);
        var o := Steps(d, wait, hist, prog);
        var o1 := Steps(d, wait, hist + e.sent, rest);
        assert o.results == e.results + o1.results;
        if prog[0].Skip? {
          assert Kept(prog) == Kept(rest);
          assert o.results == o1.results;
        } else {
          var kept := Kept(prog);
          assert kept == [prog[0]] + Kept(rest);
          assert Passes(wait, prog[0]) && e.results == [ReportOf(wait, prog[0])];
          if o1.error.None? {
            forall k | 0 <= k < |kept|
              ensures Passes(wait, kept[k]) && o.results[k] == ReportOf(wait, kept[k])
            {
              if k > 0 {
                assert kept[k] == Kept(rest)[k - 1];
                assert o.results[k] == o1.results[k - 1];
              }
            }
          }
        }
      }
    }
  }

  /**
   * A line that fails ends the script there: the results and operations are
   * those of the lines before it, then whatever the failing line sent, and the
   * error is that line's exception.
   */
  lemma FailingLineAborts(d: Device, wait: string -> Reply<string>, hist: seq<Op>, prog: seq<Instr>, k: nat)
    requires k < |prog|
    requires Steps(d, wait, hist, prog[..k]).error.None?
    requires Perform(d, wait, hist + Steps(d, wait, hist, prog[..k]).sent, prog[k]).error.Some?
    ensures var before := Steps(d, wait, hist, prog[..k]);
      var e := Perform(d, wait, hist + before.sent, prog[k]);
      Steps(d, wait, hist, prog) == Outcome(before.results, before.sent + e.sent, e.error)
  {
    var before := Steps(d, wait, hist, prog[..k]);
    assert prog == prog[..k] + prog[k..];
    StepsAppend(d, wait, hist, prog[..k], prog[k..]);
    assert prog[k..][0] == prog[k];
    assert before.results + [] == before.results;
  }

  /** A coordinate that `int()` rejects ends the script at that line, with `int()`'s message and nothing sent for it. */
  lemma InvalidLineAborts(d: Device, wait: string -> Reply<string>, hist: seq<Op>, prog: seq<Instr>, k: nat)
    requires k < |prog| && prog[k].Invalid?
    requires Steps(d, wait, hist, prog[..k]).error.None?
    ensures var before := Steps(d, wait, hist, prog[..k]);
      Steps(d, wait, hist, prog) == Outcome(before.results, before.sent, Some(prog[k].message))
  {
    var before := Steps(d, wait, hist, prog[..k]);
    FailingLineAborts(d, wait, hist, prog, k);
    assert before.sent + [] == before.sent;
  }

  /** A `wait` whose `float()` or `time.sleep` raises ends the script at that line with that exception. */
  lemma WaitFailureAborts(d: Device, wait: string -> Reply<string>, hist: seq<Op>, prog: seq<Instr>, k: nat)
    requires k < |prog| && prog[k].Wait? && wait(prog[k].seconds).Raised?
    requires Steps(d, wait, hist, prog[..k]).error.None?
    ensures var before := Steps(d, wait, hist, prog[..k]);
      Steps(d, wait, hist, prog) == Outcome(before.results, before.sent, Some(wait(prog[k].seconds).message))
  {
    var before := Steps(d, wait, hist, prog[..k]);
    FailingLineAborts(d, wait, hist, prog, k);
    assert before.sent + [] == before.sent;
  }

  /** When a coordinate is rejected, `run_ui_test` returns its failure text alone, with no result lines. */
  lemma InvalidLineFailsTool(devices: seq<Device>, id: Option<string>, steps: string, wait: string -> Reply<string>, k: nat)
    requires Resolve(devices, id).Ok?
    requires k < |ScriptLines(steps)| && Parse(ScriptLines(steps)[k]).Invalid?
    requires Steps(Resolve(devices, id).value, wait, [], Instrs(ScriptLines(steps))[..k]).error.None?
    ensures UiTestRun(devices, id, steps, wait).output == Failure(UiTestLabel, Parse(ScriptLines(steps)[k]).message)
  {
    var prog := Instrs(ScriptLines(steps));
    InstrsAt(ScriptLines(steps), k);
    InvalidLineAborts(Resolve(devices, id).value, wait, [], prog, k);
  }

  // ---------------------------------------------------------------- properties of the parser

  /** A line whose first token does not start a comment is parsed from the tokens of its stripped text. */
  lemma ParseOfTokens(raw: string)
    requires SplitWs(Strip(raw)) != [] && SplitWs(Strip(raw))[0][0] != '#'
    ensures Parse(raw) == ParseWords(Strip(raw), SplitWs(Strip(raw)))
  {
    var line := Strip(raw);
    assert line != [];
    SplitWsFirst(line);
  }

  /** A command word, in whatever case, does not start a comment. */
  lemma KeywordNotComment(w: string)
    requires KeywordOf(w) != OtherWord
    ensures w != [] && w[0] != '#'
  {
    var l := Lower(w);
    assert l != [] && l[0] != '#';
    assert l[0] == LowerChar(w[0]);
  }

  /** The seven command words, in lower case. */
  const CommandNames := ["tap", "swipe", "text", "wait", "press", "home", "back"]

  /**
   * The command words are recognised whatever their case: a word has the
   * keyword of its lower-cased form, and it is a command word exactly when that
   * form is one of the seven names.
   */
  lemma CommandWords(w: string)
    ensures KeywordOf(Lower(w)) == KeywordOf(w)
    ensures KeywordOf(w) != OtherWord <==> Lower(w) in CommandNames
  {
    LowerIdempotent(w);
  }

  /** Some spellings: the keyword ignores case, and other words are not commands. */
  lemma CommandWordExamples()
    ensures KeywordOf("tap") == TapWord && KeywordOf("TAP") == TapWord
    ensures KeywordOf("swipe") == SwipeWord && KeywordOf("text") == TextWord
    ensures KeywordOf("HOME") == HomeWord && KeywordOf("Back") == BackWord
    ensures KeywordOf("foo") == OtherWord
  {
    assert Lower("tap") == "tap";
    assert Lower("TAP") == "tap";
    assert Lower("swipe") == "swipe";
    assert Lower("text") == "text";
    assert Lower("HOME") == "home";
    assert Lower("Back") == "back";
    assert Lower("foo") == "foo";
  }

  /** `tap x y ...`, once split: the first two arguments are the point; further tokens are ignored. */
  lemma TapWords(line: string, kw: string, tx: string, ty: string, extra: seq<string>)
    requires KeywordOf(kw) == TapWord
    ensures ParseWords(line, [kw, tx, ty] + extra) == TapOf(tx, ty)
  {
    var args := ([kw, tx, ty] + extra)[1..];
    assert args[0] == tx && args[1] == ty;
  }

  /**
   * `tap x y`: two tokens that `int()` accepts tap the point they denote, and
   * tokens after them are ignored; a coordinate that `int()` rejects makes the
   * line fail with `int()`'s message.
   */
  lemma ParseTap(raw: string, kw: string, tx: string, ty: string, extra: seq<string>)
    requires SplitWs(Strip(raw)) == [kw, tx, ty] + extra && KeywordOf(kw) == TapWord
    ensures ParseInt(tx).Some? && ParseInt(ty).Some? ==> Parse(raw) == Tap(ParseInt(tx).value, ParseInt(ty).value)
    ensures ParseInt(tx).None? ==> Parse(raw) == Invalid(IntError(tx))
    ensures ParseInt(tx).Some? && ParseInt(ty).None? ==> Parse(raw) == Invalid(IntError(ty))
  {
    KeywordNotComment(kw);
    ParseOfTokens(raw);
    TapWords(Strip(raw), kw, tx, ty, extra);
  }

  /** A tap with fewer than two coordinates, once split, is unrecognised. */
  lemma TapShortWords(line: string, kw: string, args: seq<string>)
    requires KeywordOf(kw) == TapWord && |args| < 2
    ensures ParseWords(line, [kw] + args) == Unrecognised(line)
  {
  }

  /** `tap` with fewer than two coordinates is reported as unrecognised, with the stripped line, and the script goes on. */
  lemma ParseTapTooShort(raw: string, kw: string, args: seq<string>)
    requires SplitWs(Strip(raw)) == [kw] + args && KeywordOf(kw) == TapWord && |args| < 2
    ensures Parse(raw) == Unrecognised(Strip(raw))
  {
    KeywordNotComment(kw);
    ParseOfTokens(raw);
    TapShortWords(Strip(raw), kw, args);
  }

  /** A swipe of at least five tokens, once split: four coordinates, then the duration, 300 ms when absent. */
  lemma SwipeWords(line: string, kw: string, t1: string, t2: string, t3: string, t4: string, rest: seq<string>)
    requires KeywordOf(kw) == SwipeWord
    ensures ParseWords(line, [kw, t1, t2, t3, t4] + rest) == SwipeOf(t1, t2, t3, t4, if rest == [] then "300" else rest[0])
  {
    var args := ([kw, t1, t2, t3, t4] + rest)[1..];
    assert args[0] == t1 && args[1] == t2 && args[2] == t3 && args[3] == t4;
    assert |args| == 4 + |rest|;
    if rest != [] {
      assert args[4] == rest[0];
    }
  }

  /** `swipe x1 y1 x2 y2 [duration]`: four coordinates, then the duration token, which defaults to 300 ms. */
  lemma ParseSwipe(raw: string, kw: string, t1: string, t2: string, t3: string, t4: string, rest: seq<string>,
                   x1: int, y1: int, x2: int, y2: int)
    requires SplitWs(Strip(raw)) == [kw, t1, t2, t3, t4] + rest && KeywordOf(kw) == SwipeWord
    requires ParseInt(t1) == Some(x1) && ParseInt(t2) == Some(y1) && ParseInt(t3) == Some(x2) && ParseInt(t4) == Some(y2)
    ensures Parse(raw) == Swipe(x1, y1, x2, y2, if rest == [] then "300" else rest[0])
  {
    KeywordNotComment(kw);
    ParseOfTokens(raw);
    SwipeWords(Strip(raw), kw, t1, t2, t3, t4, rest);
  }

  /** `home` and `back`, once split: any further tokens are ignored. */
  lemma KeyWords(line: string, kw: string, args: seq<string>)
    ensures KeywordOf(kw) == HomeWord ==> ParseWords(line, [kw] + args) == Home
    ensures KeywordOf(kw) == BackWord ==> ParseWords(line, [kw] + args) == Back
  {
  }

  /** `home` takes no arguments, is recognised in any case, and sends key event 3. */
  lemma ParseHome(raw: string, kw: string, args: seq<string>)
    requires SplitWs(Strip(raw)) == [kw] + args && KeywordOf(kw) == HomeWord
    ensures Parse(raw) == Home
  {
    KeywordNotComment(kw);
    ParseOfTokens(raw);
    KeyWords(Strip(raw), kw, args);
  }

  /** `back` takes no arguments, is recognised in any case, and sends key event 4. */
  lemma ParseBack(raw: string, kw: string, args: seq<string>)
    requires SplitWs(Strip(raw)) == [kw] + args && KeywordOf(kw) == BackWord
    ensures Parse(raw) == Back
  {
    KeywordNotComment(kw);
    ParseOfTokens(raw);
    KeyWords(Strip(raw), kw, args);
  }

  /**
   * The keyword is compared after lower-casing: token lists whose first words
   * fold alike and whose arguments agree give the same instruction, unless the
   * line is unrecognised (the report then quotes each line as written).
   */
  lemma KeywordIgnoresCase(l1: string, l2: string, w1: seq<string>, w2: seq<string>)
    requires |w1| > 0 && |w2| > 0 && w1[1..] == w2[1..] && Lower(w1[0]) == Lower(w2[0])
    ensures ParseWords(l1, w1).Unrecognised? == ParseWords(l2, w2).Unrecognised?
    ensures !ParseWords(l1, w1).Unrecognised? ==> ParseWords(l1, w1) == ParseWords(l2, w2)
  {
    assert KeywordOf(w1[0]) == KeywordOf(w2[0]);
  }

  /** A `text` line, once split: its tokens rejoined, then one pair of enclosing quotes removed. */
  lemma TextWords(line: string, kw: string, words: seq<string>)
    requires KeywordOf(kw) == TextWord && |words| > 0
    ensures ParseWords(line, [kw] + words) == TypeText(Dequote(Join(words, " ")))
  {
    var parts := [kw] + words;
    assert parts[0] == kw && parts[1..] == words;
    assert KeywordOf(parts[0]) == TextWord && |parts[1..]| >= 1;
    assert ParseWords(line, parts) == TypeText(Dequote(Join(parts[1..], " ")));
  }

  /** The `text` command: its tokens rejoined with single spaces, then one pair of enclosing quotes removed. */
  lemma ParseText(raw: string, kw: string, words: seq<string>)
    requires SplitWs(Strip(raw)) == [kw] + words && KeywordOf(kw) == TextWord && |words| > 0
    ensures Parse(raw) == TypeText(Dequote(Join(words, " ")))
  {
    KeywordNotComment(kw);
    ParseOfTokens(raw);
    TextWords(Strip(raw), kw, words);
  }

  /** Quotes at both ends are removed once; the text in between is kept exactly. */
  lemma DequoteQuoted(u: string)
    ensures Dequote("\"" + u + "\"") == u
  {
    var t := "\"" + u + "\"";
    assert t[..1] == "\"" && t[|t| - 1..] == "\"";
    assert t[1..|t| - 1] == u;
  }

  /**
   * The `text` command sends its text through the same escaping as `input_text`:
   * inside the quotes there is no space, and a text without quotes or spaces is
   * sent as it is.
   */
  lemma TextCommandEscapes(t: string)
    ensures CommandOf(TypeText(t)) == "input text '" + EscapeText(t) + "'"
    ensures ' ' !in EscapeText(t)
    ensures '\'' !in t && '"' !in t && ' ' !in t ==> CommandOf(TypeText(t)) == "input text '" + t + "'"
  {
    EscapeTextNoSpace(t);
    if '\'' !in t && '"' !in t && ' ' !in t {
      EscapeTextPlain(t);
    }
  }
}
