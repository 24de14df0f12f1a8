/**
 * `enhanced_start_app` from `advanced_tools.py`: a chain of launch strategies
 * tried in a fixed order until one succeeds. `monkey` comes first; then
 * `am start -n` on the activity the caller named, if any; then `am start -n`
 * on each candidate activity in list order, the candidates being eight fixed
 * names followed by the names found in the package's `dumpsys` text; last the
 * ACTION_MAIN intent. Success is judged on the shell output alone. Every
 * strategy writes lines to a running log, which the tool returns after a
 * success or a failure headline.
 */
module StartApp {
  import opened Common
  import opened Text
  import opened AdbServer

  // ---------------------------------------------------------------- success tests and commands

  /** How `monkey` success is judged: no "Error" and no "Exception" in the output. */
  predicate MonkeyOk(output: string) {
    !Contains(output, "Error") && !Contains(output, "Exception")
  }

  /** How `am start` success is judged: the `monkey` test, and no "Permission Denial" either. */
  predicate AmOk(output: string) {
    MonkeyOk(output) && !Contains(output, "Permission Denial")
  }

  function MonkeyCommand(pkg: string): string {
    "monkey -p " + pkg + " -c android.intent.category.LAUNCHER 1"
  }

  function AmStartCommand(pkg: string, activity: string): string {
    "am start -n " + pkg + "/" + activity
  }

  function DumpsysCommand(pkg: string): string {
    "dumpsys package " + pkg + " | grep -A 20 'Activity Resolver Table'"
  }

  const MainIntent := "-a android.intent.action.MAIN -c android.intent.category.LAUNCHER -n "

  function MainCommand(pkg: string): string {
    "am start " + MainIntent + pkg + "/.MainActivity"
  }

  // ---------------------------------------------------------------- candidate activities

  /** The endings of the eight activity names tried before any found in `dumpsys`. */
  const CandidateEndings := [".SplashActivity", ".MainActivity", ".StartActivity", ".LauncherActivity",
                             ".ui.SplashActivity", ".ui.MainActivity", ".activity.SplashActivity",
                             ".activity.MainActivity"]

  /** The eight fixed candidates: the package name followed by each ending, in order. */
  function FixedCandidates(pkg: string): (r: seq<string>)
    ensures |r| == |CandidateEndings|
    ensures forall k :: 0 <= k < |r| ==> r[k] == pkg + CandidateEndings[k]
  {
    seq(|CandidateEndings|, k requires 0 <= k < |CandidateEndings| => pkg + CandidateEndings[k])
  }

  /** A `dumpsys` line worth reading: it mentions the package and "filter". */
  predicate ListsActivities(pkg: string, line: string) {
    Contains(line, pkg) && Contains(line, "filter")
  }

  /** A token of such a line that names an activity: it mentions the package and holds a '/'. */
  predicate NamesActivity(pkg: string, part: string) {
    Contains(part, pkg) && '/' in part
  }

  /** `part.split('/')[1]`, with the package put in front of a name that starts with '.'. */
  function ActivityOf(pkg: string, part: string): string
    requires '/' in part
  {
    SplitOnHasSep(part, '/');
    var a := SplitOn(part, '/')[1];
    if StartsWith(a, ".") then pkg + a else a
  }

  /** The activity names of the tokens of one line, in order. */
  function PartActivities(pkg: string, parts: seq<string>): seq<string> {
    if parts == [] then []
    else
      var here := if NamesActivity(pkg, parts[0]) then [ActivityOf(pkg, parts[0])] else [];
      here + PartActivities(pkg, parts[1..])
  }

  /** The tokens of a `dumpsys` line, as `line.strip().split()` gives them. */
  function LineParts(line: string): seq<string> {
    SplitWs(Strip(line))
  }

  /** The activity names of the lines worth reading, in line order. */
  function LineActivities(pkg: string, lines: seq<string>): seq<string> {
    if lines == [] then []
    else
      var here := if ListsActivities(pkg, lines[0]) then PartActivities(pkg, LineParts(lines[0])) else [];
      here + LineActivities(pkg, lines[1..])
  }

  /** The activity names found in the `dumpsys` output. */
  function Discovered(pkg: string, output: string): seq<string> {
    LineActivities(pkg, SplitOn(output, '\n'))
  }

  /** The name after the first '/' of a token; a name that starts with '.' is relative to the package. */
  lemma ActivityOfSegment(pkg: string, p: string, a: string, rest: string)
    requires '/' !in p && '/' !in a && (rest == [] || rest[0] == '/')
    ensures ActivityOf(pkg, p + "/" + a + rest) == if StartsWith(a, ".") then pkg + a else a
  {
    var part := p + "/" + a + rest;
    assert part == p + ['/'] + (a + rest);
    SplitOnPiece(p, '/', a + rest);
    SplitOnHead(a, '/', rest);
  }

  lemma {:induction false} PartActivitiesAppend(pkg: string, a: seq<string>, b: seq<string>)
    ensures PartActivities(pkg, a + b) == PartActivities(pkg, a) + PartActivities(pkg, b)
    decreases |a|
  {
    if a == [] {
      assert a + b == b;
    } else {
      assert (a + b)[0] == a[0] && (a + b)[1..] == a[1..] + b;
      PartActivitiesAppend(pkg, a[1..], b);
      var h := if NamesActivity(pkg, a[0]) then [ActivityOf(pkg, a[0])] else [];
      ConcatAssoc(h, PartActivities(pkg, a[1..]), PartActivities(pkg, b));
    }
  }

  /** Lines are read independently: the names of two blocks of lines are the names of each, in order. */
  lemma {:induction false} LineActivitiesAppend(pkg: string, a: seq<string>, b: seq<string>)
    ensures LineActivities(pkg, a + b) == LineActivities(pkg, a) + LineActivities(pkg, b)
    decreases |a|
  {
    if a == [] {
      assert a + b == b;
    } else {
      assert (a + b)[0] == a[0] && (a + b)[1..] == a[1..] + b;
      LineActivitiesAppend(pkg, a[1..], b);
      var h := if ListsActivities(pkg, a[0]) then PartActivities(pkg, LineParts(a[0])) else [];
      ConcatAssoc(h, LineActivities(pkg, a[1..]), LineActivities(pkg, b));
    }
  }

  /** Empty `dumpsys` output adds no candidate. */
  lemma NothingDiscoveredInEmptyOutput(pkg: string)
    ensures Discovered(pkg, "") == []
  {
    var lines := SplitOn("", '\n');
    assert lines == [""];
    assert !Contains(lines[0], "filter");
    assert lines[1..] == [];
    assert LineActivities(pkg, lines[1..]) == [];
    assert LineActivities(pkg, lines) == [] + LineActivities(pkg, lines[1..]);
  }

  /** The activity names of one line's tokens (`for part in parts`). */
  method ExtractFromParts(pkg: string, parts: seq<string>) returns (found: seq<string>)
    ensures found == PartActivities(pkg, parts)
  {
    found := [];
    var j := 0;
    while j < |parts|
      invariant 0 <= j <= |parts|
      invariant found + PartActivities(pkg, parts[j..]) == PartActivities(pkg, parts)
    {
      assert parts[j..] == [parts[j]] + parts[j + 1..];
      PartActivitiesAppend(pkg, [parts[j]], parts[j + 1..]);
      assert PartActivities(pkg, [parts[j]]) == if NamesActivity(pkg, parts[j]) then [ActivityOf(pkg, parts[j])] else [] by {
        assert [parts[j]][1..] == [];
      }
      if NamesActivity(pkg, parts[j]) {
        var activity := ActivityOf(pkg, parts[j]);
        ConcatAssoc(found, [activity], PartActivities(pkg, parts[j + 1..]));
        found := found + [activity];
      }
      j := j + 1;
    }
    assert parts[j..] == [];
    assert found + [] == found;
  }

  /**
   * The candidate list: the fixed names, then (when the `dumpsys` output is not
   * empty) the names found in each line worth reading, in order.
   */
  method CollectCandidates(pkg: string, output: string) returns (candidates: seq<string>)
    ensures candidates == FixedCandidates(pkg) + Discovered(pkg, output)
  {
    var fixed := FixedCandidates(pkg);
    candidates := fixed;
    if output == "" {
      NothingDiscoveredInEmptyOutput(pkg);
      assert candidates + [] == candidates;
      return;
    }
    var lines := SplitOn(output, '\n');
    var i := 0;
    while i < |lines|
      invariant 0 <= i <= |lines|
      invariant candidates + LineActivities(pkg, lines[i..]) == fixed + LineActivities(pkg, lines)
    {
      assert lines[i..] == [lines[i]] + lines[i + 1..];
      LineActivitiesAppend(pkg, [lines[i]], lines[i + 1..]);
      var found: seq<string> := [];
      if ListsActivities(pkg, lines[i]) {
        found := ExtractFromParts(pkg, LineParts(lines[i]));
      }
      assert LineActivities(pkg, [lines[i]]) == found by {
        assert [lines[i]][1..] == [];
        assert found + [] == found;
      }
      ConcatAssoc(candidates, found, LineActivities(pkg, lines[i + 1..]));
      candidates := candidates + found;
      i := i + 1;
    }
    assert lines[i..] == [];
    assert candidates + [] == candidates;
  }

  // ---------------------------------------------------------------- trying the candidates

  /** `am start -n` on `activity` after the operations in `hist` answers without raising, and its output passes. */
  predicate Starts(d: Device, hist: seq<Op>, pkg: string, activity: string) {
    var reply := d.shell(hist, AmStartCommand(pkg, activity));
    reply.Ok? && AmOk(reply.value)
  }

  /** The `am start -n` commands for a list of activities, in order. */
  function AmStartOps(pkg: string, activities: seq<string>): (ops: seq<Op>)
    ensures |ops| == |activities|
    ensures forall k :: 0 <= k < |activities| ==> ops[k] == Shell(AmStartCommand(pkg, activities[k]))
  {
    if activities == [] then []
    else [Shell(AmStartCommand(pkg, activities[0]))] + AmStartOps(pkg, activities[1..])
  }

  /** The commands sent while trying the candidates, and the one that started, if one did. */
  datatype Attempts = Attempts(sent: seq<Op>, winner: Option<string>)

  /** The candidate loop after the operations in `hist`: an exception or a failing output moves on to the next. */
  function TryCandidates(d: Device, hist: seq<Op>, pkg: string, candidates: seq<string>): Attempts
    decreases |candidates|
  {
    if candidates == [] then Attempts([], None)
    else
      var op := Shell(AmStartCommand(pkg, candidates[0]));
      if Starts(d, hist, pkg, candidates[0]) then Attempts([op], Some(candidates[0]))
      else
        var rest := TryCandidates(d, hist + [op], pkg, candidates[1..]);
        Attempts([op] + rest.sent, rest.winner)
  }

  /** `for activity in common_activities: ... break`. */
  method TryAll(d: Device, hist: seq<Op>, pkg: string, candidates: seq<string>)
    returns (sent: seq<Op>, winner: Option<string>)
    ensures Attempts(sent, winner) == TryCandidates(d, hist, pkg, candidates)
  {
    sent := [];
    winner := None;
    var i := 0;
    assert hist + sent == hist && candidates[i..] == candidates;
    while i < |candidates|
      invariant 0 <= i <= |candidates|
      invariant TryCandidates(d, hist, pkg, candidates) ==
        var rest := TryCandidates(d, hist + sent, pkg, candidates[i..]);
        Attempts(sent + rest.sent, rest.winner)
    {
      assert candidates[i..][0] == candidates[i] && candidates[i..][1..] == candidates[i + 1..];
      var cmd := AmStartCommand(pkg, candidates[i]);
      var reply := d.shell(hist + sent, cmd);
      if reply.Ok? && AmOk(reply.value) {
        sent := sent + [Shell(cmd)];
        winner := Some(candidates[i]);
        break;
      }
      ghost var rest := TryCandidates(d, hist + sent + [Shell(cmd)], pkg, candidates[i + 1..]);
      ConcatAssoc(sent, [Shell(cmd)], rest.sent);
      ConcatAssoc(hist, sent, [Shell(cmd)]);
      sent := sent + [Shell(cmd)];
      i := i + 1;
    }
    if i == |candidates| {
      assert candidates[i..] == [];
      assert sent + [] == sent;
    }
  }

  /** The history before candidate `k + 1` is `hist`, the first command, and the commands before `k` in the tail. */
  lemma TriedPrefix(hist: seq<Op>, pkg: string, c: string, tail: seq<string>, k: nat)
    requires k <= |tail|
    ensures AmStartOps(pkg, ([c] + tail)[..k + 1]) == [Shell(AmStartCommand(pkg, c))] + AmStartOps(pkg, tail[..k])
    ensures hist + AmStartOps(pkg, ([c] + tail)[..k + 1])
         == (hist + [Shell(AmStartCommand(pkg, c))]) + AmStartOps(pkg, tail[..k])
  {
    assert ([c] + tail)[..k + 1] == [c] + tail[..k];
    assert ([c] + tail[..k])[1..] == tail[..k];
    ConcatAssoc(hist, [Shell(AmStartCommand(pkg, c))], AmStartOps(pkg, tail[..k]));
  }

  /** No candidate before the `j`-th starts, each tried after the commands for those before it. */
  predicate NoneStartBefore(d: Device, hist: seq<Op>, pkg: string, candidates: seq<string>, j: nat)
    requires j <= |candidates|
  {
    forall k :: 0 <= k < j ==> !Starts(d, hist + AmStartOps(pkg, candidates[..k]), pkg, candidates[k])
  }

  /** With no winner, every candidate was tried, in order, and none started. */
  lemma {:induction false} NoWinnerTriesAll(d: Device, hist: seq<Op>, pkg: string, candidates: seq<string>)
    requires TryCandidates(d, hist, pkg, candidates).winner.None?
    ensures TryCandidates(d, hist, pkg, candidates).sent == AmStartOps(pkg, candidates)
    ensures NoneStartBefore(d, hist, pkg, candidates, |candidates|)
    decreases |candidates|
  {
    if candidates != [] {
      var c := candidates[0];
      var tail := candidates[1..];
      assert candidates == [c] + tail;
      var h := hist + [Shell(AmStartCommand(pkg, c))];
      NoWinnerTriesAll(d, h, pkg, tail);
      assert candidates[..0] == [] && hist + [] == hist;
      forall k | 0 < k < |candidates|
        ensures !Starts(d, hist + AmStartOps(pkg, candidates[..k]), pkg, candidates[k])
      {
        TriedPrefix(hist, pkg, c, tail, k - 1);
        assert candidates[k] == tail[k - 1];
      }
    }
  }

  /** Candidate `j` is the first to start, and trying the candidates sends the commands up to it. */
  predicate WinsAt(d: Device, hist: seq<Op>, pkg: string, candidates: seq<string>, j: nat, a: Attempts)
  {
    && j < |candidates|
    && a == Attempts(AmStartOps(pkg, candidates[..j + 1]), Some(candidates[j]))
    && Starts(d, hist + AmStartOps(pkg, candidates[..j]), pkg, candidates[j])
    && NoneStartBefore(d, hist, pkg, candidates, j)
  }

  /**
   * The candidates are tried in list order and the first that starts wins: the
   * winner's command is the last one sent, and every candidate before it was
   * tried and failed.
   */
  lemma {:induction false} FirstStartWins(d: Device, hist: seq<Op>, pkg: string, candidates: seq<string>)
    requires TryCandidates(d, hist, pkg, candidates).winner.Some?
    ensures exists j :: WinsAt(d, hist, pkg, candidates, j, TryCandidates(d, hist, pkg, candidates))
    decreases |candidates|
  {
    var c := candidates[0];
    var tail := candidates[1..];
    assert candidates == [c] + tail;
    var op := Shell(AmStartCommand(pkg, c));
    assert candidates[..0] == [] && hist + [] == hist;
    if Starts(d, hist, pkg, c) {
      assert candidates[..1] == [c];
      assert AmStartOps(pkg, [c]) == [op];
      assert WinsAt(d, hist, pkg, candidates, 0, TryCandidates(d, hist, pkg, candidates));
    } else {
      var h := hist + [op];
      FirstStartWins(d, h, pkg, tail);
      var r := TryCandidates(d, h, pkg, tail);
      var j: nat :| WinsAt(d, h, pkg, tail, j, r);
      TriedPrefix(hist, pkg, c, tail, j + 1);
      TriedPrefix(hist, pkg, c, tail, j);
      assert candidates[j + 1] == tail[j];
      forall k | 0 <= k < j + 1
        ensures !Starts(d, hist + AmStartOps(pkg, candidates[..k]), pkg, candidates[k])
      {
        if k > 0 {
          TriedPrefix(hist, pkg, c, tail, k - 1);
          assert candidates[k] == tail[k - 1];
        }
      }
      assert WinsAt(d, hist, pkg, candidates, j + 1, TryCandidates(d, hist, pkg, candidates));
    }
  }

  // ---------------------------------------------------------------- the four strategies

  /** What one strategy adds: its log lines, whether it started the app, and the commands it sent. */
  datatype Step = Step(log: string, success: bool, sent: seq<Op>)

  /** A strategy that sends one command; `strict` adds the "Permission Denial" test of `am start`. */
  datatype Probe = Probe(command: string, strict: bool, intro: string, passed: string, failed: string, raised: string)

  predicate Passes(strict: bool, output: string) {
    if strict then AmOk(output) else MonkeyOk(output)
  }

  /** Run one probe after the operations in `hist`: an exception and a failing output are both logged. */
  function Launch(d: Device, hist: seq<Op>, p: Probe): Step {
    var reply := d.shell(hist, p.command);
    Step(p.intro + Report(p, reply), reply.Ok? && Passes(p.strict, reply.value), [Shell(p.command)])
  }

  /** The line a probe logs after its introduction. */
  function Report(p: Probe, reply: Reply<string>): string {
    match reply
    case Raised(m) => p.raised + m + "\n"
    case Ok(o) => if Passes(p.strict, o) then p.passed else p.failed + o + "\n"
  }

  function MonkeyProbe(pkg: string): Probe {
    Probe(MonkeyCommand(pkg), false, "尝试使用monkey命令启动应用...\n", "monkey命令成功!\n",
          "monkey命令失败: ", "monkey命令异常: ")
  }

  function DirectProbe(pkg: string, activity: string): Probe {
    Probe(AmStartCommand(pkg, activity), true, "尝试使用am start -n启动具体Activity: " + activity + "...\n",
          "am start -n命令成功!\n", "am start -n命令失败: ", "am start -n命令异常: ")
  }

  function MainProbe(pkg: string): Probe {
    Probe(MainCommand(pkg), true, "尝试使用ACTION_MAIN启动...\n", "ACTION_MAIN命令成功!\n",
          "ACTION_MAIN命令失败: ", "ACTION_MAIN命令异常: ")
  }

  const SearchIntro := "尝试查找可能的启动Activity...\n"
  const FoundInfo := "找到应用活动信息...\n"

  function SearchRaised(m: string): string {
    "查找启动Activity异常: " + m + "\n"
  }

  function Launched(activity: string): string {
    "成功启动活动: " + activity + "\n"
  }

  /** The third strategy: read the package's activities, then try every candidate in order. */
  function SearchStep(d: Device, hist: seq<Op>, pkg: string): Step {
    var op := Shell(DumpsysCommand(pkg));
    var reply := d.shell(hist, DumpsysCommand(pkg));
    var a := if reply.Ok? then TryCandidates(d, hist + [op], pkg, Candidates(pkg, reply.value)) else Attempts([], None);
    Step(SearchIntro + SearchReport(reply, a), a.winner.Some?, [op] + a.sent)
  }

  /** The fixed candidates, then those found in the `dumpsys` output. */
  function Candidates(pkg: string, output: string): seq<string> {
    FixedCandidates(pkg) + Discovered(pkg, output)
  }

  /** The lines the search logs after its introduction. */
  function SearchReport(reply: Reply<string>, a: Attempts): string {
    match reply
    case Raised(m) => SearchRaised(m)
    case Ok(out) =>
      (if out != "" then FoundInfo else "") + (if a.winner.Some? then Launched(a.winner.value) else "")
  }

  /** `b` run after `a`: the logs and the commands are concatenated, the outcome is `b`'s. */
  function Then(a: Step, b: Step): Step {
    Step(a.log + b.log, b.success, a.sent + b.sent)
  }

  const Skip := Step("", false, [])

  /** ACTION_MAIN, tried only when nothing before it has started the app. */
  function AfterSearch(d: Device, pkg: string, search: Step): Step {
    if search.success then search else Then(search, Launch(d, search.sent, MainProbe(pkg)))
  }

  /** The search, tried only when neither `monkey` nor the named activity started the app. */
  function AfterDirect(d: Device, pkg: string, direct: Step): Step {
    AfterSearch(d, pkg, if direct.success then direct else Then(direct, SearchStep(d, direct.sent, pkg)))
  }

  /** The named activity, tried only when it is given and `monkey` failed. */
  function AfterMonkey(d: Device, pkg: string, activity: Option<string>, monkey: Step): Step {
    if monkey.success then monkey
    else AfterDirect(d, pkg, Then(monkey, if Truthy(activity) then Launch(d, monkey.sent, DirectProbe(pkg, activity.value)) else Skip))
  }

  /** The strategies in order, each after the commands of those before it, until one starts the app. */
  function StartChain(d: Device, pkg: string, activity: Option<string>): Step {
    AfterMonkey(d, pkg, activity, Launch(d, [], MonkeyProbe(pkg)))
  }

  const StartLabel := "启动应用失败"

  function Started(pkg: string, log: string): string {
    "成功启动应用: " + pkg + "\n" + log
  }

  function GaveUp(pkg: string, log: string): string {
    "尝试所有方法后仍无法启动应用: " + pkg + "\n" + log
  }

  /** `enhanced_start_app`: the log of the strategies under a success or a failure headline. */
  function StartAppRun(devices: seq<Device>, id: Option<string>, pkg: string, activity: Option<string>): Run {
    match Resolve(devices, id)
    case Raised(m) => Run(Failure(StartLabel, m), [])
    case Ok(d) =>
      var s := StartChain(d, pkg, activity);
      Run(if s.success then Started(pkg, s.log) else GaveUp(pkg, s.log), s.sent)
  }

  // ---------------------------------------------------------------- the tool

  /** One strategy's `try` block: send the command, log what came back, say whether it passed. */
  method TryProbe(d: Device, hist: seq<Op>, p: Probe) returns (step: Step)
    ensures step == Launch(d, hist, p)
  {
    var log := p.intro;
    var reply := d.shell(hist, p.command);
    if reply.Raised? {
      log := log + (p.raised + reply.message + "\n");
      step := Step(log, false, [Shell(p.command)]);
    } else if Passes(p.strict, reply.value) {
      log := log + p.passed;
      step := Step(log, true, [Shell(p.command)]);
    } else {
      log := log + (p.failed + reply.value + "\n");
      step := Step(log, false, [Shell(p.command)]);
    }
  }

  /** The search strategy: read the package's activities, collect the candidates, try them in order. */
  method SearchPhase(d: Device, hist: seq<Op>, pkg: string) returns (step: Step)
    ensures step == SearchStep(d, hist, pkg)
  {
    var log := SearchIntro;
    var op := Shell(DumpsysCommand(pkg));
    var reply := d.shell(hist, DumpsysCommand(pkg));
    if reply.Raised? {
      log := log + SearchRaised(reply.message);
      return Step(log, false, [op]);
    }
    var out := reply.value;
    ghost var found := "";
    if out != "" {
      log := log + FoundInfo;
      found := FoundInfo;
    } else {
      assert log + "" == log;
    }
    var candidates := CollectCandidates(pkg, out);
    var tried, winner := TryAll(d, hist + [op], pkg, candidates);
    ghost var launched := "";
    if winner.Some? {
      log := log + Launched(winner.value);
      launched := Launched(winner.value);
    } else {
      assert log + "" == log;
    }
    ConcatAssoc(SearchIntro, found, launched);
    step := Step(log, winner.Some?, [op] + tried);
  }

  /**
   * The strategies after a failed `monkey`, each tried while nothing has
   * started: the named activity, the search, ACTION_MAIN. The running `result`
   * and `success` of the tool are the log and outcome of `chain`.
   */
  method Fallbacks(d: Device, pkg: string, activity: Option<string>, monkey: Step) returns (chain: Step)
    requires !monkey.success
    ensures chain == AfterMonkey(d, pkg, activity, monkey)
  {
    chain := monkey;
    if Truthy(activity) {
      var direct := TryProbe(d, chain.sent, DirectProbe(pkg, activity.value));
      chain := Then(chain, direct);
    } else {
      chain := Then(chain, Skip);
    }
    ghost var direct := chain;
    if !chain.success {
      var search := SearchPhase(d, chain.sent, pkg);
      chain := Then(chain, search);
    }
    assert AfterDirect(d, pkg, direct) == AfterSearch(d, pkg, chain);
    if !chain.success {
      var main := TryProbe(d, chain.sent, MainProbe(pkg));
      chain := Then(chain, main);
    }
  }

  /** `enhanced_start_app`: `monkey`, then the fallbacks, then the headline over the log. */
  method EnhancedStartApp(devices: seq<Device>, id: Option<string>, pkg: string, activity: Option<string>)
    returns (output: string, sent: seq<Op>)
    ensures Run(output, sent) == StartAppRun(devices, id, pkg, activity)
  {
    var r := GetDevice(devices, id);
    if r.Raised? {
      return Failure(StartLabel, r.message), [];
    }
    var d := r.value;
    var chain := TryProbe(d, [], MonkeyProbe(pkg));
    if !chain.success {
      chain := Fallbacks(d, pkg, activity, chain);
    }
    output := if chain.success then Started(pkg, chain.log) else GaveUp(pkg, chain.log);
    sent := chain.sent;
  }

  // ---------------------------------------------------------------- properties of the tool

  const MonkeyOnly := "尝试使用monkey命令启动应用...\n" + "monkey命令成功!\n"

  /** `monkey` is always the first command, and when it passes nothing else is sent. */
  lemma MonkeyFirst(devices: seq<Device>, id: Option<string>, pkg: string, activity: Option<string>)
    requires Resolve(devices, id).Ok?
    ensures var run := StartAppRun(devices, id, pkg, activity);
      run.sent != [] && run.sent[0] == Shell(MonkeyCommand(pkg))
    ensures var reply := Resolve(devices, id).value.shell([], MonkeyCommand(pkg));
      reply.Ok? && MonkeyOk(reply.value) ==>
        StartAppRun(devices, id, pkg, activity) == Run(Started(pkg, MonkeyOnly), [Shell(MonkeyCommand(pkg))])
  {
    var d := Resolve(devices, id).value;
    var monkey := Launch(d, [], MonkeyProbe(pkg));
    if !monkey.success {
      var chain := AfterMonkey(d, pkg, activity, monkey);
      FallbacksExtend(d, pkg, activity, monkey);
      assert chain.sent[0] == monkey.sent[0];
    }
  }

  /** After a failed `monkey`, the chain's commands start with `monkey`'s and continue with at least one more. */
  lemma FallbacksExtend(d: Device, pkg: string, activity: Option<string>, monkey: Step)
    requires !monkey.success
    ensures var chain := AfterMonkey(d, pkg, activity, monkey);
      |chain.sent| > |monkey.sent| && chain.sent[..|monkey.sent|] == monkey.sent
  {
    var next := if Truthy(activity) then Launch(d, monkey.sent, DirectProbe(pkg, activity.value)) else Skip;
    var direct := Then(monkey, next);
    ThenPrefix(monkey, next);
    PrefixKept(d, pkg, direct);
    var chain := AfterDirect(d, pkg, direct);
    assert chain.sent[..|monkey.sent|] == chain.sent[..|direct.sent|][..|monkey.sent|];
    if !Truthy(activity) {
      var search := Then(direct, SearchStep(d, direct.sent, pkg));
      PrefixKeptAfterSearch(d, pkg, search);
    }
  }

  lemma ThenPrefix(a: Step, b: Step)
    ensures |Then(a, b).sent| == |a.sent| + |b.sent| && Then(a, b).sent[..|a.sent|] == a.sent
  {
    assert (a.sent + b.sent)[..|a.sent|] == a.sent;
  }

  /**
   * After a failed `monkey`, the second command is `am start -n` on the named
   * activity when one is given, and the `dumpsys` query otherwise.
   */
  lemma NamedActivitySecond(devices: seq<Device>, id: Option<string>, pkg: string, activity: Option<string>)
    requires Resolve(devices, id).Ok?
    requires var reply := Resolve(devices, id).value.shell([], MonkeyCommand(pkg));
      !(reply.Ok? && MonkeyOk(reply.value))
    ensures var run := StartAppRun(devices, id, pkg, activity);
      && |run.sent| >= 2
      && run.sent[1] == if Truthy(activity) then Shell(AmStartCommand(pkg, activity.value)) else Shell(DumpsysCommand(pkg))
  {
    var d := Resolve(devices, id).value;
    var monkey := Launch(d, [], MonkeyProbe(pkg));
    if Truthy(activity) {
      DirectSecond(d, pkg, monkey, activity.value);
    } else {
      SearchSecond(d, pkg, monkey);
    }
  }

  lemma DirectSecond(d: Device, pkg: string, monkey: Step, activity: string)
    requires monkey.sent == [Shell(MonkeyCommand(pkg))]
    ensures var chain := AfterDirect(d, pkg, Then(monkey, Launch(d, monkey.sent, DirectProbe(pkg, activity))));
      |chain.sent| >= 2 && chain.sent[1] == Shell(AmStartCommand(pkg, activity))
  {
    var direct := Then(monkey, Launch(d, monkey.sent, DirectProbe(pkg, activity)));
    assert direct.sent == [Shell(MonkeyCommand(pkg)), Shell(AmStartCommand(pkg, activity))];
    PrefixKept(d, pkg, direct);
    assert AfterDirect(d, pkg, direct).sent[1] == AfterDirect(d, pkg, direct).sent[..2][1];
  }

  lemma SearchSecond(d: Device, pkg: string, monkey: Step)
    requires monkey.sent == [Shell(MonkeyCommand(pkg))]
    ensures var chain := AfterDirect(d, pkg, Then(monkey, Skip));
      |chain.sent| >= 2 && chain.sent[1] == Shell(DumpsysCommand(pkg))
  {
    var direct := Then(monkey, Skip);
    assert direct.sent == [Shell(MonkeyCommand(pkg))];
    var search := Then(direct, SearchStep(d, direct.sent, pkg));
    assert search.sent[1] == Shell(DumpsysCommand(pkg));
    PrefixKeptAfterSearch(d, pkg, search);
    assert AfterSearch(d, pkg, search).sent[1] == AfterSearch(d, pkg, search).sent[..|search.sent|][1];
  }

  /** Whatever happens after `direct`, its commands stay a prefix of the chain's. */
  lemma PrefixKept(d: Device, pkg: string, direct: Step)
    ensures var chain := AfterDirect(d, pkg, direct);
      |chain.sent| >= |direct.sent| && chain.sent[..|direct.sent|] == direct.sent
  {
    var search := if direct.success then direct else Then(direct, SearchStep(d, direct.sent, pkg));
    assert search.sent[..|direct.sent|] == direct.sent;
    PrefixKeptAfterSearch(d, pkg, search);
    var chain := AfterSearch(d, pkg, search);
    assert chain.sent[..|search.sent|] == search.sent;
    assert chain.sent[..|direct.sent|] == chain.sent[..|search.sent|][..|direct.sent|];
  }

  /** ACTION_MAIN, when it is tried, only appends to the commands before it. */
  lemma PrefixKeptAfterSearch(d: Device, pkg: string, search: Step)
    ensures var chain := AfterSearch(d, pkg, search);
      |chain.sent| >= |search.sent| && chain.sent[..|search.sent|] == search.sent
  {
    if !search.success {
      assert (search.sent + [Shell(MainCommand(pkg))])[..|search.sent|] == search.sent;
    }
  }

  /** The last command passed its test: the `monkey` test for `monkey`, the `am start` test for any other. */
  predicate LastPassed(d: Device, pkg: string, sent: seq<Op>) {
    && sent != []
    && var op := sent[|sent| - 1];
    && op.Shell?
    && var reply := d.shell(sent[..|sent| - 1], op.command);
    && reply.Ok?
    && (if op.command == MonkeyCommand(pkg) then MonkeyOk(reply.value) else AmOk(reply.value))
  }

  /** A one-command strategy succeeds exactly when its command passed its test. */
  lemma LaunchPassed(d: Device, hist: seq<Op>, pkg: string, p: Probe)
    requires (p.command == MonkeyCommand(pkg)) == !p.strict
    ensures Launch(d, hist, p).success <==> LastPassed(d, pkg, hist + Launch(d, hist, p).sent)
  {
    var sent := hist + [Shell(p.command)];
    assert sent[..|sent| - 1] == hist;
  }

  /** The commands differ from the first letter on. */
  lemma CommandsDiffer(pkg: string, activity: string)
    ensures AmStartCommand(pkg, activity) != MonkeyCommand(pkg)
    ensures MainCommand(pkg) != MonkeyCommand(pkg)
  {
    assert AmStartCommand(pkg, activity)[0] == 'a';
    assert MainCommand(pkg)[0] == 'a';
    assert MonkeyCommand(pkg)[0] == 'm';
  }

  /** A candidate loop with a winner ends with the winner's command, which passed the `am start` test. */
  lemma WinnerPassed(d: Device, h: seq<Op>, pkg: string, candidates: seq<string>)
    requires TryCandidates(d, h, pkg, candidates).winner.Some?
    ensures LastPassed(d, pkg, h + TryCandidates(d, h, pkg, candidates).sent)
  {
    var a := TryCandidates(d, h, pkg, candidates);
    FirstStartWins(d, h, pkg, candidates);
    var j: nat :| WinsAt(d, h, pkg, candidates, j, a);
    var before := AmStartOps(pkg, candidates[..j]);
    var last := Shell(AmStartCommand(pkg, candidates[j]));
    assert candidates[..j + 1] == candidates[..j] + [candidates[j]];
    assert AmStartOps(pkg, candidates[..j + 1]) == before + [last];
    ConcatAssoc(h, before, [last]);
    assert (h + before + [last])[..|h + before|] == h + before;
    CommandsDiffer(pkg, candidates[j]);
  }

  /** A search that starts the app ends with the winner's command, which passed the `am start` test. */
  lemma SearchPassed(d: Device, hist: seq<Op>, pkg: string)
    requires SearchStep(d, hist, pkg).success
    ensures LastPassed(d, pkg, hist + SearchStep(d, hist, pkg).sent)
  {
    var op := Shell(DumpsysCommand(pkg));
    var candidates := Candidates(pkg, d.shell(hist, DumpsysCommand(pkg)).value);
    var a := TryCandidates(d, hist + [op], pkg, candidates);
    WinnerPassed(d, hist + [op], pkg, candidates);
    ConcatAssoc(hist, [op], a.sent);
  }

  /**
   * The tool reports that the app started exactly when the last command it
   * sent passed its test: a success always ends the chain, and a chain that
   * ends without one ends with the failed ACTION_MAIN.
   */
  lemma SuccessIffLastPassed(devices: seq<Device>, id: Option<string>, pkg: string, activity: Option<string>)
    requires Resolve(devices, id).Ok?
    ensures var run := StartAppRun(devices, id, pkg, activity);
      StartsWith(run.output, StartedHeadline) <==> LastPassed(Resolve(devices, id).value, pkg, run.sent)
  {
    var d := Resolve(devices, id).value;
    var chain := StartChain(d, pkg, activity);
    ChainPassed(d, pkg, activity);
    HeadlinesDiffer(pkg, chain.log);
  }

  const StartedHeadline := "成功启动应用: "

  lemma HeadlinesDiffer(pkg: string, log: string)
    ensures StartsWith(Started(pkg, log), StartedHeadline)
    ensures !StartsWith(GaveUp(pkg, log), StartedHeadline)
  {
    assert Started(pkg, log) == StartedHeadline + (pkg + "\n" + log);
    assert GaveUp(pkg, log)[0] != StartedHeadline[0];
  }

  /** The chain succeeds exactly when the last command it sent passed its test. */
  lemma ChainPassed(d: Device, pkg: string, activity: Option<string>)
    ensures StartChain(d, pkg, activity).success <==> LastPassed(d, pkg, StartChain(d, pkg, activity).sent)
  {
    var monkey := Launch(d, [], MonkeyProbe(pkg));
    LaunchPassed(d, [], pkg, MonkeyProbe(pkg));
    assert [] + monkey.sent == monkey.sent;
    if !monkey.success {
      var direct := Then(monkey, if Truthy(activity) then Launch(d, monkey.sent, DirectProbe(pkg, activity.value)) else Skip);
      if Truthy(activity) {
        CommandsDiffer(pkg, activity.value);
        LaunchPassed(d, monkey.sent, pkg, DirectProbe(pkg, activity.value));
      }
      if !direct.success {
        var search := Then(direct, SearchStep(d, direct.sent, pkg));
        if search.success {
          SearchPassed(d, direct.sent, pkg);
        } else {
          CommandsDiffer(pkg, "");
          LaunchPassed(d, search.sent, pkg, MainProbe(pkg));
        }
      }
    }
  }

  // ---------------------------------------------------------------- the order of the strategies

  /** The commands before the search: `monkey`, then `am start -n` on the named activity when one is given. */
  function FirstCommands(pkg: string, activity: Option<string>): seq<Op> {
    [Shell(MonkeyCommand(pkg))] + (if Truthy(activity) then [Shell(AmStartCommand(pkg, activity.value))] else [])
  }

  /** The step of the strategies before the search, when `monkey` failed. */
  function BeforeSearch(d: Device, pkg: string, activity: Option<string>): Step {
    var monkey := Launch(d, [], MonkeyProbe(pkg));
    Then(monkey, if Truthy(activity) then Launch(d, monkey.sent, DirectProbe(pkg, activity.value)) else Skip)
  }

  lemma BeforeSearchSent(d: Device, pkg: string, activity: Option<string>)
    ensures BeforeSearch(d, pkg, activity).sent == FirstCommands(pkg, activity)
  {
    if !Truthy(activity) {
      assert [Shell(MonkeyCommand(pkg))] + [] == [Shell(MonkeyCommand(pkg))];
    }
  }

  /** A search that starts nothing sends the `dumpsys` query, then every candidate's `am start -n` when the query answered. */
  lemma SearchTrace(d: Device, hist: seq<Op>, pkg: string)
    requires !SearchStep(d, hist, pkg).success
    ensures var reply := d.shell(hist, DumpsysCommand(pkg));
      SearchStep(d, hist, pkg).sent
        == [Shell(DumpsysCommand(pkg))] + (if reply.Ok? then AmStartOps(pkg, Candidates(pkg, reply.value)) else [])
  {
    var reply := d.shell(hist, DumpsysCommand(pkg));
    if reply.Ok? {
      NoWinnerTriesAll(d, hist + [Shell(DumpsysCommand(pkg))], pkg, Candidates(pkg, reply.value));
    }
  }

  /**
   * A chain that starts nothing tries every strategy once, in order: `monkey`,
   * the named activity when one is given, the `dumpsys` query, each candidate
   * in list order when the query answered, and ACTION_MAIN last.
   */
  lemma ChainTrace(d: Device, pkg: string, activity: Option<string>)
    requires !StartChain(d, pkg, activity).success
    ensures var pre := FirstCommands(pkg, activity);
      var reply := d.shell(pre, DumpsysCommand(pkg));
      StartChain(d, pkg, activity).sent
        == pre + [Shell(DumpsysCommand(pkg))]
           + (if reply.Ok? then AmStartOps(pkg, Candidates(pkg, reply.value)) else [])
           + [Shell(MainCommand(pkg))]
  {
    var pre := FirstCommands(pkg, activity);
    var direct := BeforeSearch(d, pkg, activity);
    BeforeSearchSent(d, pkg, activity);
    var s := SearchStep(d, pre, pkg);
    var search := Then(direct, s);
    assert !s.success;
    SearchTrace(d, pre, pkg);
    var reply := d.shell(pre, DumpsysCommand(pkg));
    var tried := if reply.Ok? then AmStartOps(pkg, Candidates(pkg, reply.value)) else [];
    assert search.sent == pre + ([Shell(DumpsysCommand(pkg))] + tried);
    ConcatAssoc(pre, [Shell(DumpsysCommand(pkg))], tried);
  }

  /** A named activity that starts ends the chain: only `monkey` and its `am start -n` are sent. */
  lemma ChainStopsAtNamedActivity(d: Device, pkg: string, activity: Option<string>)
    requires !Launch(d, [], MonkeyProbe(pkg)).success && Truthy(activity)
    requires Starts(d, [Shell(MonkeyCommand(pkg))], pkg, activity.value)
    ensures StartChain(d, pkg, activity).success
    ensures StartChain(d, pkg, activity).sent == FirstCommands(pkg, activity)
  {
    BeforeSearchSent(d, pkg, activity);
  }

  /**
   * A candidate that starts ends the chain: after the first commands and the
   * `dumpsys` query come the candidate attempts up to the winner, and
   * ACTION_MAIN is not sent.
   */
  lemma ChainStopsAtCandidate(d: Device, pkg: string, activity: Option<string>)
    requires !Launch(d, [], MonkeyProbe(pkg)).success && !BeforeSearch(d, pkg, activity).success
    requires d.shell(FirstCommands(pkg, activity), DumpsysCommand(pkg)).Ok?
    requires var hist := FirstCommands(pkg, activity) + [Shell(DumpsysCommand(pkg))];
      TryCandidates(d, hist, pkg, Candidates(pkg, d.shell(FirstCommands(pkg, activity), DumpsysCommand(pkg)).value)).winner.Some?
    ensures var pre := FirstCommands(pkg, activity);
      var a := TryCandidates(d, pre + [Shell(DumpsysCommand(pkg))], pkg,
                             Candidates(pkg, d.shell(pre, DumpsysCommand(pkg)).value));
      && StartChain(d, pkg, activity).success
      && StartChain(d, pkg, activity).sent == pre + [Shell(DumpsysCommand(pkg))] + a.sent
  {
    var pre := FirstCommands(pkg, activity);
    var op := Shell(DumpsysCommand(pkg));
    BeforeSearchSent(d, pkg, activity);
    var a := TryCandidates(d, pre + [op], pkg, Candidates(pkg, d.shell(pre, DumpsysCommand(pkg)).value));
    var s := SearchStep(d, pre, pkg);
    assert s.success && s.sent == [op] + a.sent;
    assert StartChain(d, pkg, activity) == Then(BeforeSearch(d, pkg, activity), s);
    ConcatAssoc(pre, [op], a.sent);
  }
}
