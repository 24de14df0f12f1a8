/**
 * The straight-line tools of `advanced_tools.py` whose results can be stated:
 * the UI dump and the device log, each cut at `Limit` characters (the dump
 * keeps its head, the log its tail), and the tap on the element that shows a
 * given text, which taps the centre of the element's bounds.
 *
 * Reading a pulled file as text is the parameter `decode`; the regular
 * expression search in the UI dump is the oracle `find`; the pause of
 * `collect_device_logs` is `Sleep`, whose non-negative lengths are the oracle
 * `sleep`.
 */
module AdvancedTools {
  import opened Common
  import opened Text
  import opened AdbServer

  // ---------------------------------------------------------------- dump_ui_hierarchy

  const DumpPath := "/sdcard/ui_hierarchy.xml"
  const DumpCommand := "uiautomator dump " + DumpPath
  const RemoveDumpCommand := "rm " + DumpPath
  const DumpMarker := "...\n[UI层次结构太长，只显示前面部分]"
  const DumpLabel := "获取UI层次结构失败"

  /** `dump_ui_hierarchy`: dump the UI on the device, pull the file, remove it, read it, keep its head. */
  function DumpUiHierarchy(devices: seq<Device>, id: Option<string>, decode: seq<byte> -> string): Run {
    match Resolve(devices, id)
    case Raised(m) => Run(Failure(DumpLabel, m), [])
    case Ok(d) =>
      var op1 := Shell(DumpCommand);
      match d.shell([], DumpCommand)
      case Raised(m) => Run(Failure(DumpLabel, m), [op1])
      case Ok(_) =>
        var op2 := Pull(DumpPath);
        match d.pull([op1], DumpPath)
        case Raised(m) => Run(Failure(DumpLabel, m), [op1, op2])
        case Ok(bytes) =>
          var op3 := Shell(RemoveDumpCommand);
          match d.shell([op1, op2], RemoveDumpCommand)
          case Raised(m) => Run(Failure(DumpLabel, m), [op1, op2, op3])
          case Ok(_) => Run(KeepHead(decode(bytes), DumpMarker), [op1, op2, op3])
  }

  /**
   * A dump whose three device steps succeed is sent as dump, pull, remove, and
   * comes back whole when it has at most `Limit` characters, and as its first
   * `Limit` characters plus the marker otherwise.
   */
  lemma DumpUiHierarchyTruncates(devices: seq<Device>, id: Option<string>, decode: seq<byte> -> string)
    requires Resolve(devices, id).Ok?
    requires var d := Resolve(devices, id).value;
      && d.shell([], DumpCommand).Ok?
      && d.pull([Shell(DumpCommand)], DumpPath).Ok?
      && d.shell([Shell(DumpCommand), Pull(DumpPath)], RemoveDumpCommand).Ok?
    ensures var d := Resolve(devices, id).value;
      var content := decode(d.pull([Shell(DumpCommand)], DumpPath).value);
      var run := DumpUiHierarchy(devices, id, decode);
      && run.sent == [Shell(DumpCommand), Pull(DumpPath), Shell(RemoveDumpCommand)]
      && (|content| <= Limit ==> run.output == content)
      && (|content| > Limit ==>
            StartsWith(run.output, content[..Limit]) && EndsWith(run.output, DumpMarker)
            && |run.output| == Limit + |DumpMarker|)
  {
    var d := Resolve(devices, id).value;
    KeepHeadSpec(decode(d.pull([Shell(DumpCommand)], DumpPath).value), DumpMarker);
  }

  // ---------------------------------------------------------------- collect_device_logs

  const ClearLogCommand := "logcat -c"
  const ReadLogCommand := "logcat -d -v threadtime"
  const LogMarker := "...\n[日志太长，只显示最后部分]\n"
  const LogLabel := "收集设备日志失败"

  const NegativeSleepMessage := "sleep length must be non-negative"

  /**
   * `time.sleep(duration)`: a negative length raises the `ValueError` above;
   * any other length is the oracle `sleep`, which may raise too (an
   * `OverflowError` for a length too large for the clock).
   */
  function Sleep(sleep: int -> Reply<()>, duration: int): Reply<()> {
    if duration < 0 then Raised(NegativeSleepMessage) else sleep(duration)
  }

  /** `collect_device_logs`: clear the log, wait `duration` seconds, read the log, keep its tail. */
  function CollectDeviceLogs(devices: seq<Device>, id: Option<string>, duration: int, sleep: int -> Reply<()>): Run {
    match Resolve(devices, id)
    case Raised(m) => Run(Failure(LogLabel, m), [])
    case Ok(d) =>
      var op1 := Shell(ClearLogCommand);
      match d.shell([], ClearLogCommand)
      case Raised(m) => Run(Failure(LogLabel, m), [op1])
      case Ok(_) =>
        match Sleep(sleep, duration)
        case Raised(m) => Run(Failure(LogLabel, m), [op1])
        case Ok(_) =>
          var op2 := Shell(ReadLogCommand);
          match d.shell([op1], ReadLogCommand)
          case Raised(m) => Run(Failure(LogLabel, m), [op1, op2])
          case Ok(logs) => Run(KeepTail(logs, LogMarker), [op1, op2])
  }

  /**
   * The log is cleared before the wait and read after it. A wait that raises
   * (a negative `duration` among others) ends the tool with the caption and
   * the message, after the clearing alone. Otherwise a log of at most `Limit`
   * characters comes back whole, a longer one as the marker followed by its
   * last `Limit` characters, and a read that raises gives the caption.
   */
  lemma CollectDeviceLogsTruncates(devices: seq<Device>, id: Option<string>, duration: int, sleep: int -> Reply<()>)
    requires Resolve(devices, id).Ok?
    requires Resolve(devices, id).value.shell([], ClearLogCommand).Ok?
    ensures var run := CollectDeviceLogs(devices, id, duration, sleep);
      duration < 0 ==>
        run == Run(Failure(LogLabel, NegativeSleepMessage), [Shell(ClearLogCommand)])
    ensures var run := CollectDeviceLogs(devices, id, duration, sleep);
      Sleep(sleep, duration).Raised? ==>
        run == Run(Failure(LogLabel, Sleep(sleep, duration).message), [Shell(ClearLogCommand)])
    ensures var d := Resolve(devices, id).value;
      var read := d.shell([Shell(ClearLogCommand)], ReadLogCommand);
      var run := CollectDeviceLogs(devices, id, duration, sleep);
      Sleep(sleep, duration).Ok? && read.Raised? ==>
        run == Run(Failure(LogLabel, read.message), [Shell(ClearLogCommand), Shell(ReadLogCommand)])
    ensures var d := Resolve(devices, id).value;
      var read := d.shell([Shell(ClearLogCommand)], ReadLogCommand);
      var run := CollectDeviceLogs(devices, id, duration, sleep);
      Sleep(sleep, duration).Ok? && read.Ok? ==>
        && run.sent == [Shell(ClearLogCommand), Shell(ReadLogCommand)]
        && (|read.value| <= Limit ==> run.output == read.value)
        && (|read.value| > Limit ==>
              StartsWith(run.output, LogMarker) && EndsWith(run.output, read.value[|read.value| - Limit..])
              && |run.output| == |LogMarker| + Limit)
  {
    var d := Resolve(devices, id).value;
    var read := d.shell([Shell(ClearLogCommand)], ReadLogCommand);
    if Sleep(sleep, duration).Ok? && read.Ok? {
      KeepTailSpec(read.value, LogMarker);
    }
  }

  // ---------------------------------------------------------------- tap_element_by_text

  /** The four numbers of `bounds="[x1,y1][x2,y2]"`: digit strings, so never negative. */
  datatype Bounds = Bounds(x1: nat, y1: nat, x2: nat, y2: nat)

  /** `(a + b) // 2`: the point halfway between two coordinates, rounded down. */
  function Midpoint(a: nat, b: nat): (m: nat)
    ensures a <= b ==> a <= m <= b
    ensures b <= a ==> b <= m <= a
    ensures 2 * m <= a + b <= 2 * m + 1
  {
    (a + b) / 2
  }

  const TapTextLabel := "点击文本元素失败"
  const CatDumpCommand := "cat " + DumpPath

  function TypeTextCommand(text: string): string {
    "input text '" + EscapeQuotes(text) + "'"
  }

  function CentreTapCommand(b: Bounds): string {
    "input tap " + IntToString(Midpoint(b.x1, b.x2)) + " " + IntToString(Midpoint(b.y1, b.y2))
  }

  function TappedMessage(text: string, b: Bounds): string {
    "已点击文本为 '" + text + "' 的元素，坐标: (" + IntToString(Midpoint(b.x1, b.x2)) + ", "
      + IntToString(Midpoint(b.y1, b.y2)) + ")"
  }

  function NotFoundText(text: string): string {
    "未找到包含文本 '" + text + "' 的元素"
  }

  function TriedMessage(text: string): string {
    "已尝试点击文本为 '" + text + "' 的元素"
  }

  /**
   * `tap_element_by_text`: type the text with its quotes escaped; when the answer
   * mentions "error" in any case, dump the UI, read and remove the dump, look the
   * element up with `find` and tap the centre of its bounds.
   */
  function TapElementByText(devices: seq<Device>, id: Option<string>, text: string,
                            find: (string, string) -> Option<Bounds>): Run {
    match Resolve(devices, id)
    case Raised(m) => Run(Failure(TapTextLabel, m), [])
    case Ok(d) =>
      var op1 := Shell(TypeTextCommand(text));
      match d.shell([], op1.command)
      case Raised(m) => Run(Failure(TapTextLabel, m), [op1])
      case Ok(answer) =>
        if !Contains(Lower(answer), "error") then Run(TriedMessage(text), [op1])
        else
          var op2 := Shell(DumpCommand);
          match d.shell([op1], DumpCommand)
          case Raised(m) => Run(Failure(TapTextLabel, m), [op1, op2])
          case Ok(_) =>
            var op3 := Shell(CatDumpCommand);
            match d.shell([op1, op2], CatDumpCommand)
            case Raised(m) => Run(Failure(TapTextLabel, m), [op1, op2, op3])
            case Ok(content) =>
              var op4 := Shell(RemoveDumpCommand);
              match d.shell([op1, op2, op3], RemoveDumpCommand)
              case Raised(m) => Run(Failure(TapTextLabel, m), [op1, op2, op3, op4])
              case Ok(_) =>
                match find(text, content)
                case None => Run(NotFoundText(text), [op1, op2, op3, op4])
                case Some(b) =>
                  var op5 := Shell(CentreTapCommand(b));
                  match d.shell([op1, op2, op3, op4], op5.command)
                  case Raised(m) => Run(Failure(TapTextLabel, m), [op1, op2, op3, op4, op5])
                  case Ok(_) => Run(TappedMessage(text, b), [op1, op2, op3, op4, op5])
  }

  /** Typing the text is always the first command, and an answer without "error" ends the tool there. */
  lemma TapElementTypesFirst(devices: seq<Device>, id: Option<string>, text: string,
                             find: (string, string) -> Option<Bounds>)
    requires Resolve(devices, id).Ok?
    ensures var run := TapElementByText(devices, id, text, find);
      run.sent != [] && run.sent[0] == Shell(TypeTextCommand(text))
    ensures var reply := Resolve(devices, id).value.shell([], TypeTextCommand(text));
      reply.Ok? && !Contains(Lower(reply.value), "error") ==>
        TapElementByText(devices, id, text, find) == Run(TriedMessage(text), [Shell(TypeTextCommand(text))])
  {
  }

  /**
   * When typing answers with "error", and dumping, reading and removing the dump
   * all answer, and `find` locates bounds `b` in the dump it read, the tool
   * taps the centre of `b` as its fifth command (each coordinate lies between
   * the two edges, by `Midpoint`) and reports that point, or its caption with
   * the tap's exception.
   */
  lemma TapElementTapsCentre(devices: seq<Device>, id: Option<string>, text: string,
                             find: (string, string) -> Option<Bounds>, b: Bounds)
    requires Resolve(devices, id).Ok?
    requires var d := Resolve(devices, id).value;
      var op1 := Shell(TypeTextCommand(text));
      var typed := d.shell([], TypeTextCommand(text));
      var content := d.shell([op1, Shell(DumpCommand)], CatDumpCommand);
      && typed.Ok? && Contains(Lower(typed.value), "error")
      && d.shell([op1], DumpCommand).Ok?
      && content.Ok?
      && d.shell([op1, Shell(DumpCommand), Shell(CatDumpCommand)], RemoveDumpCommand).Ok?
      && find(text, content.value) == Some(b)
    ensures var d := Resolve(devices, id).value;
      var ops := [Shell(TypeTextCommand(text)), Shell(DumpCommand), Shell(CatDumpCommand), Shell(RemoveDumpCommand)];
      var tap := d.shell(ops, CentreTapCommand(b));
      var run := TapElementByText(devices, id, text, find);
      && run.sent == ops + [Shell(CentreTapCommand(b))]
      && (tap.Ok? ==> run.output == TappedMessage(text, b))
      && (tap.Raised? ==> run.output == Failure(TapTextLabel, tap.message))
  {
  }
}
