/**
 * The core of `adb_server.py`: device resolution, the shell-text escaping used
 * before `input text`, output truncation, and the tools whose results are
 * assembled from several device calls (device listing, device information,
 * package listing, multi-point taps, bug reports).
 *
 * A device is an oracle. Each of its operations takes the history of the
 * operations already sent to that device during the current tool call, and the
 * new request, and answers with a value or with the message of the exception it
 * raised. Every tool model returns the text the tool returns together with the
 * trace of operations it sent.
 */
module AdbServer {
  import opened Common
  import opened Text

  // ---------------------------------------------------------------- devices

  /** One operation sent to a device. */
  datatype Op =
    | Shell(command: string)
    | Pull(remote: string)
    | Push(content: string, remote: string)

  /** The answer to one device operation: a value, or the text of the exception it raised. */
  datatype Reply<T> = Ok(value: T) | Raised(message: string)

  /** A connected device: its serial and its three primitive operations. */
  datatype Device = Device(
    serial: string,
    shell: (seq<Op>, string) -> Reply<string>,
    pull: (seq<Op>, string) -> Reply<seq<byte>>,
    push: (seq<Op>, string, string) -> Reply<()>)

  /** What a tool returns, and the operations it sent to the resolved device. */
  datatype Run = Run(output: string, sent: seq<Op>)

  /** A tool's failure text: its own caption, ": ", and the exception message. */
  function Failure(caption: string, message: string): string {
    caption + ": " + message
  }

  const NoDevicesMessage := "未找到连接的设备"

  function NotFoundMessage(id: string): string {
    "未找到指定的设备: " + id
  }

  /** Python truthiness of the optional device id: neither `None` nor `""`. */
  predicate Truthy(id: Option<string>) {
    id.Some? && id.value != ""
  }

  /** The index of the first device whose serial is `serial`, or `|devices|` if none is. */
  function FindSerial(devices: seq<Device>, serial: string): (i: nat)
    ensures i <= |devices|
    ensures i < |devices| ==> devices[i].serial == serial
    ensures forall k :: 0 <= k < i ==> devices[k].serial != serial
  {
    if devices == [] then 0
    else if devices[0].serial == serial then 0
    else FindSerial(devices[1..], serial) + 1
  }

  /** `get_device` as a function of the live device list. */
  function Resolve(devices: seq<Device>, id: Option<string>): Reply<Device> {
    if devices == [] then Raised(NoDevicesMessage)
    else if Truthy(id) then
      var i := FindSerial(devices, id.value);
      if i < |devices| then Ok(devices[i]) else Raised(NotFoundMessage(id.value))
    else Ok(devices[0])
  }

  /** `get_device`: a linear search with an early return. */
  method GetDevice(devices: seq<Device>, id: Option<string>) returns (r: Reply<Device>)
    ensures r == Resolve(devices, id)
  {
    if |devices| == 0 {
      return Raised(NoDevicesMessage);
    }
    if Truthy(id) {
      var i := 0;
      while i < |devices|
        invariant 0 <= i <= |devices|
        invariant forall k :: 0 <= k < i ==> devices[k].serial != id.value
      {
        if devices[i].serial == id.value {
          return Ok(devices[i]);
        }
        i := i + 1;
      }
      return Raised(NotFoundMessage(id.value));
    }
    return Ok(devices[0]);
  }

  /** An empty device list fails with the same message whatever id is asked for. */
  lemma ResolveEmpty(id: Option<string>)
    ensures Resolve([], id) == Raised(NoDevicesMessage)
  {
  }

  /** Without a (truthy) id the first listed device is chosen. */
  lemma ResolveDefault(devices: seq<Device>, id: Option<string>)
    requires devices != [] && !Truthy(id)
    ensures Resolve(devices, id) == Ok(devices[0])
  {
  }

  /**
   * With a truthy id: resolution succeeds exactly when some device has that
   * serial, then yields the first such device in list order; otherwise it fails
   * with a message that names the id.
   */
  lemma ResolveById(devices: seq<Device>, id: Option<string>)
    requires devices != [] && Truthy(id)
    ensures Resolve(devices, id).Ok? <==> exists k :: 0 <= k < |devices| && devices[k].serial == id.value
    ensures Resolve(devices, id).Ok? ==>
      exists k :: 0 <= k < |devices| && Resolve(devices, id) == Ok(devices[k])
        && devices[k].serial == id.value
        && forall j :: 0 <= j < k ==> devices[j].serial != id.value
    ensures Resolve(devices, id).Raised? ==> Resolve(devices, id) == Raised(NotFoundMessage(id.value))
  {
    var i := FindSerial(devices, id.value);
    if i < |devices| {
      assert Resolve(devices, id) == Ok(devices[i]);
    }
  }

  // ---------------------------------------------------------------- escaping

  /** The escaping of `input_text` and of the `text` script command, as written: three replacements in this order. */
  function EscapeText(t: string): string {
    Replace(Replace(Replace(t, "'", "\\'"), "\"", "\\\""), " ", "%s")
  }

  /** The escaping of `tap_element_by_text`: the two quote replacements only. */
  function EscapeQuotes(t: string): string {
    Replace(Replace(t, "'", "\\'"), "\"", "\\\"")
  }

  /** What one character becomes under `EscapeText`. */
  function EscapeChar(c: char): string {
    if c == '\'' then "\\'" else if c == '"' then "\\\"" else if c == ' ' then "%s" else [c]
  }

  /** Character-by-character escaping: the reference for `EscapeText`. */
  function EscapeEach(t: string): string {
    if t == [] then [] else EscapeChar(t[0]) + EscapeEach(t[1..])
  }

  lemma EscapeOneChar(c: char)
    ensures EscapeText([c]) == EscapeChar(c)
  {
    var s1 := Replace([c], "'", "\\'");
    var s2 := Replace(s1, "\"", "\\\"");
    if c == '\'' {
      assert s1 == "\\'";
      assert s2 == "\\'" by { ReplaceAbsent(s1, '"', "\\\""); }
      ReplaceAbsent(s2, ' ', "%s");
    } else if c == '"' {
      ReplaceAbsent([c], '\'', "\\'");
      assert s2 == "\\\"";
      ReplaceAbsent(s2, ' ', "%s");
    } else if c == ' ' {
      ReplaceAbsent([c], '\'', "\\'");
      ReplaceAbsent([c], '"', "\\\"");
      assert Replace([c], " ", "%s") == "%s";
    } else {
      ReplaceAbsent([c], '\'', "\\'");
      ReplaceAbsent([c], '"', "\\\"");
      ReplaceAbsent([c], ' ', "%s");
    }
  }

  /**
   * The three whole-string replacements act character by character: no
   * replacement creates text that a later one rewrites.
   */
  lemma {:induction false} EscapeTextIsPerChar(t: string)
    ensures EscapeText(t) == EscapeEach(t)
  {
    if t != [] {
      var c, u := t[0], t[1..];
      assert t == [c] + u;
      ReplaceConcat([c], u, '\'', "\\'");
      ReplaceConcat(Replace([c], "'", "\\'"), Replace(u, "'", "\\'"), '"', "\\\"");
      ReplaceConcat(Replace(Replace([c], "'", "\\'"), "\"", "\\\""),
        Replace(Replace(u, "'", "\\'"), "\"", "\\\""), ' ', "%s");
      assert EscapeText(t) == EscapeText([c]) + EscapeText(u);
      EscapeOneChar(c);
      EscapeTextIsPerChar(u);
    }
  }

  lemma {:induction false} EscapeEachNoSpace(t: string)
    ensures ' ' !in EscapeEach(t)
  {
    if t != [] {
      EscapeEachNoSpace(t[1..]);
    }
  }

  /** The escaped text holds no space, so it stays one word for `input text`. */
  lemma EscapeTextNoSpace(t: string)
    ensures ' ' !in EscapeText(t)
  {
    EscapeTextIsPerChar(t);
    EscapeEachNoSpace(t);
  }

  lemma {:induction false} EscapeEachPlain(t: string)
    requires '\'' !in t && '"' !in t && ' ' !in t
    ensures EscapeEach(t) == t
  {
    if t != [] {
      var u := t[1..];
      assert t[0] in t;
      assert '\'' !in u && '"' !in u && ' ' !in u by {
        assert forall k :: 0 <= k < |u| ==> u[k] == t[k + 1];
      }
      EscapeEachPlain(u);
      assert EscapeChar(t[0]) == [t[0]];
      assert [t[0]] + u == t;
    }
  }

  /** Text with no quote and no space is sent unchanged. */
  lemma EscapeTextPlain(t: string)
    requires '\'' !in t && '"' !in t && ' ' !in t
    ensures EscapeText(t) == t
  {
    EscapeTextIsPerChar(t);
    EscapeEachPlain(t);
  }

  /** Reading an escaped text back: each escape sequence gives its character. */
  function Unescape(s: string): string
    decreases |s|
  {
    if |s| >= 2 && s[0] == '\\' && (s[1] == '\'' || s[1] == '"') then [s[1]] + Unescape(s[2..])
    else if |s| >= 2 && s[0] == '%' && s[1] == 's' then " " + Unescape(s[2..])
    else if s == [] then []
    else [s[0]] + Unescape(s[1..])
  }

  /** The first character of an escaped non-empty text is the first character of its first escape. */
  lemma EscapeEachHead(u: string)
    requires u != []
    ensures EscapeEach(u) != [] && EscapeEach(u)[0] == EscapeChar(u[0])[0]
  {
    assert EscapeEach(u) == EscapeChar(u[0]) + EscapeEach(u[1..]);
  }

  /** Reading back one escape followed by the escaping of the rest, when they cannot run together. */
  lemma UnescapeStep(c: char, rest: string)
    requires c == '\\' ==> rest == [] || (rest[0] != '\'' && rest[0] != '"')
    requires c == '%' ==> rest == [] || rest[0] != 's'
    ensures Unescape(EscapeChar(c) + rest) == [c] + Unescape(rest)
  {
    if c == '\'' || c == '"' {
      assert (['\\', c] + rest)[2..] == rest;
    } else if c == ' ' {
      assert (['%', 's'] + rest)[2..] == rest;
    } else {
      assert ([c] + rest)[1..] == rest;
    }
  }

  lemma {:induction false} UnescapeEach(t: string)
    requires !Contains(t, "%s")
    ensures Unescape(EscapeEach(t)) == t
  {
    if t != [] {
      var c, u := t[0], t[1..];
      assert !Contains(u, "%s");
      UnescapeEach(u);
      var rest := EscapeEach(u);
      if u != [] {
        EscapeEachHead(u);
        if c == '%' {
          assert !StartsWith(t, "%s");
          assert t[..2] == [c, u[0]];
        }
      }
      UnescapeStep(c, rest);
      assert t == [c] + u;
    }
  }

  /** Escaping loses nothing on a text that does not itself hold `%s`. */
  lemma EscapeRoundTrip(t: string)
    requires !Contains(t, "%s")
    ensures Unescape(EscapeText(t)) == t
  {
    EscapeTextIsPerChar(t);
    UnescapeEach(t);
  }

  /** The side condition cannot be dropped: a space and a literal `%s` are sent alike. */
  lemma EscapeConflatesPercentS()
    ensures EscapeText(" ") == EscapeText("%s") == "%s"
  {
    EscapeOneChar(' ');
    EscapeTextIsPerChar("%s");
    assert EscapeEach("%s") == "%s" by {
      assert EscapeEach("%s") == EscapeChar('%') + EscapeEach("s");
      assert EscapeEach("s") == EscapeChar('s') + EscapeEach("");
    }
  }

  /** A space survives the replacement of any other character. */
  lemma SpaceSurvivesReplace(t: string, c: char, r: string)
    requires c != ' ' && ' ' in t
    ensures ' ' in Replace(t, [c], r)
  {
    var i :| 0 <= i < |t| && t[i] == ' ';
    var a, b := t[..i], t[i + 1..];
    assert t == a + ([t[i]] + b);
    ReplaceConcat(a, [t[i]] + b, c, r);
    ReplaceConcat([t[i]], b, c, r);
    ReplaceAbsent([t[i]], c, r);
    var ra := Replace(a, [c], r);
    assert Replace(t, [c], r) == ra + ([' '] + Replace(b, [c], r));
    assert Replace(t, [c], r)[|ra|] == ' ';
  }

  /** Unlike `input_text`, `tap_element_by_text` sends the spaces of its text as they are. */
  lemma EscapeQuotesKeepsSpaces(t: string)
    requires ' ' in t
    ensures ' ' in EscapeQuotes(t)
  {
    SpaceSurvivesReplace(t, '\'', "\\'");
    SpaceSurvivesReplace(Replace(t, "'", "\\'"), '"', "\\\"");
  }

  /** `tap_element_by_text` leaves spaces alone; otherwise it escapes as `input_text` does. */
  lemma EscapeTextAddsSpaceStep(t: string)
    ensures EscapeText(t) == Replace(EscapeQuotes(t), " ", "%s")
  {
  }

  // ---------------------------------------------------------------- truncation

  /** The length, in characters, above which long outputs are cut. */
  const Limit := 10000

  /** Keep the first `Limit` characters and append `marker`, when the text is longer than `Limit`. */
  function KeepHead(s: string, marker: string): string {
    if |s| > Limit then s[..Limit] + marker else s
  }

  /** Keep the last `Limit` characters after a leading `marker`, when the text is longer than `Limit`. */
  function KeepTail(s: string, marker: string): string {
    if |s| > Limit then marker + s[|s| - Limit..] else s
  }

  /** Head truncation: short text is untouched; long text keeps exactly its first `Limit` characters, then the marker. */
  lemma KeepHeadSpec(s: string, marker: string)
    ensures |s| <= Limit ==> KeepHead(s, marker) == s
    ensures |s| > Limit ==>
      |KeepHead(s, marker)| == Limit + |marker|
      && StartsWith(KeepHead(s, marker), s[..Limit])
      && EndsWith(KeepHead(s, marker), marker)
  {
    if |s| > Limit {
      var r := KeepHead(s, marker);
      assert r[..Limit] == s[..Limit];
      assert r[|r| - |marker|..] == marker;
    }
  }

  /** Tail truncation: short text is untouched; long text is the marker, then exactly its last `Limit` characters. */
  lemma KeepTailSpec(s: string, marker: string)
    ensures |s| <= Limit ==> KeepTail(s, marker) == s
    ensures |s| > Limit ==>
      |KeepTail(s, marker)| == Limit + |marker|
      && StartsWith(KeepTail(s, marker), marker)
      && EndsWith(KeepTail(s, marker), s[|s| - Limit..])
  {
    if |s| > Limit {
      var r := KeepTail(s, marker);
      assert r[..|marker|] == marker;
      assert r[|r| - Limit..] == s[|s| - Limit..];
    }
  }

  /** Truncating an already truncated result changes nothing. */
  lemma KeepHeadIdempotent(s: string, marker: string)
    ensures KeepHead(KeepHead(s, marker), marker) == KeepHead(s, marker)
  {
    if |s| > Limit {
      var r := KeepHead(s, marker);
      assert r[..Limit] == s[..Limit];
    }
  }

  lemma KeepTailIdempotent(s: string, marker: string)
    ensures KeepTail(KeepTail(s, marker), marker) == KeepTail(s, marker)
  {
    if |s| > Limit {
      var r := KeepTail(s, marker);
      assert r[|r| - Limit..] == s[|s| - Limit..];
    }
  }

  // ---------------------------------------------------------------- input_text

  const InputTextLabel := "输入文本失败"

  /** The command `input_text` sends for `text`. */
  function InputTextCommand(text: string): string {
    "input text '" + EscapeText(text) + "'"
  }

  /** `input_text`. */
  function InputText(devices: seq<Device>, id: Option<string>, text: string): Run {
    match Resolve(devices, id)
    case Raised(m) => Run(Failure(InputTextLabel, m), [])
    case Ok(d) =>
      var cmd := InputTextCommand(text);
      match d.shell([], cmd)
      case Raised(m) => Run(Failure(InputTextLabel, m), [Shell(cmd)])
      case Ok(_) => Run("成功输入文本: " + text, [Shell(cmd)])
  }

  /**
   * `input_text` sends one command, the escaped text inside single quotes, and
   * never lets a failure escape: it reports success when the shell answered, and
   * its own caption with the exception's message otherwise.
   */
  lemma InputTextSpec(devices: seq<Device>, id: Option<string>, text: string)
    ensures var run := InputText(devices, id, text);
      && (Resolve(devices, id).Raised? <==> run.sent == [])
      && (run.sent != [] ==> run.sent == [Shell(InputTextCommand(text))] && ' ' !in EscapeText(text))
      && (Resolve(devices, id).Raised? ==> run.output == Failure(InputTextLabel, Resolve(devices, id).message))
      && (Resolve(devices, id).Ok? ==>
            var reply := Resolve(devices, id).value.shell([], InputTextCommand(text));
            && (reply.Ok? ==> run.output == "成功输入文本: " + text)
            && (reply.Raised? ==> run.output == Failure(InputTextLabel, reply.message)))
  {
    EscapeTextNoSpace(text);
  }

  // ---------------------------------------------------------------- list_installed_packages

  /** `[line.replace("package:", "").strip() for line in lines if line]`. */
  function CleanPackageLines(lines: seq<string>): seq<string> {
    if lines == [] then []
    else
      var entry := if lines[0] != "" then [Strip(Replace(lines[0], "package:", ""))] else [];
      entry + CleanPackageLines(lines[1..])
  }

  /** The non-empty lines, in order. */
  function NonEmpty(lines: seq<string>): seq<string> {
    if lines == [] then [] else (if lines[0] != "" then [lines[0]] else []) + NonEmpty(lines[1..])
  }

  /** One entry per non-empty line, in order, each the line without "package:" and stripped. */
  lemma {:induction false} CleanPackageLinesSpec(lines: seq<string>)
    ensures |CleanPackageLines(lines)| == |NonEmpty(lines)|
    ensures forall k :: 0 <= k < |NonEmpty(lines)| ==>
      CleanPackageLines(lines)[k] == Strip(Replace(NonEmpty(lines)[k], "package:", ""))
  {
    if lines != [] {
      CleanPackageLinesSpec(lines[1..]);
    }
  }

  /** The package names of `pm list packages` output. */
  function PackageNames(output: string): seq<string> {
    CleanPackageLines(SplitLines(output))
  }

  const PackagesLabel := "获取应用列表失败"
  const PackagesCommand := "pm list packages"

  /** `list_installed_packages`. */
  function ListInstalledPackages(devices: seq<Device>, id: Option<string>): Run {
    match Resolve(devices, id)
    case Raised(m) => Run(Failure(PackagesLabel, m), [])
    case Ok(d) =>
      var cmd := PackagesCommand;
      match d.shell([], cmd)
      case Raised(m) => Run(Failure(PackagesLabel, m), [Shell(cmd)])
      case Ok(out) => Run(Join(PackageNames(out), "\n"), [Shell(cmd)])
  }

  /** A name `pm` can print: one line, no surrounding whitespace, no "package:" inside. */
  predicate PlainPackageName(p: string) {
    NoLineBreak(p) && !Contains(p, "package:") && (p != [] ==> !IsSpace(p[0]) && !IsSpace(p[|p| - 1]))
  }

  /** The lines `pm list packages` prints for these names. */
  function Prefixed(names: seq<string>): (lines: seq<string>)
    ensures |lines| == |names| && forall k :: 0 <= k < |names| ==> lines[k] == "package:" + names[k]
  {
    if names == [] then [] else ["package:" + names[0]] + Prefixed(names[1..])
  }

  lemma {:induction false} ReplaceNoOccurrence(p: string, pat: string, rep: string)
    requires |pat| > 0 && !Contains(p, pat)
    ensures Replace(p, pat, rep) == p
    decreases |p|
  {
    if p != [] {
      ReplaceNoOccurrence(p[1..], pat, rep);
      assert [p[0]] + p[1..] == p;
    }
  }

  lemma CleanPrefixed(p: string)
    requires PlainPackageName(p)
    ensures Strip(Replace("package:" + p, "package:", "")) == p
  {
    var line := "package:" + p;
    assert line[..|"package:"|] == "package:";
    assert line[|"package:"|..] == p;
    assert Replace(line, "package:", "") == Replace(p, "package:", "");
    ReplaceNoOccurrence(p, "package:", "");
    NoEdgeSpaceStrip(p);
  }

  lemma CleanPackageLinesCons(line: string, rest: seq<string>)
    requires line != ""
    ensures CleanPackageLines([line] + rest) == [Strip(Replace(line, "package:", ""))] + CleanPackageLines(rest)
  {
    assert ([line] + rest)[0] == line && ([line] + rest)[1..] == rest;
  }

  lemma CleanListingStep(name: string, tail: seq<string>)
    requires PlainPackageName(name) && CleanPackageLines(Prefixed(tail)) == tail
    ensures CleanPackageLines(Prefixed([name] + tail)) == [name] + tail
  {
    var head := "package:" + name;
    assert ([name] + tail)[0] == name && ([name] + tail)[1..] == tail;
    assert Prefixed([name] + tail) == [head] + Prefixed(tail);
    assert |head| == 8 + |name|;
    CleanPrefixed(name);
    CleanPackageLinesCons(head, Prefixed(tail));
  }

  lemma {:induction false} CleanListing(names: seq<string>)
    requires forall k :: 0 <= k < |names| ==> PlainPackageName(names[k])
    ensures CleanPackageLines(Prefixed(names)) == names
  {
    if names != [] {
      var tail := names[1..];
      forall k | 0 <= k < |tail|
        ensures PlainPackageName(tail[k])
      {
        assert tail[k] == names[k + 1];
      }
      CleanListing(tail);
      CleanListingStep(names[0], tail);
      assert [names[0]] + tail == names;
    }
  }

  lemma PrefixedNoBreak(p: string)
    requires NoLineBreak(p)
    ensures NoLineBreak("package:" + p)
  {
    var line := "package:" + p;
    forall k | 0 <= k < |line| ensures !IsLineBreak(line[k]) {
      if k >= 8 { assert line[k] == p[k - 8]; }
    }
  }

  /** A well-formed `pm list packages` listing yields exactly the listed names, one per line. */
  lemma PackageNamesOfListing(names: seq<string>)
    requires forall k :: 0 <= k < |names| ==> PlainPackageName(names[k])
    ensures PackageNames(Unlines(Prefixed(names))) == names
  {
    var lines := Prefixed(names);
    forall k | 0 <= k < |lines| ensures NoLineBreak(lines[k]) {
      PrefixedNoBreak(names[k]);
    }
    SplitLinesUnlines(lines);
    CleanListing(names);
  }

  /**
   * `list_installed_packages` sends one `pm list packages` to the resolved
   * device and answers with the cleaned names, one per line, or with its caption
   * and the exception's message.
   */
  lemma ListInstalledPackagesSpec(devices: seq<Device>, id: Option<string>)
    ensures var run := ListInstalledPackages(devices, id);
      && (Resolve(devices, id).Raised? ==> run == Run(Failure(PackagesLabel, Resolve(devices, id).message), []))
      && (Resolve(devices, id).Ok? ==>
            var reply := Resolve(devices, id).value.shell([], PackagesCommand);
            && run.sent == [Shell(PackagesCommand)]
            && (reply.Raised? ==> run.output == Failure(PackagesLabel, reply.message))
            && (reply.Ok? ==> run.output == Join(PackageNames(reply.value), "\n")))
  {
  }

  /** When the device prints a well-formed listing, the tool answers with exactly the listed names, one per line. */
  lemma ListInstalledPackagesNames(devices: seq<Device>, id: Option<string>, names: seq<string>)
    requires forall k :: 0 <= k < |names| ==> PlainPackageName(names[k])
    requires Resolve(devices, id).Ok?
    requires Resolve(devices, id).value.shell([], PackagesCommand) == Ok(Unlines(Prefixed(names)))
    ensures ListInstalledPackages(devices, id) == Run(Join(names, "\n"), [Shell(PackagesCommand)])
  {
    PackageNamesOfListing(names);
  }

  // ---------------------------------------------------------------- multi_tap

  /**
   * One item of the parsed `taps` JSON: a mapping, with `str()` of its "x" and "y"
   * values when they are present and not null, or an item of another type.
   */
  datatype TapPoint = Point(x: Option<string>, y: Option<string>) | NotMapping(typeName: string)

  /** The AttributeError message for `.get` on an item that is not a mapping. */
  function NoGetMessage(typeName: string): string {
    "'" + typeName + "' object has no attribute 'get'"
  }

  function TapCommand(x: string, y: string): string {
    "input tap " + x + " " + y
  }

  /** The report entry of one tapped point. */
  function TapEntry(x: string, y: string): string {
    "点击位置 (" + x + ", " + y + ")"
  }

  /** The taps done so far, the operations sent, and the exception that stopped the loop, if one did. */
  datatype Taps = Taps(done: seq<string>, sent: seq<Op>, error: Option<string>)

  /** The `multi_tap` loop over `points`, on device `d` after the operations in `hist`. */
  function TapPoints(d: Device, hist: seq<Op>, points: seq<TapPoint>): Taps
    decreases |points|
  {
    if points == [] then Taps([], [], None)
    else match points[0]
      case NotMapping(ty) => Taps([], [], Some(NoGetMessage(ty)))
      case Point(x, y) =>
        if x.Some? && y.Some? then
          var cmd := TapCommand(x.value, y.value);
          match d.shell(hist, cmd)
          case Raised(m) => Taps([], [Shell(cmd)], Some(m))
          case Ok(_) =>
            var rest := TapPoints(d, hist + [Shell(cmd)], points[1..]);
            Taps([TapEntry(x.value, y.value)] + rest.done, [Shell(cmd)] + rest.sent, rest.error)
        else TapPoints(d, hist, points[1..])
  }

  /** The tap commands for the points that have both coordinates, in input order. */
  function PlannedTaps(points: seq<TapPoint>): seq<Op> {
    if points == [] then []
    else
      (match points[0]
       case Point(Some(x), Some(y)) => [Shell(TapCommand(x, y))]
       case _ => [])
      + PlannedTaps(points[1..])
  }

  /** The report entries for the points that have both coordinates, in input order. */
  function PlannedEntries(points: seq<TapPoint>): seq<string> {
    if points == [] then []
    else
      (match points[0]
       case Point(Some(x), Some(y)) => [TapEntry(x, y)]
       case _ => [])
      + PlannedEntries(points[1..])
  }

  /**
   * When the loop runs to the end, it has tapped exactly the points with both
   * coordinates, in input order, and reported each of them, in the same order.
   */
  lemma {:induction false} TapPointsSpec(d: Device, hist: seq<Op>, points: seq<TapPoint>)
    ensures TapPoints(d, hist, points).error.None? ==>
      && TapPoints(d, hist, points).sent == PlannedTaps(points)
      && TapPoints(d, hist, points).done == PlannedEntries(points)
      && |TapPoints(d, hist, points).done| == |PlannedTaps(points)|
    decreases |points|
  {
    if points != [] {
      match points[0]
      case NotMapping(_) =>
      case Point(x, y) =>
        if x.Some? && y.Some? {
          TapPointsSpec(d, hist + [Shell(TapCommand(x.value, y.value))], points[1..]);
        } else {
          TapPointsSpec(d, hist, points[1..]);
        }
    }
  }

  /** An item that is not a mapping stops the loop with the AttributeError message. */
  lemma {:induction false} TapPointsStopsAtNonMapping(d: Device, hist: seq<Op>, points: seq<TapPoint>, i: nat)
    requires i < |points| && points[i].NotMapping?
    ensures TapPoints(d, hist, points).error.Some?
    decreases i
  {
    if i > 0 {
      match points[0]
      case NotMapping(_) =>
      case Point(x, y) =>
        if x.Some? && y.Some? {
          var cmd := TapCommand(x.value, y.value);
          if d.shell(hist, cmd).Ok? {
            TapPointsStopsAtNonMapping(d, hist + [Shell(cmd)], points[1..], i - 1);
          }
        } else {
          TapPointsStopsAtNonMapping(d, hist, points[1..], i - 1);
        }
    }
  }

  const MultiTapLabel := "多点点击失败"

  /** The text `multi_tap` returns after its loop. */
  function TapsOutput(t: Taps): string {
    if t.error.Some? then Failure(MultiTapLabel, t.error.value)
    else "成功执行多点点击: " + Join(t.done, ", ")
  }

  /** `multi_tap` as a function: resolve, parse the JSON, tap. */
  function MultiTapRun(devices: seq<Device>, id: Option<string>, taps: string,
                       parse: string -> Reply<seq<TapPoint>>): Run
  {
    match Resolve(devices, id)
    case Raised(m) => Run(Failure(MultiTapLabel, m), [])
    case Ok(d) =>
      match parse(taps)
      case Raised(m) => Run(Failure(MultiTapLabel, m), [])
      case Ok(points) =>
        var t := TapPoints(d, [], points);
        Run(TapsOutput(t), t.sent)
  }

  /** The `multi_tap` loop over `points`, on device `d`. */
  method TapAll(d: Device, points: seq<TapPoint>) returns (done: seq<string>, sent: seq<Op>, error: Option<string>)
    ensures Taps(done, sent, error) == TapPoints(d, [], points)
  {
    done := [];
    sent := [];
    var i := 0;
    while i < |points|
      invariant 0 <= i <= |points|
      invariant TapPoints(d, [], points) ==
        var rest := TapPoints(d, sent, points[i..]);
        Taps(done + rest.done, sent + rest.sent, rest.error)
    {
      assert points[i..][1..] == points[i + 1..];
      assert points[i..][0] == points[i];
      match points[i]
      case NotMapping(ty) =>
        assert done + [] == done && sent + [] == sent;
        return done, sent, Some(NoGetMessage(ty));
      case Point(x, y) =>
        if x.Some? && y.Some? {
          var cmd := TapCommand(x.value, y.value);
          var reply := d.shell(sent, cmd);
          if reply.Raised? {
            assert done + [] == done;
            return done, sent + [Shell(cmd)], Some(reply.message);
          }
          var line := TapEntry(x.value, y.value);
          ghost var rest := TapPoints(d, sent + [Shell(cmd)], points[i + 1..]);
          ConcatAssoc(done, [line], rest.done);
          ConcatAssoc(sent, [Shell(cmd)], rest.sent);
          done := done + [line];
          sent := sent + [Shell(cmd)];
        }
      i := i + 1;
    }
    assert points[i..] == [];
    assert done + [] == done && sent + [] == sent;
    error := None;
  }

  /** `multi_tap`: resolve the device, parse the JSON with the oracle `parse`, then tap. */
  method MultiTap(devices: seq<Device>, id: Option<string>, taps: string,
                  parse: string -> Reply<seq<TapPoint>>) returns (output: string, sent: seq<Op>)
    ensures Run(output, sent) == MultiTapRun(devices, id, taps, parse)
  {
    var r := GetDevice(devices, id);
    if r.Raised? {
      return Failure(MultiTapLabel, r.message), [];
    }
    var parsed := parse(taps);
    if parsed.Raised? {
      return Failure(MultiTapLabel, parsed.message), [];
    }
    var done, error;
    done, sent, error := TapAll(r.value, parsed.value);
    if error.Some? {
      output := Failure(MultiTapLabel, error.value);
    } else {
      output := "成功执行多点点击: " + Join(done, ", ");
    }
  }

  // ---------------------------------------------------------------- list_devices

  /** One operation sent to one device of the list. */
  datatype Sent = Sent(serial: string, op: Op)

  const ModelCommand := "getprop ro.product.model"
  const VersionCommand := "getprop ro.build.version.release"

  /** The block `list_devices` writes for one device, and the operations it sends to it. */
  function DeviceBlock(d: Device): (string, seq<Op>) {
    var head := "设备ID: " + d.serial + "\n";
    match d.shell([], ModelCommand)
    case Raised(m) => (head + "获取详细信息时出错: " + m, [Shell(ModelCommand)])
    case Ok(model) =>
      match d.shell([Shell(ModelCommand)], VersionCommand)
      case Raised(m) => (head + "获取详细信息时出错: " + m, [Shell(ModelCommand), Shell(VersionCommand)])
      case Ok(version) =>
        (head + "型号: " + Strip(model) + "\nAndroid版本: " + Strip(version),
         [Shell(ModelCommand), Shell(VersionCommand)])
  }

  /**
   * Every block begins with the device's serial, whether or not its queries
   * raised; the version is asked for exactly when the model query answered.
   */
  lemma DeviceBlockNamesDevice(d: Device)
    ensures StartsWith(DeviceBlock(d).0, "设备ID: " + d.serial + "\n")
    ensures DeviceBlock(d).1 == [Shell(ModelCommand)] || DeviceBlock(d).1 == [Shell(ModelCommand), Shell(VersionCommand)]
    ensures |DeviceBlock(d).1| == 1 <==> d.shell([], ModelCommand).Raised?
  {
    var head := "设备ID: " + d.serial + "\n";
    var b := DeviceBlock(d).0;
    assert b[..|head|] == head by { PrefixOfConcat(head, b[|head|..]); }
  }

  lemma PrefixOfConcat(p: string, q: string)
    ensures (p + q)[..|p|] == p
  {
  }

  /** The operations sent to each device, tagged with its serial. */
  function Tagged(serial: string, ops: seq<Op>): (r: seq<Sent>)
    ensures |r| == |ops| && forall k :: 0 <= k < |ops| ==> r[k] == Sent(serial, ops[k])
  {
    if ops == [] then [] else [Sent(serial, ops[0])] + Tagged(serial, ops[1..])
  }

  /** The operations sent to the devices, device by device in list order, each tagged with its serial. */
  function ListTrace(devices: seq<Device>): seq<Sent>
    decreases |devices|
  {
    if devices == [] then []
    else
      var last := devices[|devices| - 1];
      ListTrace(devices[..|devices| - 1]) + Tagged(last.serial, DeviceBlock(last).1)
  }

  /** Each listed device is sent one or two queries: the model, then the version unless the model query raised. */
  lemma {:induction false} ListTraceLength(devices: seq<Device>)
    ensures |devices| <= |ListTrace(devices)| <= 2 * |devices|
    decreases |devices|
  {
    if devices != [] {
      ListTraceLength(devices[..|devices| - 1]);
      DeviceBlockNamesDevice(devices[|devices| - 1]);
    }
  }

  /**
   * `list_devices`: one block per listed device, in list order, separated by a
   * blank line; a device whose queries raise still gets its block.
   */
  method ListDevices(devices: seq<Device>) returns (output: string, sent: seq<Sent>)
    ensures devices == [] ==> output == NoDevicesMessage && sent == []
    ensures devices != [] ==>
      output == Join(seq(|devices|, k requires 0 <= k < |devices| => DeviceBlock(devices[k]).0), "\n\n")
    ensures sent == ListTrace(devices)
  {
    if |devices| == 0 {
      return NoDevicesMessage, [];
    }
    var blocks: seq<string> := [];
    sent := [];
    for i := 0 to |devices|
      invariant |blocks| == i
      invariant forall k :: 0 <= k < i ==> blocks[k] == DeviceBlock(devices[k]).0
      invariant sent == ListTrace(devices[..i])
    {
      var (block, ops) := DeviceBlock(devices[i]);
      blocks := blocks + [block];
      assert devices[..i + 1][..i] == devices[..i];
      sent := sent + Tagged(devices[i].serial, ops);
    }
    assert devices[..|devices|] == devices;
    assert blocks == seq(|devices|, k requires 0 <= k < |devices| => DeviceBlock(devices[k]).0);
    output := Join(blocks, "\n\n");
  }

  // ---------------------------------------------------------------- get_device_info

  /** The eight properties `get_device_info` reads, in table order: (caption, property). */
  const InfoProps: seq<(string, string)> := [
    ("型号", "ro.product.model"),
    ("品牌", "ro.product.brand"),
    ("制造商", "ro.product.manufacturer"),
    ("Android版本", "ro.build.version.release"),
    ("API级别", "ro.build.version.sdk"),
    ("设备ID", "ro.serialno"),
    ("CPU架构", "ro.product.cpu.abi"),
    ("内核版本", "ro.kernel.version")]

  /** The `getprop` lookup of each property. */
  function PropLookups(props: seq<(string, string)>): (r: seq<(string, string)>)
    ensures |r| == |props| && forall k :: 0 <= k < |props| ==> r[k] == (props[k].0, "getprop " + props[k].1)
  {
    if props == [] then [] else [(props[0].0, "getprop " + props[0].1)] + PropLookups(props[1..])
  }

  /** All ten lookups, in the order issued: the eight properties, the screen size, the battery level. */
  const InfoLookups: seq<(string, string)> :=
    PropLookups(InfoProps) + [("屏幕尺寸", "wm size"), ("电池状态", "dumpsys battery | grep level")]

  /** The information line for one lookup: its value stripped, or "无法获取" when the lookup raised. */
  function InfoLine(caption: string, reply: Reply<string>): string {
    match reply
    case Ok(v) => caption + ": " + Strip(v)
    case Raised(_) => caption + ": 无法获取"
  }

  /** The commands of the first `n` lookups. */
  function InfoOps(lookups: seq<(string, string)>, n: nat): (ops: seq<Op>)
    requires n <= |lookups|
    ensures |ops| == n && forall k :: 0 <= k < n ==> ops[k] == Shell(lookups[k].1)
  {
    if n == 0 then [] else InfoOps(lookups, n - 1) + [Shell(lookups[n - 1].1)]
  }

  lemma InfoOpsStep(lookups: seq<(string, string)>, n: nat)
    requires n < |lookups|
    ensures InfoOps(lookups, n) + [Shell(lookups[n].1)] == InfoOps(lookups, n + 1)
  {
  }

  /** The lines for the first `n` lookups: the k-th from the k-th reply, given the k commands before it. */
  function InfoLines(d: Device, lookups: seq<(string, string)>, n: nat): (lines: seq<string>)
    requires n <= |lookups|
    ensures |lines| == n
  {
    if n == 0 then []
    else InfoLines(d, lookups, n - 1) + [InfoLine(lookups[n - 1].0, d.shell(InfoOps(lookups, n - 1), lookups[n - 1].1))]
  }

  /** The loop of `get_device_info` over its lookups: each is sent, and each adds its line, whatever the others answered. */
  method InfoLoop(d: Device, lookups: seq<(string, string)>) returns (info: seq<string>, sent: seq<Op>)
    ensures sent == InfoOps(lookups, |lookups|)
    ensures info == InfoLines(d, lookups, |lookups|)
  {
    info := [];
    sent := [];
    var i := 0;
    while i < |lookups|
      invariant 0 <= i <= |lookups|
      invariant sent == InfoOps(lookups, i)
      invariant info == InfoLines(d, lookups, i)
    {
      var (caption, cmd) := lookups[i];
      var reply := d.shell(sent, cmd);
      info := info + [InfoLine(caption, reply)];
      InfoOpsStep(lookups, i);
      sent := sent + [Shell(cmd)];
      i := i + 1;
    }
  }

  const InfoLabel := "获取设备信息失败"

  /**
   * `get_device_info`: every lookup is sent, in table order, whatever the
   * earlier ones answered; the k-th line is built from the k-th answer alone; a
   * lookup that raises gives "<caption>: 无法获取" and does not stop the others.
   */
  method GetDeviceInfo(devices: seq<Device>, id: Option<string>) returns (output: string, sent: seq<Op>)
    ensures Resolve(devices, id).Raised? ==>
      output == Failure(InfoLabel, Resolve(devices, id).message) && sent == []
    ensures Resolve(devices, id).Ok? ==>
      && sent == InfoOps(InfoLookups, |InfoLookups|)
      && output == Join(InfoLines(Resolve(devices, id).value, InfoLookups, |InfoLookups|), "\n")
  {
    var r := GetDevice(devices, id);
    if r.Raised? {
      return Failure(InfoLabel, r.message), [];
    }
    var info;
    info, sent := InfoLoop(r.value, InfoLookups);
    output := Join(info, "\n");
  }

  lemma AppendAt<T>(s: seq<T>, x: T, k: nat)
    requires k < |s|
    ensures (s + [x])[k] == s[k]
  {
  }

  lemma AppendLast<T>(s: seq<T>, x: T)
    ensures (s + [x])[|s|] == x
  {
  }

  /** Line k of `get_device_info` comes from lookup k alone, after exactly the k lookups before it. */
  lemma {:induction false} InfoLinesAt(d: Device, lookups: seq<(string, string)>, n: nat, k: nat)
    requires k < n <= |lookups|
    ensures InfoLines(d, lookups, n)[k] == InfoLine(lookups[k].0, d.shell(InfoOps(lookups, k), lookups[k].1))
  {
    var prev := InfoLines(d, lookups, n - 1);
    var want := InfoLine(lookups[k].0, d.shell(InfoOps(lookups, k), lookups[k].1));
    if k < n - 1 {
      InfoLinesAt(d, lookups, n - 1, k);
      assert prev[k] == want;
      AppendAt(prev, InfoLine(lookups[n - 1].0, d.shell(InfoOps(lookups, n - 1), lookups[n - 1].1)), k);
    } else {
      AppendLast(prev, want);
    }
  }

  /** The lookups are the eight properties in table order, then screen size, then battery. */
  lemma InfoLookupOrder()
    ensures |InfoLookups| == 10
    ensures forall k :: 0 <= k < 8 ==> InfoLookups[k] == (InfoProps[k].0, "getprop " + InfoProps[k].1)
    ensures InfoLookups[8] == ("屏幕尺寸", "wm size") && InfoLookups[9] == ("电池状态", "dumpsys battery | grep level")
  {
  }

  // ---------------------------------------------------------------- take_bugreport

  const BugreportMarker := "...\n[Bug报告太长，只显示前面部分]"
  const BugreportLabel := "获取Bug报告失败"
  const BugreportPath := "/sdcard/bugreport.txt"

  /**
   * `take_bugreport`: write the report on the device, pull it, remove it, read it
   * (`decode` stands for reading the pulled file as text) and keep its head.
   */
  function TakeBugreport(devices: seq<Device>, id: Option<string>, decode: seq<byte> -> string): Run {
    match Resolve(devices, id)
    case Raised(m) => Run(Failure(BugreportLabel, m), [])
    case Ok(d) =>
      var op1 := Shell("bugreport > " + BugreportPath);
      match d.shell([], op1.command)
      case Raised(m) => Run(Failure(BugreportLabel, m), [op1])
      case Ok(_) =>
        var op2 := Pull(BugreportPath);
        match d.pull([op1], BugreportPath)
        case Raised(m) => Run(Failure(BugreportLabel, m), [op1, op2])
        case Ok(bytes) =>
          var op3 := Shell("rm " + BugreportPath);
          match d.shell([op1, op2], op3.command)
          case Raised(m) => Run(Failure(BugreportLabel, m), [op1, op2, op3])
          case Ok(_) => Run(KeepHead(decode(bytes), BugreportMarker), [op1, op2, op3])
  }

  /**
   * A bug report read in full comes back whole when it has at most `Limit`
   * characters, and as its first `Limit` characters plus the marker otherwise.
   */
  lemma TakeBugreportTruncates(devices: seq<Device>, id: Option<string>, decode: seq<byte> -> string)
    requires Resolve(devices, id).Ok?
    requires var d := Resolve(devices, id).value;
      && d.shell([], "bugreport > " + BugreportPath).Ok?
      && d.pull([Shell("bugreport > " + BugreportPath)], BugreportPath).Ok?
      && d.shell([Shell("bugreport > " + BugreportPath), Pull(BugreportPath)], "rm " + BugreportPath).Ok?
    ensures var d := Resolve(devices, id).value;
      var content := decode(d.pull([Shell("bugreport > " + BugreportPath)], BugreportPath).value);
      var out := TakeBugreport(devices, id, decode).output;
      && (|content| <= Limit ==> out == content)
      && (|content| > Limit ==>
            StartsWith(out, content[..Limit]) && EndsWith(out, BugreportMarker) && |out| == Limit + |BugreportMarker|)
  {
    var d := Resolve(devices, id).value;
    var content := decode(d.pull([Shell("bugreport > " + BugreportPath)], BugreportPath).value);
    KeepHeadSpec(content, BugreportMarker);
  }
}
