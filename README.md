# adb_mcp_server in Dafny

A model of the logic inside the Android debug-bridge tool server `adb_mcp_server`.
Most tools of that server:

- resolve a device from the live device list;
- send it shell, pull or push operations;
- format a string, with the whole body inside one `try` that turns any exception into `"<caption>: <message>"`.

Three tools handle the exceptions of their inner queries themselves; their rows below say how:

- `list_devices` does not call `get_device`. A query that raises becomes a "获取详细信息时出错: <message>" line inside that device's block.
- `get_device_info` turns a lookup that raises into "<label>: 无法获取", without the message.
- `enhanced_start_app` skips a candidate that raises without a line. The exceptions of its other strategies go into its log rather than into a caption.

`multi_tap` with an empty list and `list_devices` with no devices send no operation at all.

The model keeps that shape and describes it in Dafny terms:

- **Devices as oracles.** A device (`AdbServer.Device`) is a serial together with three functions: `shell`, `pull` and `push`. Each one receives the operations already sent to that device during the current call, plus the new request. Each answers with a value (`Ok`) or with the message of the exception it raised (`Raised`).
- **Tools as runs.** Every tool is modelled as a `Run`: the text it returns and the trace of operations it sent. Properties can therefore speak about both what was sent and what came back.
- **Loops as methods.** Where the source updates a list or a flag inside a loop, the model is a method with a `while` or `for` loop. Examples are `get_device`, `list_devices`, `get_device_info`, `multi_tap`, the `run_ui_test` interpreter, candidate extraction and the launch chain of `enhanced_start_app`. Each such method is proved equal to a function. The properties are then proved about that function as lemmas.

Modules:

- `Common`: `Option` and `byte`.
- `Text`: the parts of Python's `str` the source relies on. These are `strip`, `split()`, `split(sep)`, `splitlines`, `join`, `replace`, `in`, `startswith`/`endswith`, `lower`, `str(int)` and `int(str)`.
- `AdbServer`: the core of `adb_server.py`:
  - device resolution;
  - shell-text escaping;
  - head and tail truncation at 10000 characters;
  - `input_text`, `list_installed_packages`, `multi_tap`, `list_devices`, `get_device_info` and `take_bugreport`.
- `UiTest`: the `run_ui_test` script language, its parser and its interpreter.
- `AdvancedTools`: `dump_ui_hierarchy`, `collect_device_logs` and `tap_element_by_text`.
- `StartApp`: the strategy chain of `enhanced_start_app` and its activity extraction.
- `Base64`: the encoding of section 4 of RFC 4648, which `base64.b64encode` writes, with a decoder the round trip is proved against.
- `FileTools`: `list_files`, `read_text_file`, `download_file` (`os.path.splitext`, the MIME table, the `data:` URI) and `write_text_file`.

## Model

| member | source | states |
|---|---|---|
| AdbServer.FindSerial | src/adb_server.py:31-35 | the index found holds the requested serial and no earlier device has it; the list length means no device has it |
| AdbServer.GetDevice | src/adb_server.py:23-37 | the loop with its early return computes exactly `Resolve`: no devices, the first device with the id, not found, or the first device |
| AdbServer.ResolveEmpty | src/adb_server.py:28-29 | an empty device list fails with "未找到连接的设备" whatever id is given |
| AdbServer.ResolveDefault | src/adb_server.py:31-37 | with no id, or the falsy id "", the first listed device is chosen |
| AdbServer.ResolveById | src/adb_server.py:31-35 | with a truthy id, resolution succeeds iff some device has that serial; it then gives the first such device in list order; otherwise it fails with the message naming the id |
| AdbServer.EscapeTextIsPerChar | src/adb_server.py:248 | the three replacements in their order act character by character: `'`→`\'`, `"`→`\"`, space→`%s` |
| AdbServer.EscapeTextNoSpace | src/adb_server.py:248 | the escaped text holds no space |
| AdbServer.EscapeTextPlain | src/adb_server.py:248 | a text with no quote and no space is sent unchanged |
| AdbServer.EscapeRoundTrip | src/adb_server.py:248 | unescaping the escaped text gives it back when the text itself holds no `%s` |
| AdbServer.EscapeConflatesPercentS | src/adb_server.py:248 | a space and a literal `%s` are escaped alike, so the side condition above is needed |
| AdbServer.EscapeTextAddsSpaceStep | src/advanced_tools.py:183 | the escaping of `tap_element_by_text` is `input_text`'s without the space step |
| AdbServer.EscapeQuotesKeepsSpaces | src/advanced_tools.py:183 | a text holding a space is sent by `tap_element_by_text` with a space still in it, unlike `input_text` |
| AdbServer.KeepHeadSpec | src/adb_server.py:489-490 | text of at most 10000 characters is unchanged; longer text is its first 10000 characters then the marker |
| AdbServer.KeepHeadIdempotent | src/adb_server.py:489-490 | head truncation applied twice equals applying it once |
| AdbServer.KeepTailSpec | src/advanced_tools.py:241-242 | text of at most 10000 characters is unchanged; longer text is the marker then its last 10000 characters |
| AdbServer.KeepTailIdempotent | src/advanced_tools.py:241-242 | tail truncation applied twice equals applying it once |
| AdbServer.InputTextSpec | src/adb_server.py:237-252 | one command, the escaped text in single quotes, with no space inside; the answer is the success text when the shell answered, and the caption with the exception's message when resolution or the shell raised |
| AdbServer.CleanPackageLinesSpec | src/adb_server.py:399 | one entry per non-empty line, in order, each the line with "package:" removed and then stripped |
| AdbServer.CleanListing | src/adb_server.py:399 | lines "package:<name>" for plain names clean back to exactly the names |
| AdbServer.PackageNamesOfListing | src/adb_server.py:398-400 | a well-formed `pm list packages` output yields exactly the listed names |
| AdbServer.ListInstalledPackagesSpec | src/adb_server.py:389-402 | one `pm list packages` to the resolved device; the answer is the cleaned names joined by newlines, or the caption with the message of the exception that resolution or the shell raised |
| AdbServer.ListInstalledPackagesNames | src/adb_server.py:389-402 | when the device prints a well-formed listing, the tool answers with exactly the listed names, one per line |
| AdbServer.TapPointsSpec | src/adb_server.py:152-161 | a loop that runs to the end taps exactly the points with both x and y, in input order, and its report is exactly their entries "点击位置 (x, y)", in the same order |
| AdbServer.TapPointsStopsAtNonMapping | src/adb_server.py:153-155 | an item that is not a mapping ends the loop with an error |
| AdbServer.TapAll | src/adb_server.py:152-159 | the tap loop computes `TapPoints`: its entries, its commands and the exception that stopped it |
| AdbServer.MultiTap | src/adb_server.py:140-163 | `multi_tap` equals `MultiTapRun`: resolve, parse with the JSON oracle, tap, then report or give the caption |
| AdbServer.DeviceBlockNamesDevice | src/adb_server.py:50-56 | every device block starts with its serial; the device is sent the model query, then the version query exactly when the model query answered |
| AdbServer.ListTraceLength | src/adb_server.py:50-56 | each listed device is sent one or two queries |
| AdbServer.ListDevices | src/adb_server.py:40-58 | no devices gives "未找到连接的设备"; otherwise one block per device, in list order, joined by a blank line; the trace is the devices' queries in list order, tagged by serial |
| AdbServer.InfoLoop | src/adb_server.py:363-383 | every lookup is sent, in order, after exactly the ones before it; each adds its line whatever the others answered |
| AdbServer.GetDeviceInfo | src/adb_server.py:341-387 | all ten lookups are sent in table order whatever earlier ones answered; the output is their lines joined by newlines, or the caption when resolution fails |
| AdbServer.InfoLinesAt | src/adb_server.py:363-383 | line k comes from lookup k alone, sent after exactly the k lookups before it; a raised lookup gives "<label>: 无法获取" |
| AdbServer.InfoLookupOrder | src/adb_server.py:352-383 | the lookups are the eight properties in table order, then screen size, then battery |
| AdbServer.TakeBugreportTruncates | src/adb_server.py:462-494 | a report read in full is returned whole up to 10000 characters, and otherwise as its head plus the marker |
| Text.LStrip | src/adb_server.py:52 | exactly the leading whitespace is removed |
| Text.RStrip | src/adb_server.py:52 | exactly the trailing whitespace is removed |
| Text.Strip | src/adb_server.py:52 | no whitespace at either end, and no longer than the text; the result is empty iff the text was all whitespace |
| Text.StripTrims | src/adb_server.py:52 | the strip is a slice of the text with only whitespace before and after it |
| Text.StripIdempotent | src/advanced_tools.py:92-94 | strip applied twice equals strip applied once |
| Text.NoEdgeSpaceStrip | src/file_tools.py:19 | a text with no whitespace at either end is its own strip |
| Text.SplitWs | src/advanced_tools.py:98 | `split()` gives non-empty tokens |
| Text.SplitWsFirst | src/advanced_tools.py:98-99 | a text that does not start with whitespace has a first token, which starts with the text's first character |
| Text.SplitOn | src/advanced_tools.py:92 | `split('\n')` gives at least one piece, and no piece holds the separator |
| Text.JoinSplitOn | src/advanced_tools.py:92 | joining the pieces with the separator gives the text back |
| Text.SplitOnJoin | src/advanced_tools.py:390 | pieces free of the separator, once joined, split back into those pieces |
| Text.SplitOnHead | src/advanced_tools.py:397 | the first piece ends at the first separator |
| Text.SplitLines | src/adb_server.py:399 | `splitlines` gives lines without boundaries, and no lines for the empty text |
| Text.SplitLinesUnlines | src/adb_server.py:399 | lines without boundaries, each ended by a newline, split back into those lines |
| Text.ReplaceConcat | src/adb_server.py:248 | a one-character replacement acts on each part of a concatenation separately |
| Text.ContainsIff | src/advanced_tools.py:345 | the substring scan holds exactly when the pattern occurs at some index |
| Text.Lower | src/advanced_tools.py:99 | lower-casing keeps the length |
| Text.LowerIdempotent | src/advanced_tools.py:99 | lower-casing twice is lower-casing once |
| Text.NatToString | src/advanced_tools.py:103 | `str(n)` is a non-empty run of digits with no leading zero |
| Text.IntRoundTrip | src/advanced_tools.py:102 | `int(str(i)) == i` |
| UiTest.TapOf | src/advanced_tools.py:101-102 | a tap exactly when `int()` accepts both tokens, at the integers they denote; otherwise `int()`'s error on the first rejected token |
| UiTest.SwipeOf | src/advanced_tools.py:106-108 | a swipe exactly when `int()` accepts all four tokens, at the integers they denote and with the given duration token; otherwise `int()`'s error on the first rejected token |
| UiTest.Dequote | src/advanced_tools.py:114-115 | one pair of enclosing `"` is removed only when the text both starts and ends with one |
| UiTest.ParseWords | src/advanced_tools.py:98-139 | a non-skipped line is never parsed as skipped |
| UiTest.Parse | src/advanced_tools.py:94-96 | a line is skipped iff, once stripped, it is empty or starts with `#` |
| UiTest.InstrsAt | src/advanced_tools.py:93 | instruction k is the parse of script line k |
| UiTest.Perform | src/advanced_tools.py:101-142 | one instruction: a skipped line reports nothing, any other exactly one line or an error; only a device command is sent, whether or not it raises |
| UiTest.Kept | src/advanced_tools.py:95-96 | the kept instructions hold no skipped line |
| UiTest.RunSteps | src/advanced_tools.py:93-142 | the script loop computes `Steps`: results, commands and the aborting error |
| UiTest.RunUiTest | src/advanced_tools.py:73-146 | `run_ui_test` equals `UiTestRun`: "执行结果:" and the result lines, or the caption with the error |
| UiTest.StepsAppend | src/advanced_tools.py:93-142 | running a script in two parts: the second part starts after the operations of the first, unless the first failed |
| UiTest.SkippedLinesAreInert | src/advanced_tools.py:94-96 | blank and comment lines send nothing and report nothing; the script runs as if they were absent |
| UiTest.OneResultPerKeptLine | src/advanced_tools.py:99-139 | a script that runs to the end reports exactly one line per kept line, in order; an unrecognised line is reported, not fatal |
| UiTest.FailingLineAborts | src/advanced_tools.py:94-142 | a line that raises stops the script there: the results and commands of the lines before it, what that line sent, and its exception |
| UiTest.InvalidLineAborts | src/advanced_tools.py:101-107 | a coordinate `int()` rejects stops the script at that line with `int()`'s error, with nothing sent for that line |
| UiTest.WaitFailureAborts | src/advanced_tools.py:119-122 | a `wait` whose `float()` or sleep raises stops the script at that line with that exception |
| UiTest.InvalidLineFailsTool | src/advanced_tools.py:144-146 | the tool then returns its caption and the error alone, with no result lines |
| UiTest.ParseOfTokens | src/advanced_tools.py:94-99 | a line whose first token does not start with `#` is parsed from the tokens of its stripped text |
| UiTest.KeywordNotComment | src/advanced_tools.py:95-99 | a command word, in any case, does not start a comment |
| UiTest.CommandWords | src/advanced_tools.py:99 | a word has the keyword of its lower-cased form, and it is a command word exactly when that form is one of the seven command names |
| UiTest.CommandWordExamples | src/advanced_tools.py:99 | examples: "tap", "TAP", "HOME" and "Back" are command words; "foo" is not |
| UiTest.KeywordIgnoresCase | src/advanced_tools.py:99 | token lists whose first words lower-case alike give the same instruction |
| UiTest.TapWords | src/advanced_tools.py:101-102 | the first two arguments of `tap` are the point; further tokens are ignored |
| UiTest.ParseTap | src/advanced_tools.py:101-104 | `tap x y` gives the tap of the integers, or `int()`'s error on the first bad coordinate |
| UiTest.TapShortWords | src/advanced_tools.py:101-139 | `tap` with fewer than two arguments is unrecognised |
| UiTest.ParseTapTooShort | src/advanced_tools.py:138-139 | it is reported with the stripped line and the script goes on |
| UiTest.SwipeWords | src/advanced_tools.py:106-108 | `swipe` takes four coordinates, then the duration, "300" when absent |
| UiTest.ParseSwipe | src/advanced_tools.py:106-109 | `swipe x1 y1 x2 y2 [d]` gives the swipe of the four integers with duration d or "300" |
| UiTest.KeyWords | src/advanced_tools.py:130-136 | `home` and `back` ignore further tokens |
| UiTest.ParseHome | src/advanced_tools.py:130-132 | `home` in any case is the home key |
| UiTest.ParseBack | src/advanced_tools.py:134-136 | `back` in any case is the back key |
| UiTest.TextWords | src/advanced_tools.py:112-115 | `text` rejoins its tokens with single spaces, then removes one pair of enclosing quotes |
| UiTest.ParseText | src/advanced_tools.py:112-115 | the same, from the raw line |
| UiTest.DequoteQuoted | src/advanced_tools.py:114-115 | quotes at both ends are removed once and the text between them is kept |
| UiTest.TextCommandEscapes | src/advanced_tools.py:116-117 | `text` sends its text through the `input_text` escaping: no space inside the quotes; plain text is unchanged |
| AdvancedTools.DumpUiHierarchyTruncates | src/advanced_tools.py:39-71 | dump, pull, remove, in that order; the dump comes back whole up to 10000 characters, and otherwise as its head plus the marker |
| AdvancedTools.CollectDeviceLogsTruncates | src/advanced_tools.py:219-246 | the log is cleared, then the wait of `duration` seconds, then the read; a wait that raises (always for a negative `duration`, with "sleep length must be non-negative") gives the caption after `logcat -c` alone; a read that raises gives the caption; otherwise the log comes back whole up to 10000 characters, and else as the marker then its last 10000 characters |
| AdvancedTools.Midpoint | src/advanced_tools.py:207-208 | `(a + b) // 2` lies between a and b, on the floor of their mean |
| AdvancedTools.TapElementTypesFirst | src/advanced_tools.py:192-215 | typing the text is the first command; an answer without "error" (in any case) ends the tool there |
| AdvancedTools.TapElementTapsCentre | src/advanced_tools.py:192-215 | when typing answers with "error", the dump, its read and its removal answer, and `find` locates bounds b, the fifth command taps the centre of b; the answer reports that point, or the caption with the tap's exception |
| StartApp.FixedCandidates | src/advanced_tools.py:375-384 | the eight fixed candidates are the package followed by each ending, in order |
| StartApp.ActivityOfSegment | src/advanced_tools.py:396-399 | a token's activity is the segment after its first `/`; a segment starting with `.` gets the package in front |
| StartApp.PartActivitiesAppend | src/advanced_tools.py:395-400 | tokens are read independently, in order |
| StartApp.LineActivitiesAppend | src/advanced_tools.py:391-400 | lines are read independently, in order |
| StartApp.NothingDiscoveredInEmptyOutput | src/advanced_tools.py:387-388 | empty `dumpsys` output adds no candidate |
| StartApp.ExtractFromParts | src/advanced_tools.py:394-400 | the token loop appends exactly the activities of the tokens that name the package and hold a `/` |
| StartApp.CollectCandidates | src/advanced_tools.py:375-400 | the candidates are the fixed names, then the names found in each line that mentions the package and "filter" |
| StartApp.AmStartOps | src/advanced_tools.py:403-405 | one `am start -n` per activity, in order |
| StartApp.TryAll | src/advanced_tools.py:402-411 | the candidate loop with its `break` computes `TryCandidates` |
| StartApp.NoWinnerTriesAll | src/advanced_tools.py:403-411 | with no winner, every candidate was tried, in order, and none passed |
| StartApp.FirstStartWins | src/advanced_tools.py:403-409 | the winner is the first candidate that passes; its command is the last sent and every earlier candidate failed |
| StartApp.TryProbe | src/advanced_tools.py:342-351 | one strategy's `try` block: the intro line, then the success, failure or exception line, and whether the output passed |
| StartApp.SearchPhase | src/advanced_tools.py:370-413 | the search strategy computes `SearchStep`: query `dumpsys`, collect the candidates, try them |
| StartApp.Fallbacks | src/advanced_tools.py:357-426 | after a failed `monkey`: the named activity, the search, then ACTION_MAIN, each only while nothing has started |
| StartApp.EnhancedStartApp | src/advanced_tools.py:327-432 | `enhanced_start_app` equals `StartAppRun`: the strategy log under the success or give-up headline, or the caption |
| StartApp.MonkeyFirst | src/advanced_tools.py:341-355 | `monkey` is the first command; when it passes, nothing else is sent and the tool reports success at once |
| StartApp.FallbacksExtend | src/advanced_tools.py:357-426 | after a failed `monkey` at least one more command is sent after `monkey`'s |
| StartApp.NamedActivitySecond | src/advanced_tools.py:357-387 | after a failed `monkey`, the second command is `am start -n` on the named activity when one is given, and the `dumpsys` query otherwise |
| StartApp.LaunchPassed | src/advanced_tools.py:344-347 | a one-command strategy succeeds iff its command's output passed its test |
| StartApp.WinnerPassed | src/advanced_tools.py:403-409 | a winning candidate loop ends with the winner's command, which passed the `am start` test |
| StartApp.SearchPassed | src/advanced_tools.py:370-411 | a successful search ends with a command that passed the `am start` test |
| StartApp.ChainPassed | src/advanced_tools.py:341-426 | the chain succeeds iff the last command it sent passed its test (the `monkey` test for `monkey`, the `am start` test otherwise) |
| StartApp.SearchTrace | src/advanced_tools.py:370-413 | a search that starts nothing sends the `dumpsys` query, then every candidate's `am start -n` in list order when the query answered, and nothing else |
| StartApp.ChainTrace | src/advanced_tools.py:341-426 | a chain that starts nothing sends `monkey`, the named activity when given, the `dumpsys` query, every candidate in order when the query answered, and ACTION_MAIN last |
| StartApp.ChainStopsAtNamedActivity | src/advanced_tools.py:357-371 | a named activity that starts ends the chain after `monkey` and its own `am start -n` |
| StartApp.ChainStopsAtCandidate | src/advanced_tools.py:370-416 | a candidate that starts ends the chain after the first commands, the `dumpsys` query and the attempts up to the winner; ACTION_MAIN is not sent |
| StartApp.HeadlinesDiffer | src/advanced_tools.py:428-431 | the success headline and the give-up headline cannot be confused |
| StartApp.SuccessIffLastPassed | src/advanced_tools.py:428-431 | the tool reports "成功启动应用" iff the last command it sent passed its test |
| Base64.CharOf | src/file_tools.py:97 | an alphabet character is never the padding `=` |
| Base64.ValueOf | src/file_tools.py:97 | a character's value, when it has one, is below 64 |
| Base64.ValueOfCharOf | src/file_tools.py:97 | each alphabet character stands for exactly its own value |
| Base64.Encode | src/file_tools.py:97 | four characters for every started group of three bytes |
| Base64.TripleRoundTrip | src/file_tools.py:97 | three bytes come back from their four characters |
| Base64.TailRoundTrip | src/file_tools.py:97 | one or two final bytes come back from their padded group |
| Base64.DecodeEncode | src/file_tools.py:97 | decoding the encoding gives the bytes back |
| FileTools.ListFilesSpec | src/file_tools.py:8-21 | one `ls -la` on `/sdcard` unless a directory is given; the answer is the listing with its surrounding whitespace removed, so stripping it again changes nothing; a failure gives the caption |
| FileTools.ReadTextFileTruncates | src/file_tools.py:55-72 | one `cat`; up to 10000 characters, exactly 10000 included, come back whole, longer output as its head plus the marker |
| FileTools.LastIndexOf | src/file_tools.py:86 | `rfind`: the last index holding the character, or -1 |
| FileTools.ExtStart | src/file_tools.py:86 | the extension starts within the path |
| FileTools.SplitExtSpec | src/file_tools.py:86 | root + extension is the path; a non-empty extension starts with its only `.`, holds no `/`, and the root's last component is not all dots |
| FileTools.HiddenNameHasNoExt | src/file_tools.py:86 | a leading-dot name such as `.bashrc` has no extension |
| FileTools.NamedExt | src/file_tools.py:86 | a name not starting with `.` has everything from its last `.` on as its extension |
| FileTools.MimeTypeDefault | src/file_tools.py:103-114 | the default type is given iff the lower-cased extension is not in the table |
| FileTools.MimeTypeExamples | src/file_tools.py:103-114 | case does not matter; `.jpg` and `.jpeg` are both JPEG; the empty extension gets the default |
| FileTools.DownloadRoundTrip | src/file_tools.py:74-118 | the answer is "data:", the MIME type, ";base64," and a payload that decodes to exactly the pulled bytes |
| FileTools.WriteTextFileSpec | src/file_tools.py:120-145 | one push of exactly the content to the path; the answer names the path or gives the caption |
| FileTools.FileToolsLabelFailures | src/file_tools.py:16-145 | when resolution fails, every file tool answers with its own caption, ": " and the message, and sends nothing |
| FileTools.FileToolsOperationFailures | src/file_tools.py:9-118 | a raising `ls`, `cat` or pull gives the listing, read or download caption, ": " and the exception's message |

## Left out

- **Transport:** the ppadb client, the TCP connection to the daemon, FastMCP registration and `mcp.run`. These are foreign. A device is an oracle, and the device list is a parameter. `get_device` calls `client.devices()` inside each tool's `try`; if that call raised (the daemon not running), the tool would answer with its caption and the message. That case is not modelled, because the list is given.
- **list_devices:** `client.devices()` is called outside any `try`, so this tool can raise. That exception happens before the model starts. No never-raises property is claimed for it.
- **Local temporary files:** their creation, reading and removal. The pulled bytes are the `pull` oracle. Reading a pulled file as text is the parameter `decode`. `write_text_file` pushes the content itself.
- **download_file:** a local temporary-file failure would give the same caption, but it is not modelled.
- **Time and printing:** `print`, and the passing of time in `time.sleep`. The 0.5 s pauses of `run_ui_test` and `multi_tap` are not modelled, since a fixed positive length cannot raise. The wait of `collect_device_logs` is modelled by whether it raises: `AdvancedTools.Sleep` raises for a negative `duration`, and any other length is the oracle `sleep`. That oracle can also raise, for example an `OverflowError` for a length too large for the clock.
- **analyze_performance:** its loop runs on the wall clock, and its time stamps are floats.
- **Parse oracles:**
  - `float()` and the sleep of `wait` are the oracle `wait`.
  - `json.loads` in `multi_tap` is the oracle `parse`. Each item carries `str()` of its `x` and `y`, or is not a mapping.
  - The regular expression of `tap_element_by_text` is the oracle `find`, which returns optional bounds.
- **Tools outside the core:** the following tools are not modelled. Most send one fixed command and answer with a fixed message. The others are noted after the list.
  - take_screenshot and record_screen;
  - tap_screen, and the four swipes;
  - press_key, press_back, press_home and press_app_switch;
  - start_app, get_screen_resolution, get_current_activity, kill_app, clear_app_data, get_battery_info and reboot_device;
  - install_apk, uninstall_app, check_element_exists and take_screen_recording;
  - push_file, pull_file, delete_file and make_directory.

  take_screenshot and record_screen send a shell command, a pull and another shell command, and answer with a base 64 `data:` URI. check_element_exists sends three commands and answers by whether the text occurs in the output. get_screen_resolution builds its answer from the command's output.
- **tap_element_by_text:** the `cmd` and `alternative_cmd` strings are built but never sent, so they are not modelled.
- **Other files:** `src/network_tools.py` (one fixed command per toggle) and `src/__init__.py` (imports) are not part of this model.
- **Text.Lower:** only ASCII letters and the Kelvin sign are folded. Other characters whose lower case differs are kept as they are. The source compares lower-cased text only with ASCII words ("tap", "error", ".png", ...), and for those comparisons the result is the same.
- **Text.ParseInt:** it accepts ASCII digits, a sign and single underscores between digits. Python's `int()` also accepts the other Unicode decimal digits, which are not modelled. CPython's limit of 4300 digits on `int()` of a string is not modelled either: a longer coordinate raises and stops the script in the source, but the model taps it.
- **UiTest.IntError:** the token is quoted as written, without the escaping `repr` would apply.
- **UiTest.RunUiTest:** it parses every line before running the loop, while the source parses each line when it reaches it. Parsing is pure, so that changes neither the output nor the trace.
- **Text.SplitWs:** its contract states only that every token is non-empty. That each token holds no whitespace is not stated: in the full project that clause cost more than the verifier's limit allows.
- **FileTools.Ext:** `os.path.splitext` is modelled with POSIX path rules. The Windows `ntpath` rules are not modelled.
- **Base64:** only encoding is in the source. `Decode` is a reference decoder used only to prove the round trip.
- **Truncation:** lengths count characters, as Python's `len` on `str` does, not bytes.
