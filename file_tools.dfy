/**
 * The file tools of `file_tools.py` that compute something: the directory
 * listing, the text file read (cut at `Limit` characters, keeping the head) and
 * the download as a `data:` URI, whose MIME type comes from the path's
 * extension and whose payload is the base 64 encoding of the pulled bytes, and
 * the text file write, which pushes the content to the device.
 *
 * The temporary local files the download and the write go through are left
 * out: the pull is the device oracle's `pull`, answering with the file's bytes,
 * and the push is its `push` of the content itself.
 */
module FileTools {
  import opened Common
  import opened Text
  import opened AdbServer
  import Base64

  // ---------------------------------------------------------------- list_files

  const DefaultDir := "/sdcard"
  const ListLabel := "列出文件失败"

  /** The directory listed: the one given, or `/sdcard` when the argument is left out. */
  function DirOf(dir: Option<string>): string {
    match dir
    case None => DefaultDir
    case Some(p) => p
  }

  function ListCommand(dir: string): string {
    "ls -la " + dir
  }

  /** `list_files`: `ls -la` on the directory, answered with surrounding whitespace removed. */
  function ListFiles(devices: seq<Device>, id: Option<string>, dir: Option<string>): Run {
    match Resolve(devices, id)
    case Raised(m) => Run(Failure(ListLabel, m), [])
    case Ok(d) =>
      var op := Shell(ListCommand(DirOf(dir)));
      match d.shell([], op.command)
      case Raised(m) => Run(Failure(ListLabel, m), [op])
      case Ok(out) => Run(Strip(out), [op])
  }

  /**
   * One `ls -la` is sent, on `/sdcard` unless another directory is given, and
   * the answer is the listing with its surrounding whitespace removed: no
   * whitespace at either end, and stripping it again changes nothing.
   */
  lemma ListFilesSpec(devices: seq<Device>, id: Option<string>, dir: Option<string>)
    requires Resolve(devices, id).Ok?
    ensures var run := ListFiles(devices, id, dir);
      && run.sent == [Shell(ListCommand(if dir.None? then "/sdcard" else dir.value))]
      && var reply := Resolve(devices, id).value.shell([], ListCommand(DirOf(dir)));
      && (reply.Ok? ==>
            && run.output == Strip(reply.value)
            && IsStripOf(run.output, reply.value)
            && (run.output != [] ==> !IsSpace(run.output[0]) && !IsSpace(run.output[|run.output| - 1]))
            && Strip(run.output) == run.output
            && (run.output == [] <==> AllSpace(reply.value)))
      && (reply.Raised? ==> run.output == Failure(ListLabel, reply.message))
  {
    var reply := Resolve(devices, id).value.shell([], ListCommand(DirOf(dir)));
    var run := ListFiles(devices, id, dir);
    assert run.sent == [Shell(ListCommand(DirOf(dir)))];
    if reply.Ok? {
      assert run.output == Strip(reply.value);
      StripIdempotent(reply.value);
      StripTrims(reply.value);
    } else {
      assert run.output == Failure(ListLabel, reply.message);
    }
  }

  // ---------------------------------------------------------------- read_text_file

  const ReadLabel := "读取文件失败"
  const FileMarker := "...\n[文件太长，只显示前面部分]"

  function CatCommand(path: string): string {
    "cat " + path
  }

  /** `read_text_file`: `cat` the file, keep its head. */
  function ReadTextFile(devices: seq<Device>, id: Option<string>, path: string): Run {
    match Resolve(devices, id)
    case Raised(m) => Run(Failure(ReadLabel, m), [])
    case Ok(d) =>
      var op := Shell(CatCommand(path));
      match d.shell([], op.command)
      case Raised(m) => Run(Failure(ReadLabel, m), [op])
      case Ok(out) => Run(KeepHead(out, FileMarker), [op])
  }

  /**
   * A file of at most `Limit` characters comes back whole (exactly `Limit` is
   * not cut), a longer one as its first `Limit` characters followed by the marker.
   */
  lemma ReadTextFileTruncates(devices: seq<Device>, id: Option<string>, path: string)
    requires Resolve(devices, id).Ok?
    requires Resolve(devices, id).value.shell([], CatCommand(path)).Ok?
    ensures var text := Resolve(devices, id).value.shell([], CatCommand(path)).value;
      var run := ReadTextFile(devices, id, path);
      && run.sent == [Shell(CatCommand(path))]
      && (|text| <= 10000 ==> run.output == text)
      && (|text| > 10000 ==>
            StartsWith(run.output, text[..10000]) && EndsWith(run.output, FileMarker)
            && |run.output| == 10000 + |FileMarker|)
  {
    KeepHeadSpec(Resolve(devices, id).value.shell([], CatCommand(path)).value, FileMarker);
  }

  // ---------------------------------------------------------------- os.path.splitext

  /** `s.rfind(c)`: the last index of `c`, or -1. */
  function LastIndexOf(s: string, c: char): (r: int)
    ensures -1 <= r < |s|
    ensures r >= 0 ==> s[r] == c
    ensures forall k :: r < k < |s| ==> s[k] != c
    decreases |s|
  {
    if s == [] then -1
    else if s[|s| - 1] == c then |s| - 1
    else LastIndexOf(s[..|s| - 1], c)
  }

  predicate AllDots(s: string) {
    forall k :: 0 <= k < |s| ==> s[k] == '.'
  }

  /**
   * Where the extension starts, as `posixpath.splitext` finds it: at the last
   * '.' when it lies in the last path component and some character before it
   * in that component is not a '.'; otherwise there is none (`|p|`).
   */
  function ExtStart(p: string): (i: nat)
    ensures i <= |p|
  {
    var sep := LastIndexOf(p, '/');
    var dot := LastIndexOf(p, '.');
    if dot > sep && !AllDots(p[sep + 1..dot]) then dot else |p|
  }

  /** The extension `os.path.splitext` returns second: "" or the text from the last '.' on. */
  function Ext(p: string): string {
    p[ExtStart(p)..]
  }

  /** The root `os.path.splitext` returns first. */
  function Root(p: string): string {
    p[..ExtStart(p)]
  }

  /**
   * splitext cuts the path in two: the text is root then extension; an
   * extension starts with its only '.', holds no '/', and the root's last
   * component holds something besides dots.
   */
  lemma SplitExtSpec(p: string)
    ensures Root(p) + Ext(p) == p
    ensures Ext(p) != [] ==>
      && Ext(p)[0] == '.'
      && '/' !in Ext(p) && '.' !in Ext(p)[1..]
      && !AllDots(Root(p)[LastIndexOf(p, '/') + 1..])
  {
    var i := ExtStart(p);
    assert p[..i] + p[i..] == p;
    if i < |p| {
      var sep := LastIndexOf(p, '/');
      assert Root(p)[sep + 1..] == p[sep + 1..i];
      forall k | 0 <= k < |Ext(p)|
        ensures Ext(p)[k] != '/' && (k > 0 ==> Ext(p)[k] != '.')
      {
        assert Ext(p)[k] == p[i + k];
      }
    }
  }

  /** A name after the last '/' that starts with a '.' and holds no other has no extension (`.bashrc`). */
  lemma HiddenNameHasNoExt(dir: string, w: string)
    requires '/' !in w && '.' !in w
    ensures Ext(dir + "/." + w) == ""
  {
    var p := dir + "/." + w;
    assert p[|dir|] == '/' && p[|dir| + 1] == '.';
    forall k | |dir| + 1 < k < |p|
      ensures p[k] != '/' && p[k] != '.'
    {
      assert p[k] == w[k - |dir| - 2];
    }
    assert LastIndexOf(p, '/') == |dir|;
    assert LastIndexOf(p, '.') == |dir| + 1;
    assert AllDots(p[|dir| + 1..|dir| + 1]);
  }

  /** A name that does not start with '.' has, as its extension, everything from its last '.' on. */
  lemma NamedExt(dir: string, name: string, e: string)
    requires name != [] && name[0] != '.' && '/' !in name
    requires '/' !in e && '.' !in e
    ensures Ext(dir + "/" + name + "." + e) == "." + e
  {
    var p := dir + "/" + name + "." + e;
    var dot := |dir| + 1 + |name|;
    assert p[|dir|] == '/' && p[dot] == '.';
    forall k | |dir| < k < |p|
      ensures p[k] != '/'
    {
      if k < dot {
        assert p[k] == name[k - |dir| - 1];
      } else if k > dot {
        assert p[k] == e[k - dot - 1];
      }
    }
    forall k | dot < k < |p|
      ensures p[k] != '.'
    {
      assert p[k] == e[k - dot - 1];
    }
    assert LastIndexOf(p, '/') == |dir|;
    assert LastIndexOf(p, '.') == dot;
    assert p[|dir| + 1..dot][0] == name[0];
    assert p[dot..] == "." + e;
  }

  // ---------------------------------------------------------------- download_file

  const DownloadLabel := "下载文件失败"
  const DefaultMime := "application/octet-stream"

  /** The MIME types of `download_file`, by lower-case extension. */
  const MimeTypes: map<string, string> := map[
    ".png" := "image/png", ".jpg" := "image/jpeg", ".jpeg" := "image/jpeg", ".gif" := "image/gif",
    ".pdf" := "application/pdf", ".mp4" := "video/mp4", ".mp3" := "audio/mpeg", ".txt" := "text/plain"]

  /** `mime_types.get(ext.lower(), 'application/octet-stream')`. */
  function MimeType(ext: string): string {
    var key := Lower(ext);
    if key in MimeTypes then MimeTypes[key] else DefaultMime
  }

  /** The default type is given exactly to the extensions missing from the table (no entry maps to it). */
  lemma MimeTypeDefault(ext: string)
    ensures MimeType(ext) == DefaultMime <==> Lower(ext) !in MimeTypes
  {
    assert DefaultMime !in MimeTypes.Values;
  }

  /** Case does not matter, `.jpg` and `.jpeg` are both JPEG, and no extension at all is the default. */
  lemma MimeTypeExamples()
    ensures MimeType(".JPG") == "image/jpeg" && MimeType(".jpeg") == "image/jpeg"
    ensures MimeType(".Png") == "image/png"
    ensures MimeType("") == DefaultMime
  {
    assert Lower(".JPG") == ".jpg";
    assert Lower(".jpeg") == ".jpeg";
    assert Lower(".Png") == ".png";
    assert Lower("") == "";
  }

  function DataUri(mime: string, payload: string): string {
    "data:" + mime + ";base64," + payload
  }

  /** `download_file`: pull the file and answer with a base 64 `data:` URI typed by its extension. */
  function DownloadFile(devices: seq<Device>, id: Option<string>, path: string): Run {
    match Resolve(devices, id)
    case Raised(m) => Run(Failure(DownloadLabel, m), [])
    case Ok(d) =>
      match d.pull([], path)
      case Raised(m) => Run(Failure(DownloadLabel, m), [Pull(path)])
      case Ok(bytes) => Run(DataUri(MimeType(Ext(path)), Base64.Encode(bytes)), [Pull(path)])
  }

  /**
   * A pulled file comes back as "data:", its MIME type, ";base64," and a payload
   * that decodes to exactly the pulled bytes.
   */
  lemma DownloadRoundTrip(devices: seq<Device>, id: Option<string>, path: string)
    requires Resolve(devices, id).Ok?
    requires Resolve(devices, id).value.pull([], path).Ok?
    ensures var bytes := Resolve(devices, id).value.pull([], path).value;
      var run := DownloadFile(devices, id, path);
      var prefix := "data:" + MimeType(Ext(path)) + ";base64,";
      && run.sent == [Pull(path)]
      && StartsWith(run.output, prefix)
      && Base64.Decode(run.output[|prefix|..]) == Some(bytes)
  {
    var bytes := Resolve(devices, id).value.pull([], path).value;
    var prefix := "data:" + MimeType(Ext(path)) + ";base64,";
    var payload := Base64.Encode(bytes);
    assert DataUri(MimeType(Ext(path)), payload) == prefix + payload;
    assert (prefix + payload)[|prefix|..] == payload;
    Base64.DecodeEncode(bytes);
  }

  // ---------------------------------------------------------------- write_text_file

  const WriteLabel := "写入文件失败"

  /** `write_text_file`: the content is pushed to the device path (through a local file, left out). */
  function WriteTextFile(devices: seq<Device>, id: Option<string>, path: string, content: string): Run {
    match Resolve(devices, id)
    case Raised(m) => Run(Failure(WriteLabel, m), [])
    case Ok(d) =>
      match d.push([], content, path)
      case Raised(m) => Run(Failure(WriteLabel, m), [Push(content, path)])
      case Ok(_) => Run("成功将内容写入设备文件: " + path, [Push(content, path)])
  }

  /** One push of exactly the given content to the given path; the answer names the path or carries the push's failure. */
  lemma WriteTextFileSpec(devices: seq<Device>, id: Option<string>, path: string, content: string)
    requires Resolve(devices, id).Ok?
    ensures var run := WriteTextFile(devices, id, path, content);
      var reply := Resolve(devices, id).value.push([], content, path);
      && run.sent == [Push(content, path)]
      && (reply.Ok? ==> run.output == "成功将内容写入设备文件: " + path)
      && (reply.Raised? ==> run.output == "写入文件失败: " + reply.message)
  {
  }

  // ---------------------------------------------------------------- errors

  /** Every file tool answers a failure with its own label, ": " and the message. */
  lemma FileToolsLabelFailures(devices: seq<Device>, id: Option<string>, dir: Option<string>, path: string, content: string)
    requires Resolve(devices, id).Raised?
    ensures var m := Resolve(devices, id).message;
      && ListFiles(devices, id, dir) == Run("列出文件失败: " + m, [])
      && ReadTextFile(devices, id, path) == Run("读取文件失败: " + m, [])
      && DownloadFile(devices, id, path) == Run("下载文件失败: " + m, [])
      && WriteTextFile(devices, id, path, content) == Run("写入文件失败: " + m, [])
  {
  }

  /**
   * A device operation that raises is answered the same way: `cat` with the
   * read caption, the pull with the download caption, `ls` with the listing
   * caption, each followed by ": " and the exception's message.
   */
  lemma FileToolsOperationFailures(devices: seq<Device>, id: Option<string>, dir: Option<string>, path: string)
    requires Resolve(devices, id).Ok?
    ensures var d := Resolve(devices, id).value;
      var ls := d.shell([], ListCommand(DirOf(dir)));
      var cat := d.shell([], CatCommand(path));
      var pull := d.pull([], path);
      && (ls.Raised? ==> ListFiles(devices, id, dir) == Run("列出文件失败: " + ls.message, [Shell(ListCommand(DirOf(dir)))]))
      && (cat.Raised? ==> ReadTextFile(devices, id, path) == Run("读取文件失败: " + cat.message, [Shell(CatCommand(path))]))
      && (pull.Raised? ==> DownloadFile(devices, id, path) == Run("下载文件失败: " + pull.message, [Pull(path)]))
  {
  }
}
