/** The HTTP routes of the web application: the order of the upload checks, the form-flag
    parsing, the per-task status table and the URLs `get_scenes` adds to each scene. The file
    system, the request object and the generator are parameters. */
module WebApp {
  import opened Wrappers
  import opened Text

  // ---------------------------------------------------------------------------
  // File names

  /** Index of the last '.' in `s`, if any. */
  function LastDot(s: string): (r: Option<nat>)
    ensures r.Some? ==> r.value < |s| && s[r.value] == '.' && forall i :: r.value < i < |s| ==> s[i] != '.'
    ensures r.None? ==> forall i :: 0 <= i < |s| ==> s[i] != '.'
  {
    if s == [] then None
    else if s[|s| - 1] == '.' then Some(|s| - 1)
    else LastDot(s[..|s| - 1])
  }

  /** `filename.rsplit('.', 1)[1]` when the name has a dot. */
  function Extension(filename: string): (e: Option<string>)
    ensures e.Some? <==> exists i :: 0 <= i < |filename| && filename[i] == '.'
    ensures e.Some? ==> IsSuffix("." + e.value, filename) && forall i :: 0 <= i < |e.value| ==> e.value[i] != '.'
  {
    match LastDot(filename)
    case None => None
    case Some(k) =>
      var e := filename[k + 1..];
      assert ("." + e) == filename[|filename| - |"." + e|..];
      Some(e)
  }

  const AllowedExtensions: set<string> := {"txt"}

  /** `allowed_file`: the name has a dot and the text after the last one, lower-cased, is an
      allowed extension. */
  function AllowedFile(filename: string): (b: bool)
    ensures b <==> Extension(filename).Some? && Lower(Extension(filename).value) in AllowedExtensions
  {
    match Extension(filename)
    case None => false
    case Some(e) => Lower(e) in AllowedExtensions
  }

  /** The upper-case ".TXT" is accepted; a name without a dot or whose last part is not the
      extension is not. */
  lemma AllowedFileExamples()
    ensures AllowedFile("chapter.one.TXT")
    ensures !AllowedFile("txt")
    ensures !AllowedFile("novel.txt.zip")
  {
    assert LastDot("chapter.one.TXT") == Some(11) by {
      assert "chapter.one.TXT"[..14][..13][..12] == "chapter.one.";
    }
    assert "chapter.one.TXT"[12..] == "TXT";
    assert Lower("TXT") == "txt";
    assert Extension("txt").None? by {
      assert forall i :: 0 <= i < 3 ==> "txt"[i] != '.';
    }
    assert LastDot("novel.txt.zip") == Some(9) by {
      var s := "novel.txt.zip";
      assert s[..12] == "novel.txt.zi";
      assert s[..12][..11] == "novel.txt.z";
      assert s[..12][..11][..10] == "novel.txt.";
      assert LastDot(s[..12][..11]) == Some(9);
      assert LastDot(s[..12]) == Some(9);
    }
    assert "novel.txt.zip"[10..] == "zip";
    assert Lower("zip") == "zip";
  }

  // ---------------------------------------------------------------------------
  // Form values

  /** `form.get(key, default)`. */
  function FormValue(form: map<string, string>, key: string, default: string): string {
    if key in form then form[key] else default
  }

  /** `form.get(key, default).lower() == 'true'`. */
  function FormFlag(form: map<string, string>, key: string, default: string): (b: bool)
    ensures key in form ==> (b <==> Lower(form[key]) == "true")
    ensures key !in form ==> (b <==> Lower(default) == "true")
  {
    Lower(FormValue(form, key, default)) == "true"
  }

  /** The flags' defaults: video off, analysis and storyboard on; "TRUE" counts as true. */
  lemma FormFlagDefaults(form: map<string, string>)
    requires "enable_video" !in form && "use_ai_analysis" !in form && "generate_storyboard" !in form
    ensures !FormFlag(form, "enable_video", "false")
    ensures FormFlag(form, "use_ai_analysis", "true")
    ensures FormFlag(form, "generate_storyboard", "true")
    ensures FormFlag(form["enable_video" := "TRUE"], "enable_video", "false")
  {
    assert Lower("false") == "false";
    assert Lower("true") == "true";
    assert Lower("TRUE") == "true";
  }

  /** The value of a non-empty run of decimal digits. */
  function DigitsValue(s: string): nat
    requires forall i :: 0 <= i < |s| ==> '0' <= s[i] <= '9'
  {
    if s == [] then 0 else DigitsValue(s[..|s| - 1]) * 10 + (s[|s| - 1] as int - '0' as int)
  }

  predicate AllDigits(s: string) {
    |s| > 0 && forall i :: 0 <= i < |s| ==> '0' <= s[i] <= '9'
  }

  /** A decimal literal: digits with an optional leading '+' or '-'. */
  predicate IsIntLiteral(t: string) {
    AllDigits(t) || (t != [] && (t[0] == '+' || t[0] == '-') && AllDigits(t[1..]))
  }

  /** `int` of an already stripped text. */
  function ParseStripped(t: string): (r: Option<int>)
    ensures r.Some? <==> IsIntLiteral(t)
    ensures AllDigits(t) ==> r == Some(DigitsValue(t))
    ensures t != [] && t[0] == '+' && AllDigits(t[1..]) ==> r == Some(DigitsValue(t[1..]))
    ensures t != [] && t[0] == '-' && AllDigits(t[1..]) ==> r == Some(0 - DigitsValue(t[1..]))
  {
    if t == [] then None
    else if t[0] == '-' && AllDigits(t[1..]) then Some(0 - DigitsValue(t[1..]) as int)
    else if t[0] == '+' && AllDigits(t[1..]) then Some(DigitsValue(t[1..]))
    else if AllDigits(t) then Some(DigitsValue(t))
    else None
  }

  /** `int(s)` for a decimal literal with an optional sign and surrounding white space; `None`
      where `int` raises (the form then yields its default, `None`). */
  function ParseInt(s: string): (r: Option<int>)
    ensures r.Some? <==> IsIntLiteral(PyStrip(s))
    ensures AllDigits(PyStrip(s)) ==> r == Some(DigitsValue(PyStrip(s)))
    ensures var t := PyStrip(s); t != [] && t[0] == '+' && AllDigits(t[1..]) ==> r == Some(DigitsValue(t[1..]))
    ensures var t := PyStrip(s); t != [] && t[0] == '-' && AllDigits(t[1..]) ==> r == Some(0 - DigitsValue(t[1..]))
  {
    ParseStripped(PyStrip(s))
  }

  lemma {:induction false} DigitsOfNat(n: nat)
    ensures AllDigits(NatToString(n)) && DigitsValue(NatToString(n)) == n
  {
    var s := NatToString(n);
    if n >= 10 {
      DigitsOfNat(n / 10);
      assert s[..|s| - 1] == NatToString(n / 10);
    }
  }

  /** A number written out in decimal reads back as that number. */
  lemma ParseIntOfNat(n: nat)
    ensures ParseInt(NatToString(n)) == Some(n)
  {
    var s := NatToString(n);
    DigitsOfNat(n);
    StripOfStripped(s, IsPyWhitespace);
  }

  /** `str(n)` for any integer: a '-' before the digits of a negative number. */
  function IntText(n: int): (t: string)
    ensures n >= 0 ==> t == NatToString(n)
    ensures n < 0 ==> t == "-" + NatToString(-n)
  {
    if n >= 0 then NatToString(n) else "-" + NatToString(-n)
  }

  /** Any integer written out by `str`, padded with white space, reads back as that integer. */
  lemma ParseIntOfInt(n: int, left: string, right: string)
    requires forall i :: 0 <= i < |left| ==> IsPyWhitespace(left[i])
    requires forall i :: 0 <= i < |right| ==> IsPyWhitespace(right[i])
    ensures ParseInt(left + IntText(n) + right) == Some(n)
  {
    IntTextLiteral(n);
    ParsePadded(left, IntText(n), right);
  }

  /** `str(n)` is a literal without surrounding white space that `int` reads as `n`. */
  lemma IntTextLiteral(n: int)
    ensures var t := IntText(n);
      && t != [] && !IsPyWhitespace(t[0]) && !IsPyWhitespace(t[|t| - 1])
      && ParseStripped(t) == Some(n)
  {
    if n >= 0 {
      DigitsOfNat(n);
    } else {
      DigitsOfNat(-n);
      SignedLiteral('-', NatToString(-n), -n);
    }
  }

  /** A '+' or '-' before the digits, padded with white space, reads as the number or its
      negation. */
  lemma ParseIntSigned(m: nat, sign: char, left: string, right: string)
    requires sign == '+' || sign == '-'
    requires forall i :: 0 <= i < |left| ==> IsPyWhitespace(left[i])
    requires forall i :: 0 <= i < |right| ==> IsPyWhitespace(right[i])
    ensures ParseInt(left + ([sign] + NatToString(m)) + right) == Some(if sign == '-' then 0 - m else m)
  {
    DigitsOfNat(m);
    SignedLiteral(sign, NatToString(m), m);
    ParsePadded(left, [sign] + NatToString(m), right);
  }

  /** A sign before the digits of `m` reads as `m` or `-m`. */
  lemma SignedLiteral(sign: char, digits: string, m: nat)
    requires sign == '+' || sign == '-'
    requires AllDigits(digits) && DigitsValue(digits) == m
    ensures var t := [sign] + digits;
      && !IsPyWhitespace(t[0]) && !IsPyWhitespace(t[|t| - 1])
      && ParseStripped(t) == Some(if sign == '-' then 0 - m else m)
  {
    var t := [sign] + digits;
    assert t[1..] == digits;
    assert t[|t| - 1] == digits[|digits| - 1];
  }

  /** White space around a literal does not change what `int` reads. */
  lemma ParsePadded(left: string, t: string, right: string)
    requires forall i :: 0 <= i < |left| ==> IsPyWhitespace(left[i])
    requires forall i :: 0 <= i < |right| ==> IsPyWhitespace(right[i])
    requires t != [] && !IsPyWhitespace(t[0]) && !IsPyWhitespace(t[|t| - 1])
    ensures ParseInt(left + t + right) == ParseStripped(t)
  {
    StripPadded(left, t, right, IsPyWhitespace);
  }

  // ---------------------------------------------------------------------------
  // Uploads

  /** An uploaded file part: its name and its text, `None` when its bytes are not valid UTF-8
      (the `open(..., encoding='utf-8').read()` of the saved file then raises). */
  datatype FilePart = FilePart(filename: string, content: Option<string>)

  /** What the request carries: the multipart files and the form fields. */
  datatype UploadRequest = UploadRequest(files: map<string, FilePart>, form: map<string, string>)

  /** The arguments of the background generation thread. */
  datatype Job = Job(
    taskId: string,
    novelPath: string,
    maxScenes: Option<int>,
    apiKey: string,
    provider: string,
    customPrompt: string,
    enableVideo: bool,
    useAiAnalysis: bool,
    generateStoryboard: bool)

  /** The saved upload and the character count of the statistics row written for it, `None`
      when reading the saved file raised before the row was written. */
  datatype Stored = Stored(path: string, uploadTextChars: Option<nat>)

  datatype UploadResponse = UploadResponse(code: nat, error: Option<string>, job: Option<Job>, stored: Option<Stored>)

  const UploadFolder := "uploads"
  const NoFileMessage := "没有上传文件"
  const NoFilenameMessage := "没有选择文件"
  const BadTypeMessage := "不支持的文件类型"
  const NeedKeyMessage := "需要提供 API Key"

  /** The API key: the form's, or the environment's when the form gives none. */
  function ApiKey(form: map<string, string>, env: Option<string>): (k: Option<string>)
    ensures k.Some? ==> k.value != ""
    ensures FormValue(form, "api_key", "") != "" ==> k == Some(FormValue(form, "api_key", ""))
  {
    var fromForm := FormValue(form, "api_key", "");
    if fromForm != "" then Some(fromForm)
    else if env.Some? && env.value != "" then env
    else None
  }

  /** `upload_novel`, given the fresh task id, `secure_filename` and the environment key. */
  function UploadNovel(req: UploadRequest, taskId: string, secure: string -> string, env: Option<string>): (r: UploadResponse)
    ensures r.code == 200 <==> r.job.Some?
    ensures r.code != 200 ==> (r.code == 400 && r.error.Some?) || (r.code == 500 && r.error.None?)
    ensures "novel" !in req.files ==> r == UploadResponse(400, Some(NoFileMessage), None, None)
    ensures "novel" in req.files && req.files["novel"].filename == "" ==>
              r == UploadResponse(400, Some(NoFilenameMessage), None, None)
    ensures "novel" in req.files && req.files["novel"].filename != "" && !AllowedFile(req.files["novel"].filename) ==>
              r == UploadResponse(400, Some(BadTypeMessage), None, None)
    ensures r.stored.Some? <==> "novel" in req.files && AllowedFile(req.files["novel"].filename)
    ensures r.stored.Some? ==>
              var file := req.files["novel"];
              && r.stored.value.path == UploadFolder + "/" + taskId + "_" + secure(file.filename)
              && (file.content.Some? ==> r.stored.value.uploadTextChars == Some(|file.content.value|))
              && (file.content.None? ==> r.stored.value.uploadTextChars.None?)
    ensures r.code == 500 <==> r.stored.Some? && req.files["novel"].content.None?
    ensures r.stored.Some? && req.files["novel"].content.Some? && ApiKey(req.form, env).None? ==>
              r.code == 400 && r.error == Some(NeedKeyMessage)
    ensures r.stored.Some? && req.files["novel"].content.Some? && ApiKey(req.form, env).Some? ==>
              r.code == 200 && r.error.None?
    ensures r.job.Some? ==>
      && r.job.value.taskId == taskId && Some(r.job.value.apiKey) == ApiKey(req.form, env)
      && r.job.value.enableVideo == FormFlag(req.form, "enable_video", "false")
      && r.job.value.useAiAnalysis == FormFlag(req.form, "use_ai_analysis", "true")
      && r.job.value.generateStoryboard == FormFlag(req.form, "generate_storyboard", "true")
  {
    if "novel" !in req.files then UploadResponse(400, Some(NoFileMessage), None, None)
    else
      var file := req.files["novel"];
      if file.filename == "" then UploadResponse(400, Some(NoFilenameMessage), None, None)
      else if !AllowedFile(file.filename) then UploadResponse(400, Some(BadTypeMessage), None, None)
      else
        var path := UploadFolder + "/" + taskId + "_" + secure(file.filename);
        match file.content
        case None => UploadResponse(500, None, None, Some(Stored(path, None)))
        case Some(text) =>
          var stored := Stored(path, Some(|text|));
          var form := req.form;
          var maxScenes := if "max_scenes" in form then ParseInt(form["max_scenes"]) else None;
          match ApiKey(form, env)
          case None => UploadResponse(400, Some(NeedKeyMessage), None, Some(stored))
          case Some(key) =>
            var job := Job(taskId, path, maxScenes, key,
                           FormValue(form, "api_provider", "qiniu"),
                           FormValue(form, "custom_prompt", ""),
                           FormFlag(form, "enable_video", "false"),
                           FormFlag(form, "use_ai_analysis", "true"),
                           FormFlag(form, "generate_storyboard", "true"));
            UploadResponse(200, None, Some(job), Some(stored))
  }

  // ---------------------------------------------------------------------------
  // Task status

  /** What the generator hands back: the output folder of each scene. */
  datatype Metadata = Metadata(sceneFolders: seq<string>)

  datatype StatusEntry = StatusEntry(status: string, progress: int, message: string, metadata: Option<Metadata>)

  const ProcessingEntry := StatusEntry("processing", 0, "正在解析小说...", None)

  function CompletedEntry(m: Metadata): StatusEntry {
    StatusEntry("completed", 100, "生成完成", Some(m))
  }

  function ErrorEntry(message: string): StatusEntry {
    StatusEntry("error", 0, message, None)
  }

  /** The message of the `TypeError` that the generator's constructor raises. */
  const UnexpectedKeywordText := "AnimeGenerator.__init__() got an unexpected keyword argument 'enable_video'"

  /** The entry `generate_anime_async` leaves as written: the generator is constructed with an
      `enable_video` keyword its constructor does not take, so the call raises before any work. */
  function AsWrittenFinalStatus(job: Job): (e: StatusEntry)
    ensures e.status == "error" && e.metadata.None?
  {
    ErrorEntry(UnexpectedKeywordText)
  }

  /** The entry left by the generation as intended, given what the generator returns or the
      message of the exception it raises. */
  function FinalStatus(job: Job, generate: Job -> Result<Metadata, string>): (e: StatusEntry)
    ensures generate(job).Success? ==> e.status == "completed" && e.progress == 100 && e.metadata == Some(generate(job).value)
    ensures generate(job).Failure? ==> e.status == "error" && e.message == generate(job).error && e.metadata.None?
  {
    match generate(job)
    case Success(m) => CompletedEntry(m)
    case Failure(msg) => ErrorEntry(msg)
  }

  const UnknownTaskMessage := "任务不存在"
  const NotFinishedMessage := "任务未完成"

  /** `get_status`: 404 for an unknown task, otherwise the stored entry as it is. */
  function GetStatus(table: map<string, StatusEntry>, taskId: string): (r: (nat, Option<StatusEntry>))
    ensures r.0 == 404 <==> taskId !in table
    ensures r.0 == 404 ==> r.1.None?
    ensures taskId in table ==> r == (200, Some(table[taskId]))
  {
    if taskId !in table then (404, None) else (200, Some(table[taskId]))
  }

  /** The error `get_scenes` answers before reading any scene, if any. */
  function ScenesGate(table: map<string, StatusEntry>, taskId: string): (r: Option<(nat, string)>)
    ensures taskId !in table ==> r == Some((404, UnknownTaskMessage))
    ensures taskId in table ==> (r.None? <==> table[taskId].status == "completed")
    ensures taskId in table && r.Some? ==> r == Some((400, NotFinishedMessage))
  {
    if taskId !in table then Some((404, UnknownTaskMessage))
    else if table[taskId].status != "completed" then Some((400, NotFinishedMessage))
    else None
  }

  /** As written, a generated task's scenes can never be fetched: every task ends in 'error'. */
  lemma AsWrittenScenesNeverServed(table: map<string, StatusEntry>, job: Job)
    ensures ScenesGate(table[job.taskId := AsWrittenFinalStatus(job)], job.taskId) == Some((400, NotFinishedMessage))
  {
  }

  /** With the generator called as intended, a successful generation makes the scenes available. */
  lemma ScenesServedAfterSuccess(table: map<string, StatusEntry>, job: Job, generate: Job -> Result<Metadata, string>)
    requires generate(job).Success?
    ensures ScenesGate(table[job.taskId := FinalStatus(job, generate)], job.taskId).None?
  {
  }

  // ---------------------------------------------------------------------------
  // Scene listings

  /** A storyboard shot of a scene's `metadata.json`; a missing path is the empty string. */
  datatype Shot = Shot(path: string, url: Option<string>)

  /** The parts of a scene's `metadata.json` that `get_scenes` reads; a missing or null video
      path is the empty string. */
  datatype SceneFile = SceneFile(storyboardShots: seq<Shot>, videoPath: string)

  /** What opening a scene folder's `metadata.json` gives: no file, so the folder is skipped; a
      file that exists but whose reading raises (not UTF-8, not JSON, a shot that is not an
      object); or the parsed content. */
  datatype SceneRead = Missing | Raises | Parsed(data: SceneFile)

  /** Whether the metadata file of some folder exists but cannot be read. */
  predicate AnyRaises(folders: seq<string>, read: string -> SceneRead) {
    exists k :: 0 <= k < |folders| && read(folders[k]).Raises?
  }

  /** The scene as served, with the URLs added. */
  datatype SceneView = SceneView(
    storyboardShots: seq<Shot>,
    videoPath: string,
    shotUrls: Option<seq<Shot>>,
    imageUrl: Option<string>,
    audioUrl: string,
    videoUrl: Option<string>)

  const FileRoute := "/api/file/"

  /** Each shot with a path, given the URL of its file. */
  function ShotsWithUrls(shots: seq<Shot>): (r: seq<Shot>)
    ensures |r| <= |shots|
    ensures forall k :: 0 <= k < |r| ==> r[k].path != "" && r[k].url == Some(FileRoute + r[k].path)
  {
    if shots == [] then []
    else
      var rest := ShotsWithUrls(shots[..|shots| - 1]);
      var last := shots[|shots| - 1];
      if last.path != "" then rest + [Shot(last.path, Some(FileRoute + last.path))] else rest
  }

  /** The paths of the shots, in order. */
  function ShotPaths(shots: seq<Shot>): (ps: seq<string>)
    ensures |ps| == |shots|
    ensures forall k :: 0 <= k < |shots| ==> ps[k] == shots[k].path
  {
    seq(|shots|, k requires 0 <= k < |shots| => shots[k].path)
  }

  /** A shot path that `get_scenes` gives a URL (a non-empty one). */
  predicate NonEmptyPath(path: string) {
    path != ""
  }

  /** Every shot with a non-empty path is listed, in shot order, and nothing else is. */
  lemma {:induction false} ShotsWithUrlsComplete(shots: seq<Shot>)
    ensures ShotPaths(ShotsWithUrls(shots)) == Filter(ShotPaths(shots), NonEmptyPath)
  {
    if shots != [] {
      var init := shots[..|shots| - 1];
      var last := shots[|shots| - 1];
      var rest := ShotsWithUrls(init);
      ShotsWithUrlsComplete(init);
      assert ShotPaths(shots) == ShotPaths(init) + [last.path];
      FilterAppend(ShotPaths(init), last.path, NonEmptyPath);
      if last.path != "" {
        assert ShotPaths(rest + [Shot(last.path, Some(FileRoute + last.path))]) == ShotPaths(rest) + [last.path];
      }
    }
  }

  /** The shots themselves gain the same URL, in place. */
  function MarkShots(shots: seq<Shot>): (r: seq<Shot>)
    ensures |r| == |shots|
    ensures forall k :: 0 <= k < |shots| ==>
              && r[k].path == shots[k].path
              && r[k].url == if shots[k].path != "" then Some(FileRoute + shots[k].path) else shots[k].url
  {
    seq(|shots|, k requires 0 <= k < |shots| =>
      if shots[k].path != "" then Shot(shots[k].path, Some(FileRoute + shots[k].path)) else shots[k])
  }

  /** One scene as `get_scenes` serves it. */
  function ViewScene(folder: string, data: SceneFile): (v: SceneView)
    ensures v.imageUrl.Some? <==> data.storyboardShots == []
    ensures v.imageUrl.Some? ==> v.imageUrl.value == FileRoute + folder + "/scene.png"
    ensures v.shotUrls.Some? <==> data.storyboardShots != []
    ensures v.audioUrl == FileRoute + folder + "/narration.mp3"
    ensures v.videoUrl.Some? <==> data.videoPath != ""
    ensures v.videoUrl.Some? ==> v.videoUrl.value == FileRoute + folder + "/scene.mp4"
  {
    var shots := data.storyboardShots;
    SceneView(
      if shots != [] then MarkShots(shots) else shots,
      data.videoPath,
      if shots != [] then Some(ShotsWithUrls(shots)) else None,
      if shots != [] then None else Some(FileRoute + folder + "/scene.png"),
      FileRoute + folder + "/narration.mp3",
      if data.videoPath != "" then Some(FileRoute + folder + "/scene.mp4") else None)
  }

  /** The scenes served for the given folders: those whose metadata file was parsed, in order.
      It is what `get_scenes` serves when no file raises (AnyRaises). */
  function ViewScenes(folders: seq<string>, read: string -> SceneRead): (r: seq<SceneView>)
    ensures |r| <= |folders|
    ensures (forall k :: 0 <= k < |folders| ==> read(folders[k]).Parsed?) ==> |r| == |folders|
    ensures (forall k :: 0 <= k < |folders| ==> !read(folders[k]).Parsed?) ==> r == []
  {
    if folders == [] then []
    else
      var rest := ViewScenes(folders[..|folders| - 1], read);
      var f := folders[|folders| - 1];
      match read(f)
      case Parsed(data) => rest + [ViewScene(f, data)]
      case _ => rest
  }

  /** Whether a folder's metadata file was parsed. */
  function Readable(read: string -> SceneRead): (keep: string -> bool) {
    f => read(f).Parsed?
  }

  /** For any mix of folders, the served scenes are the views of the readable folders, in
      folder order. */
  lemma {:induction false} ViewScenesReadable(folders: seq<string>, read: string -> SceneRead)
    ensures var readable := Filter(folders, Readable(read));
      && |ViewScenes(folders, read)| == |readable|
      && forall k :: 0 <= k < |readable| ==>
           read(readable[k]).Parsed? && ViewScenes(folders, read)[k] == ViewScene(readable[k], read(readable[k]).data)
  {
    if folders != [] {
      var init := folders[..|folders| - 1];
      var f := folders[|folders| - 1];
      assert folders == init + [f];
      ViewScenesReadable(init, read);
      FilterAppend(init, f, Readable(read));
    }
  }

  /** Every folder whose metadata can be read gives one served scene, in folder order. */
  lemma {:induction false} ViewScenesAllReadable(folders: seq<string>, read: string -> SceneRead, k: nat)
    requires forall j :: 0 <= j < |folders| ==> read(folders[j]).Parsed?
    requires k < |folders|
    ensures ViewScenes(folders, read)[k] == ViewScene(folders[k], read(folders[k]).data)
  {
    if k < |folders| - 1 {
      ViewScenesAllReadable(folders[..|folders| - 1], read, k);
    }
  }

  /** The in-memory status table of the running application. */
  class Application {
    var generationStatus: map<string, StatusEntry>

    constructor()
      ensures generationStatus == map[]
    {
      generationStatus := map[];
    }

    /** `generate_anime_async` with the generator called with the arguments it accepts: the
        task is first marked as processing and then as completed or failed. */
    method GenerateAnimeAsync(job: Job, generate: Job -> Result<Metadata, string>)
      modifies this
      ensures generationStatus == old(generationStatus)[job.taskId := FinalStatus(job, generate)]
    {
      generationStatus := generationStatus[job.taskId := ProcessingEntry];
      var outcome := generate(job);
      match outcome {
        case Success(metadata) =>
          generationStatus := generationStatus[job.taskId := CompletedEntry(metadata)];
        case Failure(message) =>
          generationStatus := generationStatus[job.taskId := ErrorEntry(message)];
      }
    }

    /** `get_scenes`: the gates, then one served scene per parsed metadata file. A metadata file
        that exists but cannot be read raises out of the view, and Flask answers 500 with its
        own error page, which carries no JSON `error`. */
    method GetScenes(taskId: string, read: string -> SceneRead)
      returns (code: nat, error: Option<string>, scenes: seq<SceneView>)
      ensures ScenesGate(generationStatus, taskId).Some? ==>
        code == ScenesGate(generationStatus, taskId).value.0 && error == Some(ScenesGate(generationStatus, taskId).value.1) && scenes == []
      ensures ScenesGate(generationStatus, taskId).None? ==>
        var m := generationStatus[taskId].metadata;
        var folders := if m.Some? then m.value.sceneFolders else [];
        && error.None?
        && (AnyRaises(folders, read) ==> code == 500 && scenes == [])
        && (!AnyRaises(folders, read) ==> code == 200 && scenes == ViewScenes(folders, read))
    {
      var gate := ScenesGate(generationStatus, taskId);
      if gate.Some? {
        return gate.value.0, Some(gate.value.1), [];
      }
      var entry := generationStatus[taskId];
      var folders := if entry.metadata.Some? then entry.metadata.value.sceneFolders else [];
      var raised;
      scenes, raised := CollectScenes(folders, read);
      if raised {
        return 500, None, [];
      }
      return 200, None, scenes;
    }
  }

  /** The loop of `get_scenes` over the scene folders of the metadata. */
  method CollectScenes(folders: seq<string>, read: string -> SceneRead) returns (scenes: seq<SceneView>, raised: bool)
    ensures raised == AnyRaises(folders, read)
    ensures raised ==> scenes == []
    ensures !raised ==> scenes == ViewScenes(folders, read)
  {
    scenes := [];
    for i := 0 to |folders|
      invariant scenes == ViewScenes(folders[..i], read)
      invariant !AnyRaises(folders[..i], read)
    {
      ViewScenesStep(folders, i, read);
      var data := read(folders[i]);
      if data.Raises? {
        RaisesAt(folders, i, read);
        return [], true;
      }
      NoRaiseStep(folders, i, read);
      if data.Parsed? {
        scenes := scenes + [ViewScene(folders[i], data.data)];
      }
    }
    WholePrefix(folders);
    return scenes, false;
  }

  /** A folder whose file raises makes the listing raise. */
  lemma RaisesAt(folders: seq<string>, i: nat, read: string -> SceneRead)
    requires i < |folders| && read(folders[i]).Raises?
    ensures AnyRaises(folders, read)
  {
  }

  lemma WholePrefix(folders: seq<string>)
    ensures folders[..|folders|] == folders
  {
  }

  /** A folder whose file does not raise keeps a prefix free of raising files. */
  lemma NoRaiseStep(folders: seq<string>, i: nat, read: string -> SceneRead)
    requires i < |folders| && !AnyRaises(folders[..i], read) && !read(folders[i]).Raises?
    ensures !AnyRaises(folders[..i + 1], read)
  {
    var next := folders[..i + 1];
    forall k | 0 <= k < |next|
      ensures !read(next[k]).Raises?
    {
      if k < i {
        assert next[k] == folders[..i][k];
      }
    }
  }

  /** One more folder adds its view when its metadata file was parsed. */
  lemma ViewScenesStep(folders: seq<string>, i: nat, read: string -> SceneRead)
    requires i < |folders|
    ensures ViewScenes(folders[..i + 1], read) ==
      ViewScenes(folders[..i], read) + (if read(folders[i]).Parsed? then [ViewScene(folders[i], read(folders[i]).data)] else [])
  {
    var next := folders[..i + 1];
    assert next[..|next| - 1] == folders[..i] && next[|next| - 1] == folders[i];
  }
}
