/** The video generator: the prompt and cache key, the bounded retry loop of `generate_video`,
    the task payload, the status poll of `_wait_for_completion` and the prompt merged from
    several scenes. The HTTP service, the MD5 digest, the file system and the clock are
    parameters. */
module VideoGenerator {
  import opened Wrappers
  import opened Text

  const DefaultStyleSuffix := "动漫角色统一，声音与剧情匹配，每帧切换时，角色风格保持连贯，有流畅的过渡动画"

  /** The prompt sent to the service: the caller's keywords, when given, or the fixed style
      suffix, after the prompt and a comma. */
  function FullPrompt(prompt: string, keywords: Option<string>): (r: string)
    ensures IsPrefix(prompt + ", ", r)
    ensures keywords.Some? && keywords.value != "" ==> r[|prompt + ", "|..] == keywords.value
    ensures !(keywords.Some? && keywords.value != "") ==> r[|prompt + ", "|..] == DefaultStyleSuffix
  {
    var tail := if keywords.Some? && keywords.value != "" then keywords.value else DefaultStyleSuffix;
    var r := prompt + ", " + tail;
    assert r[..|prompt + ", "|] == prompt + ", ";
    r
  }

  /** `video_<md5(full_prompt + "_" + aspect_ratio)>.mp4` inside the cache folder. */
  function CachePath(cacheDir: string, fullPrompt: string, aspectRatio: string, md5: string -> string): (p: string)
    ensures IsPrefix(cacheDir + "/video_", p) && IsSuffix(".mp4", p)
    ensures |p| == |cacheDir + "/video_"| + |md5(fullPrompt + "_" + aspectRatio)| + 4
    ensures p[|cacheDir + "/video_"|..|p| - 4] == md5(fullPrompt + "_" + aspectRatio)
  {
    var head := cacheDir + "/video_";
    var p := head + md5(fullPrompt + "_" + aspectRatio) + ".mp4";
    assert p[..|head|] == head;
    assert p[|p| - 4..] == ".mp4";
    p
  }

  /** In one cache folder, two requests share a cached file exactly when their keys have the
      same digest. */
  lemma CachePathShared(cacheDir: string, p1: string, a1: string, p2: string, a2: string, md5: string -> string)
    ensures CachePath(cacheDir, p1, a1, md5) == CachePath(cacheDir, p2, a2, md5) <==>
            md5(p1 + "_" + a1) == md5(p2 + "_" + a2)
  {
    var x := CachePath(cacheDir, p1, a1, md5);
    var y := CachePath(cacheDir, p2, a2, md5);
    if x == y {
      assert x[|cacheDir + "/video_"|..|x| - 4] == y[|cacheDir + "/video_"|..|y| - 4];
    }
  }

  // ---------------------------------------------------------------------------
  // Creating a task

  /** The JSON body of a task creation. */
  datatype Payload = Payload(
    instancePrompts: seq<string>,
    durationSeconds: int,
    sampleCount: nat,
    aspectRatio: string,
    generateAudio: bool,
    personGeneration: string,
    model: string)

  const VideoModel := "veo-3.1-fast-generate-preview"

  /** `_create_video_task`'s payload: one instance holding only the prompt. */
  function CreatePayload(prompt: string, imagePath: Option<string>, duration: int, aspectRatio: string): (p: Payload)
    ensures p.instancePrompts == [prompt]
    ensures p.durationSeconds == duration && p.aspectRatio == aspectRatio
    ensures p.sampleCount == 1 && p.generateAudio && p.model == VideoModel
  {
    Payload([prompt], duration, 1, aspectRatio, true, "allow_adult", VideoModel)
  }

  /** The image path is never sent: two requests that differ only in it are the same. */
  lemma ImagePathNotSent(prompt: string, a: Option<string>, b: Option<string>, duration: int, aspectRatio: string)
    ensures CreatePayload(prompt, a, duration, aspectRatio) == CreatePayload(prompt, b, duration, aspectRatio)
  {
  }

  /** The answer to a task creation: an exception (HTTP error, bad JSON) or the JSON body,
      whose "id" may be missing. */
  datatype TaskResponse = TaskRaised | TaskJson(id: Option<string>)

  /** The task id `_create_video_task` returns: `None` on any exception. */
  function TaskIdOf(r: TaskResponse): (id: Option<string>)
    ensures r.TaskRaised? ==> id.None?
    ensures r.TaskJson? ==> id == r.id
  {
    match r
    case TaskRaised => None
    case TaskJson(id) => id
  }

  // ---------------------------------------------------------------------------
  // Polling a task

  datatype Video = Video(url: Option<string>)

  /** The answer to one status query. A body without "data" or "videos" has no videos; a
      `"data": null` or a video that is not an object raises inside the loop's `try`, which is
      `PollRaised`, and the loop polls again. */
  datatype PollResponse = PollRaised | PollJson(status: Option<string>, videos: seq<Video>)

  predicate IsCompleted(r: PollResponse) {
    r.PollJson? && r.status == Some("Completed")
  }

  predicate IsRefused(r: PollResponse) {
    r.PollJson? && (r.status == Some("Failed") || r.status == Some("Rejected"))
  }

  /** Every pass of the poll loop but the last sleeps `pollInterval` seconds, so the clock read
      before the `k`-th query is at least `k * pollInterval` seconds after the start. */
  ghost predicate ClockAdvances(clock: nat -> real, pollInterval: nat) {
    pollInterval > 0 && forall k: nat :: clock(k) >= (k * pollInterval) as real
  }

  /** What `_wait_for_completion` returns when the `k`-th loop check reads `clock(k)` and the
      `k`-th status query answers `poll(k)`. */
  function WaitResult(maxWait: nat, pollInterval: nat, clock: nat -> real, poll: nat -> PollResponse, k: nat): (r: Option<string>)
    requires ClockAdvances(clock, pollInterval)
    ensures r.Some? ==> exists j: nat :: k <= j && IsCompleted(poll(j)) && poll(j).videos != [] && poll(j).videos[0].url == r
    decreases maxWait - k * pollInterval
  {
    assert clock(k) >= (k * pollInterval) as real;
    if clock(k) >= maxWait as real then None
    else
      var response := poll(k);
      if IsCompleted(response) then
        if response.videos != [] then response.videos[0].url else None
      else if IsRefused(response) then None
      else WaitResult(maxWait, pollInterval, clock, poll, k + 1)
  }

  /** A "Completed" answer with no videos, and a "Failed" or "Rejected" one, end the wait with
      nothing; the first "Completed" answer with videos gives the first video's URL. */
  lemma WaitOutcomes(maxWait: nat, pollInterval: nat, clock: nat -> real, poll: nat -> PollResponse, k: nat)
    requires ClockAdvances(clock, pollInterval) && clock(k) < maxWait as real
    ensures IsCompleted(poll(k)) && poll(k).videos == [] ==> WaitResult(maxWait, pollInterval, clock, poll, k).None?
    ensures IsRefused(poll(k)) ==> WaitResult(maxWait, pollInterval, clock, poll, k).None?
    ensures IsCompleted(poll(k)) && poll(k).videos != [] ==>
              WaitResult(maxWait, pollInterval, clock, poll, k) == poll(k).videos[0].url
    ensures !IsCompleted(poll(k)) && !IsRefused(poll(k)) ==>
              WaitResult(maxWait, pollInterval, clock, poll, k) == WaitResult(maxWait, pollInterval, clock, poll, k + 1)
  {
  }

  /** Once the time is up the wait gives up. */
  lemma WaitTimesOut(maxWait: nat, pollInterval: nat, clock: nat -> real, poll: nat -> PollResponse, k: nat)
    requires ClockAdvances(clock, pollInterval) && k * pollInterval >= maxWait
    ensures WaitResult(maxWait, pollInterval, clock, poll, k).None?
  {
    assert clock(k) >= (k * pollInterval) as real;
  }

  /** `_wait_for_completion`: queries the task until it completes, is refused or the time is up. */
  method WaitForCompletion(maxWait: nat, pollInterval: nat, clock: nat -> real, poll: nat -> PollResponse)
    returns (url: Option<string>)
    requires ClockAdvances(clock, pollInterval)
    ensures url == WaitResult(maxWait, pollInterval, clock, poll, 0)
  {
    var k: nat := 0;
    while clock(k) < maxWait as real
      invariant WaitResult(maxWait, pollInterval, clock, poll, k) == WaitResult(maxWait, pollInterval, clock, poll, 0)
      decreases maxWait - k * pollInterval
    {
      assert clock(k) >= (k * pollInterval) as real;
      var response := poll(k);
      if IsCompleted(response) {
        if response.videos != [] {
          return response.videos[0].url;
        }
        return None;
      } else if IsRefused(response) {
        return None;
      }
      k := k + 1;
    }
    return None;
  }

  // ---------------------------------------------------------------------------
  // The retry loop

  /** The service as seen by the `k`-th attempt: its task creation, its wait for the video URL,
      and its download of that URL to the cache path. */
  datatype Service = Service(
    createTask: (nat, Payload) -> TaskResponse,
    waitFor: (nat, string) -> Option<string>,
    download: (nat, string, string) -> bool)

  /** Whether attempt `k` obtains a task, a video URL and a saved file. */
  predicate AttemptSucceeds(svc: Service, payload: Payload, cachePath: string, k: nat) {
    var id := TaskIdOf(svc.createTask(k, payload));
    && id.Some? && id.value != ""
    && var url := svc.waitFor(k, id.value);
       url.Some? && url.value != "" && svc.download(k, url.value, cachePath)
  }

  /** The first successful attempt from `k` on, among the first `n`. */
  function FirstSuccess(svc: Service, payload: Payload, cachePath: string, k: nat, n: nat): (r: Option<nat>)
    requires k <= n
    ensures r.Some? ==>
              && k <= r.value < n && AttemptSucceeds(svc, payload, cachePath, r.value)
              && forall j :: k <= j < r.value ==> !AttemptSucceeds(svc, payload, cachePath, j)
    ensures r.None? ==> forall j :: k <= j < n ==> !AttemptSucceeds(svc, payload, cachePath, j)
    decreases n - k
  {
    if k == n then None
    else if AttemptSucceeds(svc, payload, cachePath, k) then Some(k)
    else FirstSuccess(svc, payload, cachePath, k + 1, n)
  }

  /** `range(max_retries)` is empty for a count of zero or less. */
  function Retries(maxRetries: int): nat {
    if maxRetries < 0 then 0 else maxRetries
  }

  /** The outcome of `generate_video` and the number of task creations it makes. */
  function VideoOutcome(cached: bool, cachePath: string, svc: Service, payload: Payload, maxRetries: int): (r: (Option<string>, nat))
    ensures cached ==> r == (Some(cachePath), 0)
    ensures r.0.Some? ==> r.0 == Some(cachePath)
    ensures r.1 <= Retries(maxRetries)
    ensures maxRetries <= 0 && !cached ==> r == (None, 0)
    ensures !cached ==> (r.0.Some? <==> exists k :: 0 <= k < Retries(maxRetries) && AttemptSucceeds(svc, payload, cachePath, k))
  {
    if cached then (Some(cachePath), 0)
    else match FirstSuccess(svc, payload, cachePath, 0, Retries(maxRetries))
      case Some(k) => (Some(cachePath), k + 1)
      case None => (None, Retries(maxRetries))
  }

  /** `generate_video`: a cached file is returned at once; otherwise up to `max_retries`
      attempts, each stopping at the first failing step, until one saves the video. */
  method GenerateVideo(cacheDir: string, prompt: string, imagePath: Option<string>, duration: int,
                       aspectRatio: string, keywords: Option<string>, maxRetries: int,
                       md5: string -> string, onDisk: string -> bool, svc: Service)
    returns (path: Option<string>, taskCreations: nat)
    ensures var full := FullPrompt(prompt, keywords);
      var cachePath := CachePath(cacheDir, full, aspectRatio, md5);
      (path, taskCreations) == VideoOutcome(onDisk(cachePath), cachePath, svc,
                                            CreatePayload(full, imagePath, duration, aspectRatio), maxRetries)
  {
    var full := FullPrompt(prompt, keywords);
    var cachePath := CachePath(cacheDir, full, aspectRatio, md5);
    if onDisk(cachePath) {
      return Some(cachePath), 0;
    }
    var payload := CreatePayload(full, imagePath, duration, aspectRatio);
    ghost var n := Retries(maxRetries);
    taskCreations := 0;
    for attempt := 0 to Retries(maxRetries)
      invariant taskCreations == attempt
      invariant FirstSuccess(svc, payload, cachePath, 0, n) == FirstSuccess(svc, payload, cachePath, attempt, n)
    {
      var taskId := TaskIdOf(svc.createTask(attempt, payload));
      taskCreations := taskCreations + 1;
      if taskId.Some? && taskId.value != "" {
        var url := svc.waitFor(attempt, taskId.value);
        if url.Some? && url.value != "" {
          var saved := svc.download(attempt, url.value, cachePath);
          if saved {
            return Some(cachePath), taskCreations;
          }
        }
      }
    }
    return None, taskCreations;
  }

  // ---------------------------------------------------------------------------
  // Several scenes

  /** A scene handed to `generate_video_from_scenes`: its "text" and "image_path" keys. */
  datatype SceneArg = SceneArg(text: Option<string>, imagePath: Option<string>)

  function SceneTexts(scenes: seq<SceneArg>): (r: seq<string>)
    ensures |r| == |scenes|
    ensures forall k :: 0 <= k < |scenes| ==> r[k] == scenes[k].text.GetOr("")
  {
    seq(|scenes|, k requires 0 <= k < |scenes| => scenes[k].text.GetOr(""))
  }

  /** The prompt of the merged video: the texts of the first three scenes (or fewer), joined by
      spaces; the image is the first scene's, when it has one. */
  function MergedRequest(scenes: seq<SceneArg>): (r: Option<(string, Option<string>)>)
    ensures r.None? <==> scenes == []
    ensures r.Some? ==> r.value.0 == Join(SceneTexts(Take3(scenes)), " ") && r.value.1 == scenes[0].imagePath
  {
    if scenes == [] then None else Some((Join(SceneTexts(Take3(scenes)), " "), scenes[0].imagePath))
  }

  /** `scenes[:3]`. */
  function Take3(scenes: seq<SceneArg>): (r: seq<SceneArg>)
    ensures |r| == if |scenes| < 3 then |scenes| else 3
    ensures r == scenes[..|r|]
  {
    if |scenes| <= 3 then scenes else scenes[..3]
  }

  /** Every text of the first three scenes is part of the merged prompt. */
  lemma MergedPromptHasTexts(scenes: seq<SceneArg>, k: nat)
    requires k < |scenes| && k < 3
    ensures Contains(MergedRequest(scenes).value.0, scenes[k].text.GetOr(""))
  {
    JoinContains(SceneTexts(Take3(scenes)), " ", k);
  }

  const DefaultDuration := 8
  const DefaultAspectRatio := "16:9"
  const DefaultMaxRetries := 10

  /** `generate_video_from_scenes`: nothing for no scenes, otherwise `generate_video` with the
      merged request and the default duration, aspect ratio and retry count. */
  method GenerateVideoFromScenes(cacheDir: string, scenes: seq<SceneArg>, keywords: Option<string>,
                                 md5: string -> string, onDisk: string -> bool, svc: Service)
    returns (path: Option<string>, taskCreations: nat)
    ensures scenes == [] ==> path.None? && taskCreations == 0
    ensures scenes != [] ==>
      var req := MergedRequest(scenes).value;
      var full := FullPrompt(req.0, keywords);
      var cachePath := CachePath(cacheDir, full, DefaultAspectRatio, md5);
      (path, taskCreations) == VideoOutcome(onDisk(cachePath), cachePath, svc,
                                            CreatePayload(full, req.1, DefaultDuration, DefaultAspectRatio), DefaultMaxRetries)
  {
    var request := MergedRequest(scenes);
    if request.None? {
      return None, 0;
    }
    path, taskCreations := GenerateVideo(cacheDir, request.value.0, request.value.1, DefaultDuration,
                                         DefaultAspectRatio, keywords, DefaultMaxRetries, md5, onDisk, svc);
  }
}
