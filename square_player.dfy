/** The public square page. Its scene navigation and playback handlers are the same code as the
    main page's and share that model (`AppPlayer.Player`); what differs is the title of a shared
    entry, the guard of the download button and the simulated progress bar shown while the
    video is built. */
module SquarePlayer {
  import opened Wrappers
  import opened Text
  import opened AppPlayer

  /** The title of a shared entry: the text preview, or "未命名". */
  function SharedTitle(inputText: Option<string>): (t: string)
    ensures inputText.Some? && inputText.value != "" ==> t == PreviewTitle(inputText.value)
    ensures !(inputText.Some? && inputText.value != "") ==> t == UntitledName
    ensures |t| <= 13
  {
    if inputText.Some? && inputText.value != "" then PreviewTitle(inputText.value) else UntitledName
  }

  /** The shared title is the history title the main page would show for the same text when there
      is one. */
  lemma SharedTitleMatchesHistory(inputText: string, filename: Option<string>)
    requires inputText != ""
    ensures SharedTitle(Some(inputText)) == HistoryTitle(Some(inputText), filename)
  {
  }

  /** `handleDownload` goes on only with a current task and at least one loaded scene. */
  predicate DownloadAllowed(currentTaskId: Option<string>, scenes: seq<Scene>) {
    currentTaskId.Some? && currentTaskId.value != "" && |scenes| > 0
  }

  /** The guard at the head of `handleDownload`: whether the download goes on (otherwise it
      alerts and returns). */
  method HandleDownload(p: Player) returns (proceeds: bool)
    ensures proceeds == DownloadAllowed(p.currentTaskId, p.scenes)
    ensures proceeds <==> p.currentTaskId.Some? && p.currentTaskId.value != "" && p.scenes != []
  {
    proceeds := p.currentTaskId.Some? && p.currentTaskId.value != "" && |p.scenes| > 0;
  }

  /** Opening a shared entry that has a session id and generated scenes, with a non-empty answer
      from the server, makes the download button go on. */
  method DownloadAllowedAfterLoad(p: Player, sessionId: string, inputText: Option<string>, count: int,
                                  loaded: seq<Scene>)
    returns (proceeds: bool)
    requires p.Valid()
    requires sessionId != "" && count > 0 && loaded != []
    modifies p
    ensures proceeds
    ensures p.scenes == loaded && p.currentTaskId == Some(sessionId)
  {
    var opens := p.OpenEntry(Some(sessionId), inputText, Some(count), loaded);
    proceeds := HandleDownload(p);
  }

  /** A value of `Math.random()`. */
  type UnitInterval = r: real | 0.0 <= r < 1.0

  const ProgressCap: real := 90.0
  const ProgressStep: real := 15.0

  /** One tick of the progress timer. */
  function ProgressTick(progress: real, draw: UnitInterval): (next: real)
    ensures progress < ProgressCap ==> progress <= next <= ProgressCap
    ensures progress < ProgressCap ==> next <= progress + ProgressStep
    ensures progress >= ProgressCap ==> next == progress
  {
    if progress < ProgressCap then
      var raised := progress + draw * ProgressStep;
      if raised > ProgressCap then ProgressCap else raised
    else progress
  }

  /** The text beside the bar. */
  function StageText(progress: real): (text: string)
    ensures progress < 30.0 ==> text == "正在合并场景..."
    ensures 30.0 <= progress < 60.0 ==> text == "正在处理视频..."
    ensures progress >= 60.0 ==> text == "即将完成..."
  {
    if progress < 30.0 then "正在合并场景..." else if progress < 60.0 then "正在处理视频..." else "即将完成..."
  }

  /** The progress after the ticks that fire before the response arrives, one draw per tick. */
  function ProgressAfter(draws: seq<UnitInterval>): real {
    if draws == [] then 0.0 else ProgressTick(ProgressAfter(draws[..|draws| - 1]), draws[|draws| - 1])
  }

  /** The bar never passes 90 and never moves back. */
  lemma {:induction false} ProgressBounded(draws: seq<UnitInterval>)
    ensures 0.0 <= ProgressAfter(draws) <= ProgressCap
    ensures draws != [] ==> ProgressAfter(draws[..|draws| - 1]) <= ProgressAfter(draws)
  {
    if draws != [] {
      ProgressBounded(draws[..|draws| - 1]);
    }
  }

  /** The timer of `handleDownload` until the response arrives: the bar's width and the text
      beside it (which starts as the first stage's) after each tick. */
  method SimulateProgress(draws: seq<UnitInterval>) returns (progress: real, text: string)
    ensures progress == ProgressAfter(draws)
    ensures progress <= ProgressCap
    ensures text == StageText(progress)
  {
    progress := 0.0;
    text := StageText(0.0);
    for i := 0 to |draws|
      invariant progress == ProgressAfter(draws[..i])
      invariant text == StageText(progress)
    {
      if progress < ProgressCap {
        progress := progress + draws[i] * ProgressStep;
        if progress > ProgressCap {
          progress := ProgressCap;
        }
        text := StageText(progress);
      }
      assert draws[..i + 1][..i] == draws[..i];
    }
    assert draws[..|draws|] == draws;
    ProgressBounded(draws);
  }
}
