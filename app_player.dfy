/** The playback state of the web front end: the loaded scenes, the scene on screen and whether
    the narration is playing, with the navigation and playback handlers that change them, and
    the titles of the history list. The page elements and the audio element's own behaviour
    are not modelled beyond the source URL it is given. */
module AppPlayer {
  import opened Wrappers
  import opened Text

  /** A scene as the player uses it. */
  datatype Scene = Scene(text: string, audioUrl: string)

  /** The page's globals: `scenes`, `currentSceneIndex`, `isPlaying`, `currentTaskId`,
      `currentInputText`, and the source of the audio element. */
  class Player {
    var scenes: seq<Scene>
    var currentSceneIndex: int
    var isPlaying: bool
    var currentTaskId: Option<string>
    var currentInputText: Option<string>
    var audioSrc: Option<string>

    /** The index names a loaded scene, or is 0 when none is loaded. */
    ghost predicate Valid()
      reads this
    {
      0 <= currentSceneIndex && (currentSceneIndex < |scenes| || currentSceneIndex == 0)
    }

    constructor()
      ensures Valid()
      ensures scenes == [] && currentSceneIndex == 0 && !isPlaying
      ensures currentTaskId.None? && currentInputText.None? && audioSrc.None?
    {
      scenes := [];
      currentSceneIndex := 0;
      isPlaying := false;
      currentTaskId := None;
      currentInputText := None;
      audioSrc := None;
    }

    /** `displayScene(index)`: ignored outside the loaded scenes; otherwise that scene is shown
        and its narration loaded. */
    method DisplayScene(index: int)
      requires Valid()
      modifies this
      ensures Valid()
      ensures 0 <= index < |scenes| ==> currentSceneIndex == index && audioSrc == Some(scenes[index].audioUrl)
      ensures !(0 <= index < |scenes|) ==> currentSceneIndex == old(currentSceneIndex) && audioSrc == old(audioSrc)
      ensures scenes == old(scenes) && isPlaying == old(isPlaying)
      ensures currentTaskId == old(currentTaskId) && currentInputText == old(currentInputText)
    {
      if index < 0 || index >= |scenes| {
        return;
      }
      currentSceneIndex := index;
      audioSrc := Some(scenes[index].audioUrl);
    }

    /** `startPlayback`: playing, until the audio element refuses (see `PlayRejected`). */
    method StartPlayback()
      modifies this
      ensures isPlaying
      ensures scenes == old(scenes) && currentSceneIndex == old(currentSceneIndex) && audioSrc == old(audioSrc)
      ensures currentTaskId == old(currentTaskId) && currentInputText == old(currentInputText)
    {
      isPlaying := true;
    }

    /** The rejection handler of `audioPlayer.play()` inside `startPlayback`. */
    method PlayRejected()
      modifies this
      ensures !isPlaying
      ensures scenes == old(scenes) && currentSceneIndex == old(currentSceneIndex) && audioSrc == old(audioSrc)
      ensures currentTaskId == old(currentTaskId) && currentInputText == old(currentInputText)
    {
      isPlaying := false;
    }

    /** `pausePlayback`. */
    method PausePlayback()
      modifies this
      ensures !isPlaying
      ensures scenes == old(scenes) && currentSceneIndex == old(currentSceneIndex) && audioSrc == old(audioSrc)
      ensures currentTaskId == old(currentTaskId) && currentInputText == old(currentInputText)
    {
      isPlaying := false;
    }

    /** `stopPlayback` (it also rewinds the audio, which is not modelled). */
    method StopPlayback()
      modifies this
      ensures !isPlaying
      ensures scenes == old(scenes) && currentSceneIndex == old(currentSceneIndex) && audioSrc == old(audioSrc)
      ensures currentTaskId == old(currentTaskId) && currentInputText == old(currentInputText)
    {
      isPlaying := false;
    }

    /** `togglePlayPause`. */
    method TogglePlayPause()
      modifies this
      ensures isPlaying == !old(isPlaying)
      ensures scenes == old(scenes) && currentSceneIndex == old(currentSceneIndex) && audioSrc == old(audioSrc)
      ensures currentTaskId == old(currentTaskId) && currentInputText == old(currentInputText)
    {
      if isPlaying {
        PausePlayback();
      } else {
        StartPlayback();
      }
    }

    /** `navigateScene(direction)`: a move that stays among the loaded scenes stops playback and
        shows the new scene; any other move changes nothing. */
    method NavigateScene(direction: int)
      requires Valid()
      modifies this
      ensures Valid()
      ensures var target := old(currentSceneIndex) + direction;
        if 0 <= target < |old(scenes)| then
          currentSceneIndex == target && !isPlaying && audioSrc == Some(old(scenes)[target].audioUrl)
        else
          currentSceneIndex == old(currentSceneIndex) && isPlaying == old(isPlaying) && audioSrc == old(audioSrc)
      ensures scenes == old(scenes)
      ensures currentTaskId == old(currentTaskId) && currentInputText == old(currentInputText)
    {
      var newIndex := currentSceneIndex + direction;
      if newIndex >= 0 && newIndex < |scenes| {
        StopPlayback();
        DisplayScene(newIndex);
      }
    }

    /** `handleAudioEnded`: before the last scene the player moves on and, after its timer,
        plays again; on the last scene it stops where it is. */
    method HandleAudioEnded()
      requires Valid()
      modifies this
      ensures Valid()
      ensures old(currentSceneIndex) < |old(scenes)| - 1 ==>
        currentSceneIndex == old(currentSceneIndex) + 1 && isPlaying && audioSrc == Some(scenes[currentSceneIndex].audioUrl)
      ensures old(currentSceneIndex) >= |old(scenes)| - 1 ==>
        currentSceneIndex == old(currentSceneIndex) && !isPlaying && audioSrc == old(audioSrc)
      ensures scenes == old(scenes)
      ensures currentTaskId == old(currentTaskId) && currentInputText == old(currentInputText)
    {
      if currentSceneIndex < |scenes| - 1 {
        NavigateScene(1);
        StartPlayback();
      } else {
        isPlaying := false;
      }
    }

    /** `returnToHome`: playback stops and the loaded work is forgotten. */
    method ReturnToHome()
      modifies this
      ensures Valid()
      ensures currentTaskId.None? && scenes == [] && currentSceneIndex == 0 && !isPlaying && currentInputText.None?
      ensures audioSrc == old(audioSrc)
    {
      StopPlayback();
      currentTaskId := None;
      scenes := [];
      currentSceneIndex := 0;
      currentInputText := None;
    }

    /** The upload handlers: a new generation is now the current task. */
    method StartTask(taskId: string)
      modifies this
      ensures currentTaskId == Some(taskId)
      ensures scenes == old(scenes) && currentSceneIndex == old(currentSceneIndex) && isPlaying == old(isPlaying)
      ensures audioSrc == old(audioSrc) && currentInputText == old(currentInputText)
    {
      currentTaskId := Some(taskId);
    }

    /** `loadScenes` once the server answers: the new list, shown from its first scene. */
    method LoadScenes(loaded: seq<Scene>)
      modifies this
      ensures Valid()
      ensures scenes == loaded && currentSceneIndex == 0
      ensures loaded != [] ==> audioSrc == Some(loaded[0].audioUrl)
      ensures loaded == [] ==> audioSrc == old(audioSrc)
      ensures isPlaying == old(isPlaying) && currentTaskId == old(currentTaskId) && currentInputText == old(currentInputText)
    {
      scenes := loaded;
      currentSceneIndex := 0;
      DisplayScene(0);
    }

    /** `loadPlayback` once the server answers: the work's scenes from the first one, with its
        task id and text recorded. */
    method LoadPlayback(sessionId: string, inputText: Option<string>, loaded: seq<Scene>)
      modifies this
      ensures Valid()
      ensures scenes == loaded && currentSceneIndex == 0
      ensures currentTaskId == Some(sessionId) && currentInputText == inputText
      ensures loaded != [] ==> audioSrc == Some(loaded[0].audioUrl)
      ensures loaded == [] ==> audioSrc == old(audioSrc)
      ensures isPlaying == old(isPlaying)
    {
      scenes := loaded;
      currentSceneIndex := 0;
      currentTaskId := Some(sessionId);
      currentInputText := inputText;
      DisplayScene(0);
    }

    /** The click handler of a history or shared-list entry: with a session id and generated
        scenes it loads the work for playback (`loaded` is the server's answer); otherwise
        nothing changes (the history list also shows an alert). */
    method OpenEntry(sessionId: Option<string>, inputText: Option<string>, generatedSceneCount: Option<int>,
                     loaded: seq<Scene>)
      returns (opens: bool)
      requires Valid()
      modifies this
      ensures Valid()
      ensures opens == OpensPlayback(sessionId, generatedSceneCount)
      ensures opens ==>
        && scenes == loaded && currentSceneIndex == 0
        && currentTaskId == sessionId && currentInputText == inputText
        && (loaded != [] ==> audioSrc == Some(loaded[0].audioUrl))
        && isPlaying == old(isPlaying)
      ensures !opens ==>
        && scenes == old(scenes) && currentSceneIndex == old(currentSceneIndex) && isPlaying == old(isPlaying)
        && currentTaskId == old(currentTaskId) && currentInputText == old(currentInputText) && audioSrc == old(audioSrc)
    {
      opens := sessionId.Some? && sessionId.value != "" && generatedSceneCount.Some? && generatedSceneCount.value > 0;
      if opens {
        LoadPlayback(sessionId.value, inputText, loaded);
      }
    }
  }

  /** The text-preview title of a list entry: the first ten characters trimmed, with "..." when
      the text is longer. */
  function PreviewTitle(text: string): (t: string)
    ensures |text| > 10 <==> IsSuffix("...", t) && |t| == |JsTrim(Take(text, 10))| + 3
    ensures |t| <= 13
  {
    var shown := JsTrim(Take(text, 10));
    if |text| > 10 then
      var t := shown + "...";
      assert t[|t| - 3..] == "...";
      t
    else
      assert |shown| <= 10;
      assert !(IsSuffix("...", shown) && |shown| == |shown| + 3);
      shown
  }

  const UntitledName := "未命名"

  /** The title of a history entry: the text preview, or else the file name (or "未命名")
      cut to twenty characters with "...". */
  function HistoryTitle(inputText: Option<string>, filename: Option<string>): (t: string)
    ensures inputText.Some? && inputText.value != "" ==> t == PreviewTitle(inputText.value)
    ensures !(inputText.Some? && inputText.value != "") ==>
      var name := if filename.Some? && filename.value != "" then filename.value else UntitledName;
      if |name| > 20 then t == name[..20] + "..." else t == name
    ensures |t| <= 23
  {
    if inputText.Some? && inputText.value != "" then PreviewTitle(inputText.value)
    else
      var name := if filename.Some? && filename.value != "" then filename.value else UntitledName;
      if |name| > 20 then name[..20] + "..." else name
  }

  /** A list entry is opened only when it has a session id and at least one generated scene;
      a missing count compares as false. */
  predicate OpensPlayback(sessionId: Option<string>, generatedSceneCount: Option<int>) {
    sessionId.Some? && sessionId.value != "" && generatedSceneCount.Some? && generatedSceneCount.value > 0
  }
}
