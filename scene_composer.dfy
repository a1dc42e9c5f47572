/** The scene composer's decision logic: shot-type classification, the prompt and
    description strings, the storyboard loop that numbers its panels by the successful
    image generations only, and the paragraph loop that skips blank paragraphs. The image,
    speech and video generators are oracles whose answers are parameters. */
module SceneComposer {
  import opened Wrappers
  import opened Text
  import opened CharacterManager

  // ---------------------------------------------------------------------------
  // Shot types

  const SurpriseWords: seq<string> := ["惊讶", "surprised", "震惊", "shocked"]
  const AngerWords: seq<string> := ["愤怒", "angry", "生气", "激动"]
  const SadnessWords: seq<string> := ["悲伤", "sad", "难过", "哭泣"]

  /** `any(word in s for word in words)`. */
  predicate AnyOccurs(words: seq<string>, s: string) {
    exists i :: 0 <= i < |words| && Contains(s, words[i])
  }

  /** `_determine_shot_type`: strong emotions get a close-up, sadness a medium close-up,
      otherwise long lines a medium shot and short ones a medium close-up. */
  function DetermineShotType(emotion: string, text: string): (shot: string)
    ensures shot == "close-up" <==> AnyOccurs(SurpriseWords, Lower(emotion)) || AnyOccurs(AngerWords, Lower(emotion))
    ensures shot == "medium shot" <==>
      !AnyOccurs(SurpriseWords, Lower(emotion)) && !AnyOccurs(AngerWords, Lower(emotion))
      && !AnyOccurs(SadnessWords, Lower(emotion)) && |text| > 50
    ensures shot in {"close-up", "medium close-up", "medium shot"}
  {
    var e := Lower(emotion);
    if AnyOccurs(SurpriseWords, e) then "close-up"
    else if AnyOccurs(AngerWords, e) then "close-up"
    else if AnyOccurs(SadnessWords, e) then "medium close-up"
    else if |text| > 50 then "medium shot"
    else "medium close-up"
  }

  /** Keywords are checked in order: a sad emotion that is also a surprised one is a close-up. */
  lemma SadnessOnlyWithoutStrongEmotion(emotion: string, text: string)
    requires AnyOccurs(SadnessWords, Lower(emotion))
    ensures DetermineShotType(emotion, text) ==
      if AnyOccurs(SurpriseWords, Lower(emotion)) || AnyOccurs(AngerWords, Lower(emotion))
      then "close-up" else "medium close-up"
  {
  }

  /** The upper-case spelling of an English keyword selects the same shot. */
  lemma ShockedInCapitals(text: string)
    ensures DetermineShotType("SHOCKED", text) == "close-up"
  {
    assert Lower("SHOCKED") == "shocked";
    assert IsPrefix("shocked", "shocked");
    assert Contains(Lower("SHOCKED"), SurpriseWords[3]);
  }

  // ---------------------------------------------------------------------------
  // Descriptions and prompts

  const SceneDescriptionPrefix := "场景中有"

  /** `_generate_scene_description`: the characters (or "人物"), a full-width comma and the
      first 500 characters of the text. */
  function SceneDescription(text: string, characters: seq<string>): (d: string)
    ensures IsPrefix(SceneDescriptionPrefix, d)
    ensures IsSuffix("，" + Take(text, 500), d)
    ensures characters == [] ==> d == SceneDescriptionPrefix + "人物" + "，" + Take(text, 500)
    ensures forall i :: 0 <= i < |characters| ==> Contains(d, characters[i])
  {
    var charList := if characters != [] then Join(characters, "、") else "人物";
    var d := SceneDescriptionPrefix + charList + "，" + Take(text, 500);
    assert d[..|SceneDescriptionPrefix|] == SceneDescriptionPrefix;
    assert d[|d| - |"，" + Take(text, 500)|..] == "，" + Take(text, 500);
    forall i | 0 <= i < |characters| ensures Contains(d, characters[i]) {
      JoinContains(characters, "、", i);
      ContainsWitness(charList, characters[i]);
      var k: nat :| OccursAt(charList, characters[i], k);
      var at := |SceneDescriptionPrefix| + k;
      assert d[at..at + |characters[i]|] == charList[k..k + |characters[i]|];
      ContainsAt(d, characters[i], at);
    }
    d
  }

  /** The `shot_descriptions` table of `_generate_storyboard_panel`. */
  const ShotDescriptions: map<string, string> := map[
    "wide shot" := "全景镜头, 展现整体环境",
    "medium shot" := "中景镜头, 半身像",
    "medium close-up" := "中特写镜头, 胸部以上",
    "close-up" := "特写镜头, 面部表情",
    "extreme close-up" := "大特写镜头, 眼睛或细节"
  ]

  /** `shot_descriptions.get(shot_type, "medium shot")`: an unknown shot type yields the
      literal English words, not the table's medium-shot entry. */
  function ShotDescription(shotType: string): (d: string)
    ensures shotType in ShotDescriptions ==> d == ShotDescriptions[shotType]
    ensures shotType !in ShotDescriptions ==> d == "medium shot"
  {
    if shotType in ShotDescriptions then ShotDescriptions[shotType] else "medium shot"
  }

  const PanelStyleSuffix := ", 漫画分镜风格, 动态构图, 高质量, 细节丰富"

  /** The prompt parts of a panel: description, shot description and, when there are
      characters, their list. */
  function PanelPromptParts(description: string, shotType: string, characters: seq<string>): (parts: seq<string>)
    ensures |parts| == if characters == [] then 2 else 3
    ensures parts[0] == description && parts[1] == ShotDescription(shotType)
    ensures characters != [] ==> parts[2] == "角色: " + Join(characters, "、")
  {
    [description, ShotDescription(shotType)] + (if characters != [] then ["角色: " + Join(characters, "、")] else [])
  }

  /** The full prompt `_generate_storyboard_panel` sends to the image generator. */
  function PanelPrompt(description: string, shotType: string, characters: seq<string>): (p: string)
    ensures IsPrefix(description + ", " + ShotDescription(shotType), p)
    ensures IsSuffix(PanelStyleSuffix, p)
    ensures forall i :: 0 <= i < |characters| ==> Contains(p, characters[i])
  {
    var p := Join(PanelPromptParts(description, shotType, characters), ", ") + PanelStyleSuffix;
    PanelPromptShape(description, shotType, characters);
    p
  }

  /** The parts joined by ", ": the description and shot description, then the character list. */
  lemma PanelPartsJoined(description: string, shotType: string, characters: seq<string>)
    ensures var head := description + ", " + ShotDescription(shotType);
      Join(PanelPromptParts(description, shotType, characters), ", ") ==
        if characters == [] then head else head + ", " + ("角色: " + Join(characters, "、"))
  {
    var parts := PanelPromptParts(description, shotType, characters);
    if characters == [] {
      assert parts[1..] == [parts[1]];
      assert Join(parts[1..], ", ") == parts[1];
    } else {
      assert parts[1..][1..] == [parts[2]];
      assert Join(parts[1..][1..], ", ") == parts[2];
      assert Join(parts[1..], ", ") == parts[1] + ", " + parts[2];
    }
  }

  lemma PanelPromptShape(description: string, shotType: string, characters: seq<string>)
    ensures var p := Join(PanelPromptParts(description, shotType, characters), ", ") + PanelStyleSuffix;
      && IsPrefix(description + ", " + ShotDescription(shotType), p)
      && IsSuffix(PanelStyleSuffix, p)
      && forall i :: 0 <= i < |characters| ==> Contains(p, characters[i])
  {
    var head := description + ", " + ShotDescription(shotType);
    var list := Join(characters, "、");
    var p := Join(PanelPromptParts(description, shotType, characters), ", ") + PanelStyleSuffix;
    PanelPartsJoined(description, shotType, characters);
    assert p[..|head|] == head;
    assert p[|p| - |PanelStyleSuffix|..] == PanelStyleSuffix;
    if characters != [] {
      assert p == (head + ", " + "角色: ") + list + PanelStyleSuffix;
      forall i | 0 <= i < |characters| ensures Contains(p, characters[i]) {
        JoinContains(characters, "、", i);
        ContainsWithin(head + ", " + "角色: ", list, PanelStyleSuffix, characters[i]);
      }
    }
  }

  // ---------------------------------------------------------------------------
  // Storyboards

  /** One line of the scene analysis: who speaks, what, and with which emotion. Missing
      keys are empty strings. */
  datatype Dialogue = Dialogue(character: string, text: string, emotion: string)

  /** The scene analysis a storyboard is drawn from. */
  datatype SceneInfo = SceneInfo(description: string, narration: string, dialogues: seq<Dialogue>, characters: seq<string>)

  datatype Panel = Panel(panelIndex: nat, shotType: string, text: string, characters: seq<string>, imagePath: string)

  /** What the image generator is asked for. */
  datatype ImageRequest = ImageRequest(prompt: string, characterPrompts: seq<string>, seeds: map<string, int>)

  /** `f"{n:03d}"`. */
  function Pad3(n: nat): (s: string)
    ensures |s| >= 3
  {
    var digits := NatToString(n);
    if |digits| >= 3 then digits else seq(3 - |digits|, _ => '0') + digits
  }

  function PanelsFolder(sceneFolder: string): string {
    sceneFolder + "/storyboard"
  }

  function PanelPath(panelsFolder: string, panelIndex: nat): string {
    panelsFolder + "/panel_" + Pad3(panelIndex) + ".png"
  }

  /** The prompts of the registered names among `names`, in order, and the registry after
      each of those prompts bumped its appearance count. */
  function PromptMany(r: Registry, names: seq<string>): (res: (seq<string>, Registry))
    requires WellFormed(r)
    ensures WellFormed(res.1)
  {
    if names == [] then ([], r)
    else PromptStep(PromptMany(r, names[..|names| - 1]), names[|names| - 1])
  }

  /** One more name: its prompt is added when it is registered. */
  function PromptStep(prev: (seq<string>, Registry), name: string): (res: (seq<string>, Registry))
    requires WellFormed(prev.1)
    ensures WellFormed(res.1)
  {
    if name in prev.1.characters then
      var next := CharacterPrompt(prev.1, name);
      (prev.0 + [next.0], next.1)
    else prev
  }

  /** A registered name appends exactly one prompt to those gathered and bumps its own count;
      an unknown name changes nothing. */
  lemma PromptStepEffect(prev: (seq<string>, Registry), name: string)
    requires WellFormed(prev.1)
    ensures var res := PromptStep(prev, name);
      && (name in prev.1.characters ==>
            && |res.0| == |prev.0| + 1 && res.0[..|prev.0|] == prev.0
            && res.0[|prev.0|] == CharacterPrompt(prev.1, name).0
            && res.1.appearanceCount == prev.1.appearanceCount[name := prev.1.appearanceCount[name] + 1])
      && (name !in prev.1.characters ==> res == prev)
  {
  }

  /** Only registered names add prompts, one each, so names none of which is registered
      leave everything as it was. */
  lemma {:induction false} PromptManyUnregistered(r: Registry, names: seq<string>)
    requires WellFormed(r)
    ensures |PromptMany(r, names).0| <= |names|
    ensures (forall k :: 0 <= k < |names| ==> names[k] !in r.characters) ==> PromptMany(r, names) == ([], r)
  {
    if names != [] {
      var init := names[..|names| - 1];
      PromptManyUnregistered(r, init);
      PromptManyCounts(r, init);
      PromptStepEffect(PromptMany(r, init), names[|names| - 1]);
    }
  }

  lemma PromptManyPrefix(r: Registry, names: seq<string>, i: nat)
    requires WellFormed(r) && i < |names|
    ensures PromptMany(r, names[..i + 1]) == PromptStep(PromptMany(r, names[..i]), names[i])
  {
    assert names[..i + 1][..i] == names[..i];
  }

  /** Prompting for characters changes only the appearance counts: every registered name's
      count grows by its number of occurrences, and nothing else in the registry moves. */
  lemma {:induction false} PromptManyCounts(r: Registry, names: seq<string>)
    requires WellFormed(r)
    ensures var r' := PromptMany(r, names).1;
      && r'.characters == r.characters && r'.order == r.order && r'.frequency == r.frequency
      && r'.appearanceCount.Keys == r.appearanceCount.Keys
      && forall n :: n in r.characters ==> r'.appearanceCount[n] == r.appearanceCount[n] + multiset(names)[n]
  {
    if names != [] {
      var m := |names|;
      PromptManyCounts(r, names[..m - 1]);
      assert names == names[..m - 1] + [names[m - 1]];
      assert multiset(names) == multiset(names[..m - 1]) + multiset{names[m - 1]};
    }
  }

  /** Prompting for two lists in turn is prompting for their concatenation. */
  lemma {:induction false} PromptManyConcat(r: Registry, a: seq<string>, b: seq<string>)
    requires WellFormed(r)
    ensures var ra := PromptMany(r, a); var rb := PromptMany(ra.1, b);
      PromptMany(r, a + b) == (ra.0 + rb.0, rb.1)
  {
    var ra := PromptMany(r, a);
    if b == [] {
      assert a + b == a;
      assert ra.0 + [] == ra.0;
    } else {
      var n := |b|;
      var init := b[..n - 1];
      var name := b[n - 1];
      PromptManyConcat(r, a, init);
      var mid := PromptMany(ra.1, init);
      assert PromptMany(r, a + init) == (ra.0 + mid.0, mid.1);
      var ab := a + b;
      assert ab[..|ab| - 1] == a + init;
      assert ab[|ab| - 1] == name;
      assert PromptMany(ra.1, b) == PromptStep(mid, name);
      assert PromptMany(r, ab) == PromptStep((ra.0 + mid.0, mid.1), name);
      PromptStepAfter(ra.0, mid, name);
    }
  }

  /** Prompts gathered earlier stay in front of the ones a step adds. */
  lemma PromptStepAfter(earlier: seq<string>, prev: (seq<string>, Registry), name: string)
    requires WellFormed(prev.1)
    ensures var step := PromptStep(prev, name);
      PromptStep((earlier + prev.0, prev.1), name) == (earlier + step.0, step.1)
  {
    if name in prev.1.characters {
      var next := CharacterPrompt(prev.1, name);
      assert earlier + prev.0 + [next.0] == earlier + (prev.0 + [next.0]);
    }
  }

  /** The arguments of one call of `_generate_storyboard_panel`, apart from its index. */
  datatype Attempt = Attempt(description: string, shotType: string, text: string, characters: seq<string>, seeds: map<string, int>)

  /** `{char: get_character_seed(char) for char in characters if get_character(char)}`. */
  function SceneSeeds(r: Registry, characters: seq<string>, hash: string -> int): (seeds: map<string, int>)
    ensures forall c :: c in seeds <==> c in characters && c in r.characters
    ensures forall c :: c in seeds ==> seeds[c] == r.characters[c].imageSeed
  {
    map c | c in characters && c in r.characters :: CharacterSeed(r, c, hash)
  }

  function DialogueAttempt(sceneDescription: string, d: Dialogue, seeds: map<string, int>): Attempt {
    var speaking := sceneDescription + ", " + d.character + "正在说话";
    var description := if d.emotion != "" then speaking + ", 表情" + d.emotion else speaking;
    Attempt(description, DetermineShotType(d.emotion, d.text), d.character + ": " + d.text,
      if d.character != "" then [d.character] else [],
      if d.character in seeds then map[d.character := seeds[d.character]] else map[])
  }

  /** The panel generations `generate_storyboard_panels` attempts, in order: an establishing
      wide shot when there is narration, then one per dialogue line. */
  function Attempts(info: SceneInfo, seeds: map<string, int>): (a: seq<Attempt>)
    ensures |a| == (if info.narration != "" then 1 else 0) + |info.dialogues|
    ensures info.narration != "" ==> a[0].shotType == "wide shot" && a[0].text == Take(info.narration, 200)
  {
    var establishing := if info.narration != ""
      then [Attempt(info.description, "wide shot", Take(info.narration, 200), info.characters, seeds)] else [];
    establishing + seq(|info.dialogues|, i requires 0 <= i < |info.dialogues| =>
      DialogueAttempt(info.description, info.dialogues[i], seeds))
  }

  /** The characters of the first `k` attempts, in the order their prompts are requested. */
  function CharactersOf(a: seq<Attempt>, k: nat): seq<string>
    requires k <= |a|
  {
    if k == 0 then [] else CharactersOf(a, k - 1) + a[k - 1].characters
  }

  /** The number of successful image generations among the first `k` attempts. */
  function Successes(imageProduced: nat -> bool, k: nat): (n: nat)
    ensures n <= k
  {
    if k == 0 then 0 else Successes(imageProduced, k - 1) + (if imageProduced(k - 1) then 1 else 0)
  }

  /** The panels collected after the first `k` attempts: a panel is kept only when its image
      was produced, and it takes the next free index. */
  function Collected(a: seq<Attempt>, imageProduced: nat -> bool, panelsFolder: string, k: nat): (panels: seq<Panel>)
    requires k <= |a|
    ensures |panels| == Successes(imageProduced, k)
    ensures forall i :: 0 <= i < |panels| ==> panels[i].panelIndex == i
    ensures forall i :: 0 <= i < |panels| ==> panels[i].imagePath == PanelPath(panelsFolder, i)
  {
    if k == 0 then []
    else
      var prev := Collected(a, imageProduced, panelsFolder, k - 1);
      if imageProduced(k - 1) then
        var t := a[k - 1];
        prev + [Panel(|prev|, t.shotType, t.text, t.characters, PanelPath(panelsFolder, |prev|))]
      else prev
  }

  lemma AttemptsDialogue(info: SceneInfo, seeds: map<string, int>, i: nat)
    requires i < |info.dialogues|
    ensures Attempts(info, seeds)[(if info.narration != "" then 1 else 0) + i]
      == DialogueAttempt(info.description, info.dialogues[i], seeds)
  {
  }

  /** The specification of one more attempt, as `TryPanel` performs it. */
  lemma AttemptStep(r: Registry, a: seq<Attempt>, imageProduced: nat -> bool, folder: string, k: nat)
    requires WellFormed(r) && k < |a|
    ensures var prev := Collected(a, imageProduced, folder, k);
      Collected(a, imageProduced, folder, k + 1) == prev + (if imageProduced(k) then
        [Panel(|prev|, a[k].shotType, a[k].text, a[k].characters, PanelPath(folder, |prev|))] else [])
    ensures PromptMany(r, CharactersOf(a, k + 1)).1 == PromptMany(PromptMany(r, CharactersOf(a, k)).1, a[k].characters).1
  {
    PromptManyConcat(r, CharactersOf(a, k), a[k].characters);
  }

  /** Panel numbering has no gaps and a failed panel consumes no index; there are at most
      as many panels as attempts, and the establishing panel, when drawn, is a wide shot with
      at most 200 characters of narration. */
  lemma StoryboardShape(info: SceneInfo, seeds: map<string, int>, imageProduced: nat -> bool, folder: string)
    ensures var a := Attempts(info, seeds);
      var panels := Collected(a, imageProduced, folder, |a|);
      && |panels| <= (if info.narration != "" then 1 else 0) + |info.dialogues|
      && (forall i :: 0 <= i < |panels| ==> panels[i].panelIndex == i)
      && (info.narration != "" && imageProduced(0) ==>
            |panels| > 0 && panels[0].shotType == "wide shot" && |panels[0].text| <= 200)
  {
    var a := Attempts(info, seeds);
    if info.narration != "" && imageProduced(0) {
      CollectedPrefix(a, imageProduced, folder, 1, |a|);
    }
  }

  /** Later attempts only append panels. */
  lemma {:induction false} CollectedPrefix(a: seq<Attempt>, imageProduced: nat -> bool, folder: string, j: nat, k: nat)
    requires j <= k <= |a|
    ensures var pj := Collected(a, imageProduced, folder, j);
      var pk := Collected(a, imageProduced, folder, k);
      |pj| <= |pk| && pk[..|pj|] == pj
  {
    if j < k {
      CollectedPrefix(a, imageProduced, folder, j, k - 1);
    }
  }

  /** Every produced image yields one panel: the number of panels is the number of
      successful generations, and all wholly failed generations leave the board empty. */
  lemma NoImagesNoPanels(a: seq<Attempt>, imageProduced: nat -> bool, folder: string)
    requires forall k :: 0 <= k < |a| ==> !imageProduced(k)
    ensures Collected(a, imageProduced, folder, |a|) == []
  {
    NoSuccesses(imageProduced, |a|);
  }

  lemma {:induction false} NoSuccesses(imageProduced: nat -> bool, k: nat)
    requires forall j :: 0 <= j < k ==> !imageProduced(j)
    ensures Successes(imageProduced, k) == 0
  {
    if k > 0 {
      NoSuccesses(imageProduced, k - 1);
    }
  }

  // ---------------------------------------------------------------------------
  // Paragraphs

  /** `not paragraph.strip()`: the paragraph is white space only. */
  predicate Blank(p: string) {
    forall i :: 0 <= i < |p| ==> IsPyWhitespace(p[i])
  }

  /** The positions of the paragraphs that are not blank once stripped. */
  function NonBlankIndices(paragraphs: seq<string>, k: nat): (ix: seq<nat>)
    requires k <= |paragraphs|
    ensures forall j :: 0 <= j < |ix| ==> ix[j] < k && !Blank(paragraphs[ix[j]])
    ensures forall j, l :: 0 <= j < l < |ix| ==> ix[j] < ix[l]
  {
    if k == 0 then []
    else NonBlankIndices(paragraphs, k - 1) + (if !Blank(paragraphs[k - 1]) then [k - 1] else [])
  }

  /** Every paragraph that is not blank gets a scene. */
  lemma {:induction false} NonBlankIndicesComplete(paragraphs: seq<string>, k: nat, i: nat)
    requires i < k <= |paragraphs| && !Blank(paragraphs[i])
    ensures i in NonBlankIndices(paragraphs, k)
  {
    if i < k - 1 {
      NonBlankIndicesComplete(paragraphs, k - 1, i);
    }
  }

  /** Stripping leaves nothing exactly when the paragraph is blank. */
  lemma BlankIffStripEmpty(p: string)
    ensures Blank(p) <==> PyStrip(p) == ""
  {
  }

  /** The scene composer, sharing the character registry with the rest of the pipeline. */
  class Composer {
    const charMgr: CharacterRegistry

    constructor(charMgr: CharacterRegistry)
      ensures this.charMgr == charMgr
    {
      this.charMgr := charMgr;
    }

    /** `_extract_characters_from_text`: the registered names occurring in the text, in
        registration order. */
    method ExtractCharactersFromText(text: string) returns (found: seq<string>)
      requires charMgr.Valid()
      ensures found == Filter(charMgr.order, OccursIn(text))
      ensures forall n :: n in found <==> n in charMgr.characters && Contains(text, n)
      ensures Distinct(found)
    {
      var all := AllCharacters(charMgr.State());
      found := [];
      var i := 0;
      while i < |all|
        invariant 0 <= i <= |all|
        invariant found == Filter(charMgr.order[..i], OccursIn(text))
      {
        FilterStep(charMgr.order, i, OccursIn(text));
        if Contains(text, all[i].name) {
          found := found + [all[i].name];
        }
        i := i + 1;
      }
      assert charMgr.order[..|all|] == charMgr.order;
    }

    /** `_generate_storyboard_panel`, given whether the image generator produced an image.
        It asks for the prompts of the registered characters, which bumps their counts. */
    method GenerateStoryboardPanel(panelIndex: nat, panelsFolder: string, description: string,
                                   shotType: string, text: string, characters: seq<string>,
                                   seeds: map<string, int>, imageProduced: bool)
      returns (panel: Option<Panel>, request: ImageRequest)
      requires charMgr.Valid()
      modifies charMgr
      ensures charMgr.Valid()
      ensures var prompted := PromptMany(old(charMgr.State()), characters);
        && charMgr.State() == prompted.1
        && request == ImageRequest(PanelPrompt(description, shotType, characters), prompted.0, seeds)
      ensures panel == if imageProduced
        then Some(Panel(panelIndex, shotType, text, characters, PanelPath(panelsFolder, panelIndex))) else None
    {
      var shotDesc := ShotDescription(shotType);
      var promptParts := [description, shotDesc];
      if characters != [] {
        promptParts := promptParts + ["角色: " + Join(characters, "、")];
      }
      var characterPrompts := PromptCharacters(characters);
      assert promptParts == PanelPromptParts(description, shotType, characters);
      var fullPrompt := Join(promptParts, ", ") + PanelStyleSuffix;
      request := ImageRequest(fullPrompt, characterPrompts, seeds);
      if imageProduced {
        panel := Some(Panel(panelIndex, shotType, text, characters, PanelPath(panelsFolder, panelIndex)));
      } else {
        panel := None;
      }
    }

    /** The loop of `_generate_storyboard_panel` that asks for the prompt of every registered
        character of the panel. */
    method PromptCharacters(characters: seq<string>) returns (characterPrompts: seq<string>)
      requires charMgr.Valid()
      modifies charMgr
      ensures charMgr.Valid()
      ensures (characterPrompts, charMgr.State()) == PromptMany(old(charMgr.State()), characters)
    {
      characterPrompts := [];
      ghost var start := charMgr.State();
      var i := 0;
      while i < |characters|
        invariant 0 <= i <= |characters|
        invariant charMgr.Valid()
        invariant (characterPrompts, charMgr.State()) == PromptMany(start, characters[..i])
      {
        PromptManyPrefix(start, characters, i);
        characterPrompts := PromptOne(characters[i], characterPrompts);
        i := i + 1;
      }
      assert characters[..|characters|] == characters;
    }

    /** One pass of that loop: a registered name's prompt is appended, an unknown one skipped. */
    method PromptOne(name: string, prompts: seq<string>) returns (prompts': seq<string>)
      requires charMgr.Valid()
      modifies charMgr
      ensures charMgr.Valid()
      ensures (prompts', charMgr.State()) == PromptStep((prompts, old(charMgr.State())), name)
    {
      prompts' := prompts;
      if name in charMgr.characters {
        var p := charMgr.GetCharacterPrompt(name);
        prompts' := prompts + [p];
      }
    }

    /** One attempt of `generate_storyboard_panels`: the panel, when drawn, is appended and
        takes the next index. */
    method TryPanel(t: Attempt, panelsFolder: string, imageProduced: bool, panels: seq<Panel>)
      returns (panels': seq<Panel>)
      requires charMgr.Valid()
      modifies charMgr
      ensures charMgr.Valid()
      ensures charMgr.State() == PromptMany(old(charMgr.State()), t.characters).1
      ensures panels' == panels + (if imageProduced
        then [Panel(|panels|, t.shotType, t.text, t.characters, PanelPath(panelsFolder, |panels|))] else [])
    {
      var panel, _ := GenerateStoryboardPanel(|panels|, panelsFolder, t.description, t.shotType,
        t.text, t.characters, t.seeds, imageProduced);
      panels' := panels;
      if panel.Some? {
        panels' := panels' + [panel.value];
      }
    }

    /** `generate_storyboard_panels`; `imageProduced(k)` is the image generator's answer to
        the `k`-th attempt. */
    method GenerateStoryboardPanels(info: SceneInfo, sceneFolder: string, imageProduced: nat -> bool)
      returns (panels: seq<Panel>)
      requires charMgr.Valid()
      modifies charMgr
      ensures charMgr.Valid()
      ensures var a := Attempts(info, SceneSeeds(old(charMgr.State()), info.characters, charMgr.hash));
        && panels == Collected(a, imageProduced, PanelsFolder(sceneFolder), |a|)
        && charMgr.State() == PromptMany(old(charMgr.State()), CharactersOf(a, |a|)).1
    {
      ghost var start := charMgr.State();
      var folder := PanelsFolder(sceneFolder);
      var seeds := SceneSeeds(charMgr.State(), info.characters, charMgr.hash);
      ghost var a := Attempts(info, seeds);
      panels := [];
      var attempt := 0;
      if info.narration != "" {
        var establishing := Attempt(info.description, "wide shot", Take(info.narration, 200), info.characters, seeds);
        assert a[0] == establishing;
        panels := TryPanel(establishing, folder, imageProduced(0), panels);
        attempt := 1;
        AttemptStep(start, a, imageProduced, folder, 0);
      }
      panels := DialoguePanels(info, seeds, folder, imageProduced, panels, attempt, start);
    }

    /** The `for dialogue in dialogues` loop of `generate_storyboard_panels`, starting at
        attempt number `first`. */
    method DialoguePanels(info: SceneInfo, seeds: map<string, int>, folder: string, imageProduced: nat -> bool,
                          panels: seq<Panel>, first: nat, ghost start: Registry)
      returns (panels': seq<Panel>)
      requires WellFormed(start) && charMgr.Valid()
      requires first == if info.narration != "" then 1 else 0
      requires panels == Collected(Attempts(info, seeds), imageProduced, folder, first)
      requires charMgr.State() == PromptMany(start, CharactersOf(Attempts(info, seeds), first)).1
      modifies charMgr
      ensures charMgr.Valid()
      ensures var a := Attempts(info, seeds);
        && panels' == Collected(a, imageProduced, folder, |a|)
        && charMgr.State() == PromptMany(start, CharactersOf(a, |a|)).1
    {
      ghost var a := Attempts(info, seeds);
      panels' := panels;
      var attempt := first;
      for i := 0 to |info.dialogues|
        invariant attempt == first + i
        invariant charMgr.Valid()
        invariant panels' == Collected(a, imageProduced, folder, attempt)
        invariant charMgr.State() == PromptMany(start, CharactersOf(a, attempt)).1
      {
        var t := DialogueAttempt(info.description, info.dialogues[i], seeds);
        AttemptsDialogue(info, seeds, i);
        panels' := TryPanel(t, folder, imageProduced(attempt), panels');
        AttemptStep(start, a, imageProduced, folder, attempt);
        attempt := attempt + 1;
      }
    }

    /** `create_scenes_from_paragraphs`: `createScene(index, paragraph)` is the scene
        builder's answer; blank paragraphs are skipped but keep their position in the
        numbering. */
    method CreateScenesFromParagraphs<S>(paragraphs: seq<string>, startIndex: int, createScene: (int, string) -> S)
      returns (scenes: seq<S>)
      ensures scenes == ScenesAt(paragraphs, startIndex, createScene, NonBlankIndices(paragraphs, |paragraphs|))
    {
      scenes := [];
      for i := 0 to |paragraphs|
        invariant scenes == ScenesAt(paragraphs, startIndex, createScene, NonBlankIndices(paragraphs, i))
      {
        ghost var ix := NonBlankIndices(paragraphs, i);
        BlankIffStripEmpty(paragraphs[i]);
        if PyStrip(paragraphs[i]) == "" {
          assert NonBlankIndices(paragraphs, i + 1) == ix;
          continue;
        }
        ScenesAtAppend(paragraphs, startIndex, createScene, ix, i);
        scenes := scenes + [createScene(startIndex + i, paragraphs[i])];
        assert NonBlankIndices(paragraphs, i + 1) == ix + [i];
      }
    }
  }

  /** The scenes built for the paragraphs at positions `ix`, numbered from `startIndex` by
      their original positions. */
  function ScenesAt<S>(paragraphs: seq<string>, startIndex: int, createScene: (int, string) -> S, ix: seq<nat>): (scenes: seq<S>)
    requires forall j :: 0 <= j < |ix| ==> ix[j] < |paragraphs|
    ensures |scenes| == |ix|
    ensures forall j :: 0 <= j < |ix| ==> scenes[j] == createScene(startIndex + ix[j], paragraphs[ix[j]])
  {
    seq(|ix|, j requires 0 <= j < |ix| => createScene(startIndex + ix[j], paragraphs[ix[j]]))
  }

  lemma ScenesAtAppend<S>(paragraphs: seq<string>, startIndex: int, createScene: (int, string) -> S, ix: seq<nat>, i: nat)
    requires forall j :: 0 <= j < |ix| ==> ix[j] < |paragraphs|
    requires i < |paragraphs|
    ensures ScenesAt(paragraphs, startIndex, createScene, ix + [i])
      == ScenesAt(paragraphs, startIndex, createScene, ix) + [createScene(startIndex + i, paragraphs[i])]
  {
    var ix' := ix + [i];
    assert forall j :: 0 <= j < |ix| ==> ix'[j] == ix[j];
  }

  /** Whether a name occurs in `text`. */
  function OccursIn(text: string): (keep: string -> bool) {
    n => Contains(text, n)
  }
}
