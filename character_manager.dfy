/** The character registry: profiles keyed by name, a per-name appearance counter that
    drives the continuity phrases of the image prompts, and a running name-frequency
    counter from which the main characters of a text are selected. */
module CharacterManager {
  import opened Wrappers
  import opened Text

  /** A registered character. `appearance` is the optional appearance dictionary, of which
      prompts use the `description` entry; `appearanceDescriptions` is the list that
      `update_character_appearance` appends to. */
  datatype Profile = Profile(
    name: string,
    description: string,
    appearance: map<string, string>,
    imageSeed: int,
    appearances: seq<string>,
    codename: string,
    appearanceDescriptions: seq<string>)

  /** A `collections.Counter` of strings: the counts and the order in which keys were first
      inserted (the order `items()` yields them in). */
  datatype Counter = Counter(counts: map<string, nat>, keys: seq<string>)

  ghost predicate CounterWellFormed(c: Counter) {
    Distinct(c.keys) && forall x :: x in c.counts <==> x in c.keys
  }

  function Count(c: Counter, x: string): nat {
    if x in c.counts then c.counts[x] else 0
  }

  /** Counting one more occurrence of `x`. */
  function Add(c: Counter, x: string): (d: Counter)
    ensures Count(d, x) == Count(c, x) + 1
    ensures forall y :: y != x ==> Count(d, y) == Count(c, y)
    ensures CounterWellFormed(c) ==> CounterWellFormed(d)
  {
    if x in c.counts then c.(counts := c.counts[x := c.counts[x] + 1])
    else Counter(c.counts[x := 1], c.keys + [x])
  }

  /** `counter.update(tokens)`. */
  function Update(c: Counter, tokens: seq<string>): (d: Counter)
    ensures CounterWellFormed(c) ==> CounterWellFormed(d)
  {
    if tokens == [] then c else Add(Update(c, tokens[..|tokens| - 1]), tokens[|tokens| - 1])
  }

  /** After an update every name's count has grown by its number of occurrences in the
      tokens. */
  lemma {:induction false} UpdateCounts(c: Counter, tokens: seq<string>, x: string)
    ensures Count(Update(c, tokens), x) == Count(c, x) + multiset(tokens)[x]
  {
    if tokens != [] {
      var n := |tokens|;
      UpdateCounts(c, tokens[..n - 1], x);
      assert tokens == tokens[..n - 1] + [tokens[n - 1]];
      assert multiset(tokens) == multiset(tokens[..n - 1]) + multiset{tokens[n - 1]};
    }
  }

  /** Frequencies accumulate across calls: two updates are one update with both token lists. */
  lemma {:induction false} UpdateTwice(c: Counter, a: seq<string>, b: seq<string>)
    ensures Update(Update(c, a), b) == Update(c, a + b)
  {
    if b != [] {
      var n := |b|;
      UpdateTwice(c, a, b[..n - 1]);
      assert (a + b)[..|a + b| - 1] == a + b[..n - 1];
      assert (a + b)[|a + b| - 1] == b[n - 1];
    } else {
      assert a + b == a;
    }
  }

  /** The registry's state: the profiles, their insertion order (the order of
      `get_all_characters`), the appearance counts and the name frequencies. */
  datatype Registry = Registry(
    characters: map<string, Profile>,
    order: seq<string>,
    appearanceCount: map<string, int>,
    frequency: Counter)

  ghost predicate WellFormed(r: Registry) {
    && Distinct(r.order)
    && (forall n :: n in r.characters <==> n in r.order)
    && r.appearanceCount.Keys == r.characters.Keys
    && (forall n :: n in r.characters ==> r.characters[n].name == n && r.characters[n].codename == Codename(n))
    && CounterWellFormed(r.frequency)
  }

  lemma WithFrequency(r: Registry, c: Counter)
    requires WellFormed(r) && CounterWellFormed(c)
    ensures WellFormed(r.(frequency := c))
  {
  }

  function EmptyRegistry(): (r: Registry)
    ensures WellFormed(r)
  {
    Registry(map[], [], map[], Counter(map[], []))
  }

  function Codename(name: string): string {
    "<" + name + ">"
  }

  const SeedModulus := 1000000

  /** `hash(name) % 1000000`, with Python's non-negative remainder. */
  function HashSeed(hash: string -> int, name: string): (s: int)
    ensures 0 <= s < SeedModulus
  {
    hash(name) % SeedModulus
  }

  /** The profile `register_character` creates: a truthy `image_seed` is kept, a missing or
      zero one falls back to the hash of the name. */
  function NewProfile(name: string, description: string, appearance: Option<map<string, string>>,
                      imageSeed: Option<int>, hash: string -> int): (p: Profile)
    ensures p.name == name && p.description == description && p.codename == Codename(name)
    ensures p.appearance == (if appearance.Some? then appearance.value else map[])
    ensures imageSeed.Some? && imageSeed.value != 0 ==> p.imageSeed == imageSeed.value
    ensures imageSeed.None? || imageSeed.value == 0 ==> p.imageSeed == HashSeed(hash, name)
    ensures p.appearances == [] && p.appearanceDescriptions == []
  {
    Profile(name, description, appearance.GetOr(map[]),
      if imageSeed.Some? && imageSeed.value != 0 then imageSeed.value else HashSeed(hash, name),
      [], Codename(name), [])
  }

  /** `register_character`: inserts a new profile with appearance count 0; an existing
      name is left exactly as it was. */
  function Register(r: Registry, name: string, description: string, appearance: Option<map<string, string>>,
                    imageSeed: Option<int>, hash: string -> int): (r': Registry)
    ensures name in r.characters ==> r' == r
    ensures name !in r.characters ==>
      && r'.characters == r.characters[name := NewProfile(name, description, appearance, imageSeed, hash)]
      && r'.order == r.order + [name]
      && r'.appearanceCount == r.appearanceCount[name := 0]
      && r'.frequency == r.frequency
    ensures WellFormed(r) ==> WellFormed(r')
  {
    if name in r.characters then r
    else Registry(r.characters[name := NewProfile(name, description, appearance, imageSeed, hash)],
      r.order + [name], r.appearanceCount[name := 0], r.frequency)
  }

  /** Registering a name twice keeps the first registration. */
  lemma RegisterTwice(r: Registry, name: string, d1: string, a1: Option<map<string, string>>, s1: Option<int>,
                      d2: string, a2: Option<map<string, string>>, s2: Option<int>, hash: string -> int)
    ensures var once := Register(r, name, d1, a1, s1, hash);
      Register(once, name, d2, a2, s2, hash) == once
  {
  }

  /** `get_character`. */
  function GetCharacter(r: Registry, name: string): (p: Option<Profile>)
    ensures p.Some? <==> name in r.characters
    ensures p.Some? ==> p.value == r.characters[name]
  {
    if name in r.characters then Some(r.characters[name]) else None
  }

  /** `get_all_characters`: the profiles in registration order. */
  function AllCharacters(r: Registry): (ps: seq<Profile>)
    requires WellFormed(r)
    ensures |ps| == |r.order|
    ensures forall i :: 0 <= i < |ps| ==> ps[i] == r.characters[r.order[i]]
  {
    seq(|r.order|, i requires 0 <= i < |r.order| => r.characters[r.order[i]])
  }

  /** `get_character_seed`: the stored seed of a registered name, otherwise the hash seed. */
  function CharacterSeed(r: Registry, name: string, hash: string -> int): (s: int)
    ensures name in r.characters ==> s == r.characters[name].imageSeed
    ensures name !in r.characters ==> s == HashSeed(hash, name)
  {
    match GetCharacter(r, name)
    case Some(p) => p.imageSeed
    case None => HashSeed(hash, name)
  }

  /** The seed of a freshly registered character is its truthy `image_seed`, or else the
      hash seed. */
  lemma SeedAfterRegister(r: Registry, name: string, d: string, a: Option<map<string, string>>,
                          seed: Option<int>, hash: string -> int)
    requires name !in r.characters
    ensures CharacterSeed(Register(r, name, d, a, seed, hash), name, hash)
      == if seed.Some? && seed.value != 0 then seed.value else HashSeed(hash, name)
  {
  }

  /** `update_character_appearance`: appends to the list of a registered character; an
      unknown name changes nothing. */
  function UpdateAppearance(r: Registry, name: string, description: string): (r': Registry)
    ensures name !in r.characters ==> r' == r
    ensures name in r.characters ==>
      && r'.characters == r.characters[name := r.characters[name].(appearanceDescriptions :=
           r.characters[name].appearanceDescriptions + [description])]
      && r'.order == r.order && r'.appearanceCount == r.appearanceCount && r'.frequency == r.frequency
    ensures WellFormed(r) ==> WellFormed(r')
  {
    if name in r.characters then
      var p := r.characters[name];
      r.(characters := r.characters[name := p.(appearanceDescriptions := p.appearanceDescriptions + [description])])
    else r
  }

  const StyleTags: seq<string> :=
    ["anime style", "consistent character design", "same outfit", "same hairstyle", "same proportions"]

  const ContinuityTags: seq<string> :=
    ["same character design as previous scenes", "same person as previous",
     "identical face and outfit", "continuity maintained"]

  /** The prompt parts for a profile seen for the `count`-th time. */
  function PromptParts(p: Profile, count: int): (parts: seq<string>)
    ensures |parts| > 0 && parts[0] == "character: " + p.codename
    ensures var head := 1 + (if p.description != "" then 1 else 0)
                          + (if "description" in p.appearance && p.appearance["description"] != "" then 1 else 0);
      && |parts| == head + |StyleTags| + (if count > 1 then |ContinuityTags| else 0)
      && parts[head..head + |StyleTags|] == StyleTags
      && (count > 1 <==> parts[head + |StyleTags|..] == ContinuityTags)
      && (count <= 1 ==> parts[head + |StyleTags|..] == [])
    ensures p.description != "" ==> parts[1] == p.description
    ensures "description" in p.appearance && p.appearance["description"] != "" ==>
      parts[if p.description != "" then 2 else 1] == p.appearance["description"]
  {
    var desc := if p.description != "" then [p.description] else [];
    var look := if "description" in p.appearance && p.appearance["description"] != ""
      then [p.appearance["description"]] else [];
    ["character: " + p.codename] + desc + look + StyleTags + (if count > 1 then ContinuityTags else [])
  }

  /** `get_character_prompt`: the prompt text and the registry afterwards. For an unknown
      name nothing changes; for a registered one exactly its appearance count grows by one. */
  function CharacterPrompt(r: Registry, name: string): (res: (string, Registry))
    requires WellFormed(r)
    ensures name !in r.characters ==> res.0 == "character: " + name && res.1 == r
    ensures name in r.characters ==>
      && res.1 == r.(appearanceCount := r.appearanceCount[name := r.appearanceCount[name] + 1])
      && res.0 == Join(PromptParts(r.characters[name], r.appearanceCount[name] + 1), ", ")
    ensures WellFormed(res.1)
  {
    match GetCharacter(r, name)
    case None => ("character: " + name, r)
    case Some(p) =>
      var n := r.appearanceCount[name] + 1;
      (Join(PromptParts(p, n), ", "), r.(appearanceCount := r.appearanceCount[name := n]))
  }

  /** A newly registered character's first prompt carries no continuity phrases and its
      second prompt does. */
  lemma ContinuityFromSecondPrompt(r: Registry, name: string)
    requires WellFormed(r) && name in r.characters && r.appearanceCount[name] == 0
    ensures var (first, r1) := CharacterPrompt(r, name);
      var (second, _) := CharacterPrompt(r1, name);
      && first == Join(PromptParts(r.characters[name], 1), ", ")
      && second == Join(PromptParts(r.characters[name], 2), ", ")
      && Contains(second, "continuity maintained")
  {
    var p := r.characters[name];
    var parts := PromptParts(p, 2);
    JoinContains(parts, ", ", |parts| - 1);
    assert parts[|parts| - 1] == ContinuityTags[3];
  }

  const CommonWords: set<string> := {
    "这个", "那个", "什么", "怎么", "为什么", "可以", "不是", "是的",
    "但是", "然而", "因为", "所以", "如果", "虽然", "而且", "或者",
    "自己", "我们", "他们", "她们", "它们", "大家", "人们", "东西",
    "地方", "时候", "现在", "之前", "以后", "一直", "已经", "还是"
  }

  /** `_filter_common_words`: drops the stop words and keeps the order of the rest. */
  function FilterCommonWords(names: seq<string>): (r: seq<string>)
    ensures forall x :: x in r <==> x in names && x !in CommonWords
    ensures |r| <= |names|
    ensures Distinct(names) ==> Distinct(r)
  {
    Filter(names, name => name !in CommonWords)
  }

  /** The kept names keep their order and their multiplicities. */
  lemma FilterCommonWordsOrder(names: seq<string>)
    ensures var r := FilterCommonWords(names);
      && IsSubsequence(r, names)
      && forall x :: multiset(r)[x] == if x in CommonWords then 0 else multiset(names)[x]
  {
    FilterOrder(names, name => name !in CommonWords);
  }

  /** The counted names with `count >= minFrequency` and `len(name) >= 2`, in counter order. */
  function Frequent(keys: seq<string>, c: Counter, minFrequency: int): (r: seq<string>)
    ensures forall x :: x in r <==> x in keys && Count(c, x) >= minFrequency && |x| >= 2
    ensures |r| <= |keys|
    ensures Distinct(keys) ==> Distinct(r)
  {
    Filter(keys, name => Count(c, name) >= minFrequency && |name| >= 2)
  }

  /** The selected names keep the counter's order and their multiplicities. */
  lemma FrequentOrder(keys: seq<string>, c: Counter, minFrequency: int)
    ensures var r := Frequent(keys, c, minFrequency);
      && IsSubsequence(r, keys)
      && forall x :: multiset(r)[x] == if Count(c, x) >= minFrequency && |x| >= 2 then multiset(keys)[x] else 0
  {
    FilterOrder(keys, name => Count(c, name) >= minFrequency && |name| >= 2);
  }

  predicate ByFrequency(s: seq<string>, c: Counter) {
    forall i, j :: 0 <= i < j < |s| ==> Count(c, s[i]) >= Count(c, s[j])
  }

  /** Inserting `x` after every element at least as frequent as itself. */
  function InsertByFrequency(x: string, s: seq<string>, c: Counter): (r: seq<string>)
    requires ByFrequency(s, c)
    ensures ByFrequency(r, c)
    ensures multiset(r) == multiset(s) + multiset{x}
  {
    if s == [] then [x]
    else if Count(c, s[0]) >= Count(c, x) then
      var rest := InsertByFrequency(x, s[1..], c);
      assert s == [s[0]] + s[1..];
      HeadDominates(x, s, c, rest);
      [s[0]] + rest
    else
      [x] + s
  }

  /** The head of a frequency-ordered list is at least as frequent as every element of a
      permutation of its tail with one more element that is not more frequent than the head. */
  lemma HeadDominates(x: string, s: seq<string>, c: Counter, rest: seq<string>)
    requires s != [] && ByFrequency(s, c) && Count(c, s[0]) >= Count(c, x)
    requires multiset(rest) == multiset(s[1..]) + multiset{x}
    ensures forall j :: 0 <= j < |rest| ==> Count(c, s[0]) >= Count(c, rest[j])
  {
    forall j | 0 <= j < |rest| ensures Count(c, s[0]) >= Count(c, rest[j]) {
      var y := rest[j];
      assert y in multiset(rest);
      if y != x {
        assert y in multiset(s[1..]);
        var k :| 0 <= k < |s[1..]| && s[1..][k] == y;
        assert s[k + 1] == y;
      }
    }
  }

  /** `sorted(names, key=frequency, reverse=True)`: a stable sort, later names go after
      earlier names of the same frequency (SortByFrequencyStable). */
  function SortByFrequency(s: seq<string>, c: Counter): (r: seq<string>)
    ensures ByFrequency(r, c)
    ensures multiset(r) == multiset(s)
  {
    if s == [] then []
    else
      var n := |s|;
      assert s == s[..n - 1] + [s[n - 1]];
      InsertByFrequency(s[n - 1], SortByFrequency(s[..n - 1], c), c)
  }

  /** The names of `s` whose frequency is `k`, in their order in `s`. */
  function OfCount(s: seq<string>, c: Counter, k: nat): seq<string> {
    if s == [] then []
    else (if Count(c, s[0]) == k then [s[0]] else []) + OfCount(s[1..], c, k)
  }

  /** Sorting is stable: the names of any one frequency come out in their input order. */
  lemma {:induction false} SortByFrequencyStable(s: seq<string>, c: Counter, k: nat)
    ensures OfCount(SortByFrequency(s, c), c, k) == OfCount(s, c, k)
  {
    if s != [] {
      var n := |s|;
      SortByFrequencyStable(s[..n - 1], c, k);
      InsertByFrequencyStable(s[n - 1], SortByFrequency(s[..n - 1], c), c, k);
      OfCountLast(s, c, k);
    }
  }

  /** Insertion puts a name after the names of its own frequency. */
  lemma {:induction false} InsertByFrequencyStable(x: string, t: seq<string>, c: Counter, k: nat)
    requires ByFrequency(t, c)
    ensures OfCount(InsertByFrequency(x, t, c), c, k) ==
      OfCount(t, c, k) + (if Count(c, x) == k then [x] else [])
  {
    if t == [] {
      OfCountFront(x, t, c, k);
    } else if Count(c, t[0]) >= Count(c, x) {
      assert ByFrequency(t[1..], c);
      InsertByFrequencyStable(x, t[1..], c, k);
      OfCountConsAppend(InsertByFrequency(x, t[1..], c), t, c, k, if Count(c, x) == k then [x] else []);
    } else {
      OfCountFront(x, t, c, k);
      if Count(c, x) == k {
        OfCountNone(t, c, k);
      }
    }
  }

  /** Selecting from a list with one more name at its front. */
  lemma OfCountFront(x: string, t: seq<string>, c: Counter, k: nat)
    ensures OfCount([x] + t, c, k) == (if Count(c, x) == k then [x] else []) + OfCount(t, c, k)
  {
    assert ([x] + t)[1..] == t;
  }

  /** Replacing the tail of a list keeps an equation between their selections. */
  lemma OfCountConsAppend(rest: seq<string>, t: seq<string>, c: Counter, k: nat, tail: seq<string>)
    requires t != [] && OfCount(rest, c, k) == OfCount(t[1..], c, k) + tail
    ensures OfCount([t[0]] + rest, c, k) == OfCount(t, c, k) + tail
  {
    OfCountFront(t[0], rest, c, k);
    var head := if Count(c, t[0]) == k then [t[0]] else [];
    assert head + (OfCount(t[1..], c, k) + tail) == (head + OfCount(t[1..], c, k)) + tail;
  }

  /** A list whose names are all less frequent than `k` has none of frequency `k`. */
  lemma {:induction false} OfCountNone(t: seq<string>, c: Counter, k: nat)
    requires forall i :: 0 <= i < |t| ==> Count(c, t[i]) < k
    ensures OfCount(t, c, k) == []
  {
    if t != [] {
      OfCountNone(t[1..], c, k);
    }
  }

  /** Selecting from a non-empty list: its last name comes last. */
  lemma OfCountLast(s: seq<string>, c: Counter, k: nat)
    requires s != []
    ensures OfCount(s, c, k) ==
      OfCount(s[..|s| - 1], c, k) + (if Count(c, s[|s| - 1]) == k then [s[|s| - 1]] else [])
  {
    var n := |s|;
    OfCountSnoc(s[..n - 1], s[n - 1], c, k);
    assert s[..n - 1] + [s[n - 1]] == s;
  }

  /** Selecting from a list with one more name at its end. */
  lemma {:induction false} OfCountSnoc(s: seq<string>, x: string, c: Counter, k: nat)
    ensures OfCount(s + [x], c, k) == OfCount(s, c, k) + (if Count(c, x) == k then [x] else [])
  {
    if s == [] {
      assert [] + [x] == [x];
      OfCountFront(x, [], c, k);
    } else {
      assert (s + [x])[1..] == s[1..] + [x];
      OfCountSnoc(s[1..], x, c, k);
      var head := if Count(c, s[0]) == k then [s[0]] else [];
      var tail := if Count(c, x) == k then [x] else [];
      assert head + (OfCount(s[1..], c, k) + tail) == (head + OfCount(s[1..], c, k)) + tail;
    }
  }

  /** A list without repetitions has every element at most once in its multiset. */
  lemma {:induction false} DistinctMultiplicity<T>(s: seq<T>, y: T)
    requires Distinct(s)
    ensures multiset(s)[y] <= 1
  {
    if s != [] {
      assert s == [s[0]] + s[1..];
      DistinctMultiplicity(s[1..], y);
      if s[0] == y {
        assert y !in s[1..];
      }
    }
  }

  /** A permutation of a list without repetitions has none either. */
  lemma PermutationKeepsDistinct<T>(a: seq<T>, b: seq<T>)
    requires Distinct(a) && multiset(a) == multiset(b)
    ensures Distinct(b)
  {
    forall i, j | 0 <= i < j < |b| ensures b[i] != b[j] {
      if b[i] == b[j] {
        assert b == b[..j] + [b[j]] + b[j + 1..];
        assert b[i] in multiset(b[..j]) by { assert b[..j][i] == b[i]; }
        assert multiset(b)[b[i]] >= 2;
        DistinctMultiplicity(a, b[i]);
        assert false;
      }
    }
  }

  /** The list `extract_characters` returns for a counter in the given state. */
  function MainCharacters(c: Counter, minFrequency: int): (r: seq<string>)
    ensures ByFrequency(r, c)
    ensures |r| <= |c.keys|
    ensures forall x :: x in r ==> x in c.keys && Count(c, x) >= minFrequency && |x| >= 2 && x !in CommonWords
  {
    var g := FilterCommonWords(Frequent(c.keys, c, minFrequency));
    var r := SortByFrequency(g, c);
    assert |r| == |multiset(r)| == |multiset(g)| == |g|;
    assert forall x :: x in r ==> x in multiset(r);
    r
  }

  /** Sorting neither adds nor drops a name. */
  lemma SortedMembers(g: seq<string>, c: Counter, x: string)
    ensures x in SortByFrequency(g, c) <==> x in g
  {
    var r := SortByFrequency(g, c);
    assert x in r <==> x in multiset(r);
    assert x in g <==> x in multiset(g);
  }

  /** The main characters are exactly the counted non-stop-words of length at least 2 whose
      count reaches `minFrequency`, each listed once, most frequent first. */
  lemma MainCharactersSpec(c: Counter, minFrequency: int)
    requires CounterWellFormed(c)
    ensures var r := MainCharacters(c, minFrequency);
      && ByFrequency(r, c)
      && Distinct(r)
      && forall x :: x in r <==> x in c.counts && Count(c, x) >= minFrequency && |x| >= 2 && x !in CommonWords
  {
    var f := Frequent(c.keys, c, minFrequency);
    var g := FilterCommonWords(f);
    var r := SortByFrequency(g, c);
    PermutationKeepsDistinct(g, r);
    forall x ensures x in r <==> x in c.counts && Count(c, x) >= minFrequency && |x| >= 2 && x !in CommonWords {
      SortedMembers(g, c, x);
      assert x in c.keys <==> x in c.counts;
    }
  }

  const DefaultMinFrequency := 3

  /** The registry object. Python's salted `hash` is the constant `hash`. */
  class CharacterRegistry {
    var characters: map<string, Profile>
    var order: seq<string>
    var appearanceCount: map<string, int>
    var nameFrequency: Counter
    const hash: string -> int

    function State(): Registry
      reads this
    {
      Registry(characters, order, appearanceCount, nameFrequency)
    }

    ghost predicate Valid()
      reads this
    {
      WellFormed(State())
    }

    constructor(hash: string -> int)
      ensures Valid() && State() == EmptyRegistry() && this.hash == hash
    {
      characters := map[];
      order := [];
      appearanceCount := map[];
      nameFrequency := Counter(map[], []);
      this.hash := hash;
    }

    /** `extract_characters` on the candidate tokens of a text. */
    method ExtractCharacters(tokens: seq<string>, minFrequency: int) returns (names: seq<string>)
      requires Valid()
      modifies this
      ensures Valid()
      ensures State() == old(State()).(frequency := Update(old(nameFrequency), tokens))
      ensures names == MainCharacters(nameFrequency, minFrequency)
    {
      ghost var before := State();
      nameFrequency := Update(nameFrequency, tokens);
      assert State() == before.(frequency := nameFrequency);
      WithFrequency(before, nameFrequency);
      names := MainCharacters(nameFrequency, minFrequency);
    }

    method RegisterCharacter(name: string, description: string, appearance: Option<map<string, string>>,
                             imageSeed: Option<int>)
      requires Valid()
      modifies this
      ensures Valid()
      ensures State() == Register(old(State()), name, description, appearance, imageSeed, hash)
    {
      ghost var after := Register(State(), name, description, appearance, imageSeed, hash);
      if name !in characters {
        characters := characters[name := NewProfile(name, description, appearance, imageSeed, hash)];
        order := order + [name];
        appearanceCount := appearanceCount[name := 0];
      }
      assert State() == after;
    }

    function GetCharacterSeed(name: string): (s: int)
      reads this
      ensures s == CharacterSeed(State(), name, hash)
    {
      if name in characters then characters[name].imageSeed else HashSeed(hash, name)
    }

    method UpdateCharacterAppearance(name: string, description: string)
      requires Valid()
      modifies this
      ensures Valid()
      ensures State() == UpdateAppearance(old(State()), name, description)
    {
      if name in characters {
        var p := characters[name];
        characters := characters[name := p.(appearanceDescriptions := p.appearanceDescriptions + [description])];
      }
    }

    method GetCharacterPrompt(name: string) returns (prompt: string)
      requires Valid()
      modifies this
      ensures Valid()
      ensures (prompt, State()) == CharacterPrompt(old(State()), name)
    {
      if name !in characters {
        return "character: " + name;
      }
      var p := characters[name];
      var n := appearanceCount[name] + 1;
      appearanceCount := appearanceCount[name := n];
      prompt := Join(PromptParts(p, n), ", ");
    }
  }
}
