# Novel-to-anime pipeline: a Dafny model of its decision logic

The system turns an uploaded novel into illustrated, narrated scenes. A Flask service
(`web_app.py`) accepts the upload and runs the generation in a thread; the generator
(`anime_generator.py`) runs the scene workers concurrently and aggregates their progress.
A character registry (`character_manager.py`) keeps profiles, seeds and appearance counts.
A scene composer (`scene_composer.py`) decides shot types and builds storyboard prompts.
Accounts live in `user_auth.py`, InfluxDB access in `influx_helper.py`, and scene videos come
from `video_generator.py`. The web front end (`static/js/app.js`, `static/js/square.js`) and an
Android list adapter play back and list the results. A load test (`tests/test_api_load.py`)
summarises response times.

This project models the parts of that code that decide something, one Dafny module per source
file:

| module | file | form |
|---|---|---|
| `AnimeGenerator` | anime_generator.dfy | in-place progress arrays (`BatchProgress`) driven by the lock-serialised event trace, a value-level replay that specifies it, and the percentage formulas |
| `CharacterManager` | character_manager.dfy | a `CharacterRegistry` class whose methods are proved against pure transitions on a `Registry` value |
| `SceneComposer` | scene_composer.dfy | pure shot and prompt functions; a `Composer` class whose loops call into the registry |
| `UserAuth` | user_auth.dfy | the hash format with its hex round trip, the registration and login rules, and a `UserStore` class with the OAuth username loop |
| `WebApp` | web_app.dfy | the upload and status decisions as functions; an `Application` class holding `generation_status` |
| `InfluxHelper` | influx_helper.dfy | the configuration validators and query parameter building |
| `VideoGenerator` | video_generator.dfy | the polling loop and the retry loop as methods proved against recursive specification functions |
| `LoadTest` | load_test.dfy | the `LoadTestResult` accumulator and its statistics |
| `AppPlayer`, `SquarePlayer` | app_player.dfy, square_player.dfy | the page's player state as a `Player` class; the square page's title, download guard and progress bar |
| `SharedRecordsAdapter` | shared_records_adapter.dfy | the Android adapter's record list and timestamp formatting |
| `Wrappers`, `Text` | wrappers.dfy, text.dfy | `Option`/`Result`, and Python/JavaScript string operations (strip, trim, lower, join, split, contains, filter) |

These external effects become function parameters:
- HTTP services, the image generator, file reads and the database;
- PBKDF2, `os.urandom`, MD5 and Python's salted `hash`;
- the clock and `Math.random`.

A parameter stands for whatever those calls return, so every lemma holds for every behaviour of
the environment.

## Model

| member | source | states |
|---|---|---|
| Text.TruncTowardZero | anime_generator.py:68 | `int()` of a float keeps its sign and lies within one of it, truncating toward zero |
| AnimeGenerator.Clamp01 | anime_generator.py:80-83 | the clamp lies in [0, 1], is the identity on [0, 1] and saturates at both ends |
| AnimeGenerator.NormaliseRatio | anime_generator.py:73-83 | a reported value above 1.0 is read as a percentage and divided by 100; the stored ratio is always in [0, 1] |
| AnimeGenerator.PercentMatchesFraction | anime_generator.py:80-83 | a report of p percent (1 < p ≤ 100) stores the same ratio as the fraction p/100 |
| AnimeGenerator.SumBounds | anime_generator.py:67 | a sum of n ratios lies in [0, n] |
| AnimeGenerator.GlobalPercent | anime_generator.py:66-68 | an empty ratio list counts as all done and reports exactly ceil |
| AnimeGenerator.GlobalPercentBounds | anime_generator.py:66-68 | with ratios in [0, 1] and base ≤ ceil, the global percentage lies in [base, ceil] |
| AnimeGenerator.GlobalPercentAllDone | anime_generator.py:66-68 | when every ratio is 1.0 the global percentage is exactly ceil |
| AnimeGenerator.GlobalPercentMonotone | anime_generator.py:66-68 | raising any ratio never lowers the global percentage |
| AnimeGenerator.MeanMonotone | anime_generator.py:66-67 | the mean ratio of a list of ratios is non-negative and never falls when any ratio rises |
| AnimeGenerator.ScaledPercentMonotone | anime_generator.py:68 | for a non-negative mean, a larger mean never gives a smaller `base + int(avg * (ceil - base))` |
| AnimeGenerator.MaxWorkers | anime_generator.py:93 | the worker count lies in [2, 8], is 4 when the CPU count is unknown (or 0), and is the CPU count when that is in [2, 8] |
| AnimeGenerator.CharacterStagePercent | anime_generator.py:144-151 | the character-stage percentage lies in [20, 35) for an index below the total, and is 20 for the first character |
| AnimeGenerator.CharacterStageMonotone | anime_generator.py:144-151 | the character-stage percentage grows with the index |
| AnimeGenerator.InitialState | anime_generator.py:62-90 | every ratio starts at 0.0, every result slot at None, the completed count at 0; with a callback the one emission is the start announcement at base, and without one nothing is emitted |
| AnimeGenerator.ApplyReport | anime_generator.py:70-86 | a numeric report changes only slot idx, to the normalised ratio; a None or non-numeric report changes nothing; results and completed are untouched |
| AnimeGenerator.ApplyComplete | anime_generator.py:104-110 | a collection writes results[idx], raises completed by exactly one and leaves the ratios and the other slots alone |
| AnimeGenerator.StepEffect | anime_generator.py:70-112 | a report never touches the results or the raised worker; once a worker's exception is collected no further result is collected; the first collected exception leaves the shared state alone; a collection adds exactly one to completed |
| AnimeGenerator.FirstCrash | anime_generator.py:102-104 | the worker named is that of a failing event of the trace, and there is none only when no event fails |
| AnimeGenerator.ReplayRaised | anime_generator.py:102-112 | after any trace the exception the caller receives is that of the first failing event collected, and after it results and completed no longer change |
| AnimeGenerator.EmissionsNonDecreasing | anime_generator.py:66-86 | when no index's stored ratio decreases over the trace, the callback receives non-decreasing percentages |
| AnimeGenerator.CompletionAfter | anime_generator.py:104-110 | after any prefix of a trace without a raising worker, completed counts the collections, and a slot is filled iff its index was collected, with metadata that worker delivered |
| AnimeGenerator.AllCompleted | anime_generator.py:104-112 | when each index is collected once, completed == total and every slot i holds worker i's metadata, whatever the completion order |
| AnimeGenerator.FinalEmissionAtCeil | anime_generator.py:66-110 | when every worker reports 1.0 before returning, the last callback receives ceil with total/total |
| AnimeGenerator.BatchProgress.constructor | anime_generator.py:60-91 | allocates both lists in their initial state and announces the start when there is a callback |
| AnimeGenerator.BatchProgress.UpdateGlobalProgress | anime_generator.py:66-68 | appends one emission carrying the global percentage and completed/total when there is a callback |
| AnimeGenerator.BatchProgress.Report | anime_generator.py:70-86 | the array update equals ApplyReport on the state before |
| AnimeGenerator.BatchProgress.Complete | anime_generator.py:104-110 | the array update equals ApplyComplete on the state before |
| AnimeGenerator.BatchProgress.Handle | anime_generator.py:70-112 | one serialised event changes the arrays and the raised worker exactly as Step does on the state before |
| AnimeGenerator.RunScenesConcurrently | anime_generator.py:57-112 | an empty batch returns [] without any callback; otherwise the outcome is the replay of the trace, with 2 to 8 workers |
| CharacterManager.Add | character_manager.py:17 | counting one occurrence raises exactly that name's count by one and keeps the counter well formed |
| CharacterManager.UpdateCounts | character_manager.py:17 | after an update each name's count has grown by its number of occurrences among the tokens |
| CharacterManager.UpdateTwice | character_manager.py:17 | frequencies accumulate across calls: two updates equal one update with both token lists |
| CharacterManager.HashSeed | character_manager.py:42-58 | the hash seed lies in [0, 1000000) |
| CharacterManager.NewProfile | character_manager.py:38-45 | the new profile's codename is "<name>"; a truthy image_seed is kept, while a missing or zero one falls back to the hash seed |
| CharacterManager.Register | character_manager.py:37-46 | a new name is inserted with appearance count 0 and appended to the order; an existing name leaves the registry exactly as it was |
| CharacterManager.RegisterTwice | character_manager.py:37 | registering a name again keeps the first registration |
| CharacterManager.GetCharacter | character_manager.py:48-49 | the profile is returned iff the name is registered |
| CharacterManager.AllCharacters | character_manager.py:51-52 | the profiles are returned in registration order |
| CharacterManager.CharacterSeed | character_manager.py:54-58 | stored seed for a registered name, hash seed otherwise |
| CharacterManager.SeedAfterRegister | character_manager.py:42-58 | a freshly registered name's seed is its truthy image_seed, else the hash seed |
| CharacterManager.UpdateAppearance | character_manager.py:60-64 | appends one description to a registered name's list and changes nothing for an unknown name |
| CharacterManager.PromptParts | character_manager.py:74-93 | the parts start with "character: <codename>", include the description and then the appearance description only when each is non-empty (the appearance text sits in the slot after the description, or directly after the codename), always have the five style tags, and end in the four continuity tags iff the count exceeds 1 |
| CharacterManager.CharacterPrompt | character_manager.py:66-95 | an unknown name gives "character: name" and no state change; a registered name bumps only its own count by one and gets the joined parts |
| CharacterManager.ContinuityFromSecondPrompt | character_manager.py:71-93 | a new character's first prompt has no continuity phrases and its second contains "continuity maintained" |
| CharacterManager.FilterCommonWords | character_manager.py:26-33 | exactly the names that are not stop words remain, no longer than the input, distinct when the input is |
| CharacterManager.Frequent | character_manager.py:19-20 | exactly the keys with count ≥ min_frequency and length ≥ 2 remain, never more than once when the keys are distinct |
| CharacterManager.FrequentOrder | character_manager.py:19-20 | the selected keys are a subsequence of the counter's keys (counter order) and each occurs exactly as often as in the keys |
| CharacterManager.FilterCommonWordsOrder | character_manager.py:26-33 | the kept names are a subsequence of the input, in input order, each with its input multiplicity, and stop words occur zero times |
| Text.FilterOrder | character_manager.py:26-33 | a filter's result is a subsequence of its input and holds each accepted element as often as the input, rejected ones never |
| Text.FilterAppend | web_app.py:168-174 | filtering a list with one more element adds that element at the end exactly when it is accepted |
| CharacterManager.InsertByFrequency | character_manager.py:24 | insertion keeps the list ordered by non-increasing frequency and adds exactly one element |
| CharacterManager.SortByFrequency | character_manager.py:24 | the sort is ordered by non-increasing frequency and is a permutation of its input |
| CharacterManager.SortByFrequencyStable | character_manager.py:24 | `sorted` is stable: the names of any one frequency come out in their input order |
| CharacterManager.InsertByFrequencyStable | character_manager.py:24 | inserting a name into a frequency-ordered list puts it after every name of its own frequency |
| CharacterManager.PermutationKeepsDistinct | character_manager.py:24 | a permutation of a list without repetitions has none either |
| CharacterManager.MainCharacters | character_manager.py:17-24 | the names are ordered by non-increasing frequency, no more than the counted keys, and each is a counted non-stop-word of length ≥ 2 reaching min_frequency |
| CharacterManager.MainCharactersSpec | character_manager.py:17-24 | the extracted names are exactly the counted non-stop-words of length ≥ 2 reaching min_frequency, without repetitions, most frequent first |
| CharacterManager.CharacterRegistry.constructor | character_manager.py:8-11 | an empty registry |
| CharacterManager.CharacterRegistry.ExtractCharacters | character_manager.py:13-24 | the counter grows by the tokens, nothing else changes, and the result is MainCharacters of the new counter |
| CharacterManager.CharacterRegistry.RegisterCharacter | character_manager.py:35-46 | the new state is Register of the old one |
| CharacterManager.CharacterRegistry.GetCharacterSeed | character_manager.py:54-58 | the seed is CharacterSeed of the state |
| CharacterManager.CharacterRegistry.UpdateCharacterAppearance | character_manager.py:60-64 | the new state is UpdateAppearance of the old one |
| CharacterManager.CharacterRegistry.GetCharacterPrompt | character_manager.py:66-95 | the prompt and the new state are CharacterPrompt of the old state |
| SceneComposer.DetermineShotType | scene_composer.py:286-297 | "close-up" iff the lowered emotion hits a surprise or anger keyword; "medium shot" iff no keyword hits and the text is over 50 characters; always one of three shot names |
| SceneComposer.SadnessOnlyWithoutStrongEmotion | scene_composer.py:288-293 | a sad emotion gives "medium close-up" unless it is also surprised or angry, since keywords are checked in order |
| SceneComposer.ShockedInCapitals | scene_composer.py:286-289 | "SHOCKED" is lowered before matching and gives a close-up |
| SceneComposer.SceneDescription | scene_composer.py:108-115 | the description starts with "场景中有", ends with "，" and the first 500 characters of the text, names every character, and uses "人物" when there are none |
| SceneComposer.ShotDescription | scene_composer.py:306-314 | a known shot type gets its table entry; an unknown one gets the literal "medium shot" |
| SceneComposer.PanelPromptParts | scene_composer.py:316-320 | two parts (description, shot description), and a third "角色: …" part iff there are characters |
| SceneComposer.PanelPrompt | scene_composer.py:316-328 | the prompt starts with the description and shot description, ends with the fixed style suffix, and names every character |
| SceneComposer.PromptManyCounts | scene_composer.py:322-325 | prompting for characters changes only appearance counts, each registered name's by its number of occurrences |
| SceneComposer.PromptManyConcat | scene_composer.py:322-325 | prompting for two lists in turn is prompting for their concatenation |
| SceneComposer.PromptStepEffect | scene_composer.py:322-325 | a registered name appends exactly its CharacterPrompt text after the prompts gathered so far and bumps its own count by one; an unknown name changes nothing |
| SceneComposer.PromptManyUnregistered | scene_composer.py:322-325 | there are never more prompts than names, and names none of which is registered give no prompt and leave the registry as it was |
| SceneComposer.SceneSeeds | scene_composer.py:231-233 | the seeds map holds exactly the scene's registered characters, each with its stored seed |
| SceneComposer.Attempts | scene_composer.py:239-262 | one establishing wide shot with at most 200 characters of narration when there is narration, then one attempt per dialogue line |
| SceneComposer.Collected | scene_composer.py:237-276 | the panels are as many as the produced images, numbered 0, 1, … without gaps, each at panel_NNN.png of its own index |
| SceneComposer.StoryboardShape | scene_composer.py:237-276 | at most (narration ? 1 : 0) + len(dialogues) panels, indices without gaps, and a drawn establishing panel is a wide shot of at most 200 characters |
| SceneComposer.CollectedPrefix | scene_composer.py:249-276 | later attempts only append panels |
| SceneComposer.NoImagesNoPanels | scene_composer.py:274-353 | when the image generator always fails, there are no panels |
| SceneComposer.NonBlankIndices | scene_composer.py:360-362 | the kept positions are increasing and name non-blank paragraphs |
| SceneComposer.NonBlankIndicesComplete | scene_composer.py:360-362 | every non-blank paragraph is kept |
| SceneComposer.BlankIffStripEmpty | scene_composer.py:361 | strip() leaves nothing iff the paragraph is white space only |
| SceneComposer.ScenesAt | scene_composer.py:366-367 | scene j is built from the j-th kept paragraph with index start_index + its original position |
| SceneComposer.Composer.ExtractCharactersFromText | scene_composer.py:98-106 | exactly the registered names occurring in the text, in registration order, without repetitions |
| SceneComposer.Composer.GenerateStoryboardPanel | scene_composer.py:299-353 | the image request carries PanelPrompt and the registered characters' prompts; the panel is returned iff an image was produced; the registry moves as PromptMany says |
| SceneComposer.Composer.PromptCharacters | scene_composer.py:322-325 | the prompts gathered and the registry afterwards are PromptMany of the registry before |
| SceneComposer.Composer.PromptOne | scene_composer.py:323-325 | a registered name appends its prompt and bumps its count as PromptStep says; an unknown one changes nothing |
| SceneComposer.Composer.TryPanel | scene_composer.py:264-276 | a drawn panel is appended with the next index; a failed one consumes no index |
| SceneComposer.Composer.GenerateStoryboardPanels | scene_composer.py:231-280 | the panels are Collected over all attempts and the registry is PromptMany over their characters |
| SceneComposer.Composer.DialoguePanels | scene_composer.py:253-276 | the loop over the dialogues extends Collected and PromptMany one attempt at a time |
| SceneComposer.Composer.CreateScenesFromParagraphs | scene_composer.py:355-369 | blank paragraphs are skipped and each scene keeps its original position in the numbering |
| UserAuth.HexValueOfDigit | user_auth.py:39-48 | reading back a hex digit gives its value |
| UserAuth.Hex | user_auth.py:42 | the hex text is twice as long as the bytes |
| UserAuth.FirstNonAscii | user_auth.py:45 | the position of the first non-ASCII character, every earlier one being ASCII, or the length when there is none |
| UserAuth.FromHexAt | user_auth.py:45 | decoding from position i gives at most half as many bytes as characters remain; an error names a position from i on that is the end of the text or holds a non-digit |
| UserAuth.FromHex | user_auth.py:45 | a text with a non-ASCII character fails at the first one; otherwise an error position is the end of the text or a non-digit, and a success has at most half as many bytes as characters |
| UserAuth.FromHexPositions | user_auth.py:45 | "0g" fails at 1, "abc" at 3 (end of text inside a pair), "zzé" at 2 (the non-ASCII character), and "ab cd" decodes to two bytes with the space skipped |
| UserAuth.FromHexAtOfHex | user_auth.py:42-46 | reading pairs from where the hex text of some bytes begins gives those bytes |
| UserAuth.FromHexOfHex | user_auth.py:42-46 | bytes.fromhex inverts .hex() |
| UserAuth.HexInjective | user_auth.py:42-46 | different bytes have different hex texts |
| UserAuth.HashPassword | user_auth.py:39-42 | the stored hash is the 64 hex characters of the salt followed by the hex of the derived key |
| UserAuth.Drop | user_auth.py:46 | slicing from n gives the suffix, or "" when the text is shorter |
| UserAuth.VerifyPassword | user_auth.py:44-48 | a missing hash raises the subscript TypeError; an undecodable salt raises "non-hexadecimal number found in fromhex() arg at position N" with the position fromhex reports; otherwise the result is whether the derived key's hex equals the text after the 64 salt digits |
| UserAuth.VerifyHashed | user_auth.py:39-48 | a hash verifies against its own password, and against another iff the KDF gives the same key for it |
| UserAuth.FindByUsername | user_auth.py:81-83 | a row is found iff the username is taken, and it is that user's row |
| UserAuth.FindByOAuth | user_auth.py:106-108 | a row is found iff some row has that provider and id |
| UserAuth.RegistrationError | user_auth.py:51-60 | empty fields first, then username shorter than 3, then password shorter than 6; no error iff both lengths are met |
| UserAuth.Login | user_auth.py:74-90 | an empty field fails without lookup; otherwise login succeeds iff the user exists and the password verifies, returning that row's id and name with '登录成功'; an unknown user or a wrong password gives '用户名或密码错误', and a verification that raises gives '登录失败: ' + its message |
| UserAuth.FindAppended | user_auth.py:62-70 | a username inserted fresh is found with its own row |
| UserAuth.LoginAfterRegister | user_auth.py:62-88 | after a valid registration the user logs in with that password, and with another only when the KDF agrees on it |
| UserAuth.OAuthAccountLogin | user_auth.py:74-90 | logging in to an OAuth-only account (no password hash) fails with the TypeError text |
| UserAuth.UserById | user_auth.py:92-100 | the user with that id, or None when no row has it |
| UserAuth.UserStore.constructor | user_auth.py:18-37 | an empty table whose first id is 1 |
| UserAuth.UserStore.Insert | user_auth.py:122-127 | an insert appends one row with the next id and keeps usernames unique |
| UserAuth.UserStore.TryInsert | user_auth.py:121-129 | the insert goes through iff the username is not taken, appending exactly one row; a refused insert changes nothing |
| UserAuth.UserStore.RegisterUser | user_auth.py:50-72 | a validation error changes nothing; a taken username gives '用户名已存在'; otherwise exactly one row with the salted hash is added |
| UserAuth.UserStore.GetOrCreateOAuthUser | user_auth.py:102-135 | an existing provider and id is returned without inserting; otherwise the first free name among base, base_1 … base_99 is inserted, or the loop fails with '用户名冲突，注册失败' |
| UserAuth.UserStore.CreateOAuthUser | user_auth.py:118-133 | the name inserted is the first free one among base, base_1 … base_99; when all are taken nothing is inserted and the result is '用户名冲突，注册失败' |
| UserAuth.BaseUsername | user_auth.py:115-116 | a given username is kept; otherwise the name is provider + "_user_" + the first 8 characters of the id |
| UserAuth.Candidates | user_auth.py:118-131 | the hundred names tried: base, then base_1 … base_99 |
| UserAuth.FirstFree | user_auth.py:118-133 | the first name from position k on that is not taken, every earlier one being taken, or None when all of them are taken |
| WebApp.LastDot | web_app.py:26 | the index of the last '.', or None when there is none |
| WebApp.Extension | web_app.py:26 | there is an extension iff the name contains '.', and it is the dot-free text after the last '.' |
| WebApp.AllowedFile | web_app.py:16-26 | allowed iff the name has a '.' and its lowered extension is "txt" |
| WebApp.AllowedFileExamples | web_app.py:25-26 | "chapter.one.TXT" is allowed; "txt" and "novel.txt.zip" are not |
| WebApp.FormFlag | web_app.py:118-120 | a flag is true iff its lowered value (or default) is "true" |
| WebApp.FormFlagDefaults | web_app.py:118-120 | enable_video defaults to false, while use_ai_analysis and generate_storyboard default to true |
| WebApp.ParseStripped | web_app.py:114 | a value iff the text is digits with at most one leading '+' or '-', and then the digits' value, negated after '-' |
| WebApp.ParseInt | web_app.py:114 | a value iff the stripped text is digits with at most one leading '+' or '-'; the value is that of the digits, negated after '-' |
| WebApp.ParseIntOfNat | web_app.py:114 | the decimal text of a number parses back to it |
| WebApp.IntTextLiteral | web_app.py:114 | `str(n)` has no white space at either end and reads back as n |
| WebApp.ParseIntOfInt | web_app.py:114 | `str(n)` of any integer, with white space around it, reads back as n |
| WebApp.ParseIntSigned | web_app.py:114 | '+' or '-' before the digits of m, with white space around it, reads as m or -m |
| Text.StripPadded | web_app.py:114 | stripping white space from around a text that neither starts nor ends with white space gives that text |
| WebApp.ApiKey | web_app.py:115-123 | a non-empty form key wins; otherwise the environment key |
| WebApp.UploadNovel | web_app.py:83-139 | the decision order is: no 'novel' part, then an empty name (both before saving), then an unsupported type, then saving; a saved file that is not valid UTF-8 gives 500 (no statistics row); a readable one records its character count and gives 400 without an API key, and otherwise 200 with a job carrying the task id, the key and the flags read with their defaults |
| WebApp.AsWrittenFinalStatus | web_app.py:36-73 | as written, every task ends in 'error' without metadata |
| WebApp.FinalStatus | web_app.py:43-73 | a successful generation gives 'completed', 100 and its metadata; a raised error gives 'error' and its message |
| WebApp.GetStatus | web_app.py:141-146 | 404 iff the task is unknown; otherwise the stored entry unchanged |
| WebApp.ScenesGate | web_app.py:148-155 | 404 for an unknown task, 400 unless the status is 'completed', and no error iff it is completed |
| WebApp.AsWrittenScenesNeverServed | web_app.py:36-48 | as written, get_scenes answers 400 for every generated task |
| WebApp.ScenesServedAfterSuccess | web_app.py:148-155 | with the generator called as intended, a successful task's scenes pass the gates |
| WebApp.ShotsWithUrls | web_app.py:168-174 | every listed shot has a non-empty path and url "/api/file/" + path |
| WebApp.ShotsWithUrlsComplete | web_app.py:168-174 | the paths listed are exactly the non-empty shot paths, in shot order, each once per shot |
| WebApp.MarkShots | web_app.py:170-173 | every shot with a path gets its url, the others stay as they were |
| WebApp.ViewScene | web_app.py:168-180 | image_url iff no storyboard shots; audio_url always; video_url iff video_path is non-empty |
| WebApp.ViewScenes | web_app.py:160-181 | never more scenes than folders; all metadata files parsed gives one scene per folder, none parsed gives none |
| WebApp.ViewScenesReadable | web_app.py:160-181 | for any mix of folders, scene k is the view of the k-th folder whose metadata file was parsed |
| WebApp.ViewScenesAllReadable | web_app.py:160-181 | when every metadata file was parsed, scene k is the view of folder k |
| WebApp.Application.constructor | web_app.py:23 | an empty status table |
| WebApp.Application.GenerateAnimeAsync | web_app.py:28-73 | the task is marked processing, then left as FinalStatus; nothing else in the table changes |
| WebApp.Application.GetScenes | web_app.py:148-186 | the gate's error when there is one; otherwise 500 with no JSON error when some existing metadata file cannot be read, and else 200 with ViewScenes of the metadata's folders |
| WebApp.CollectScenes | web_app.py:160-181 | the loop raises iff some folder's existing metadata file cannot be read, and otherwise builds ViewScenes of the folders |
| InfluxHelper.TimeoutPair | influx_helper.py:9-10 | the connect and read timeouts, in that order |
| InfluxHelper.Clean | influx_helper.py:16-21 | the result is stripped at both ends and has no U+3000 left |
| InfluxHelper.ToAsciiOrRaise | influx_helper.py:13-21 | None raises; otherwise the cleaned text is returned iff it is Latin-1 encodable, and the error names the field |
| InfluxHelper.ToAsciiIdempotent | influx_helper.py:13-21 | a value the validator accepts is accepted unchanged a second time |
| InfluxHelper.NewHelper | influx_helper.py:25-40 | org, bucket, a string retention policy and the token are checked in that order; once the first three pass, the helper is built iff the token is neither missing, blank nor the placeholder, and a refused token gives the placeholder error; the cleaned values are stored |
| InfluxHelper.PlaceholderTokenRefused | influx_helper.py:34-36 | a token starting with '替换为', or one of only spaces, is refused |
| InfluxHelper.QueryParams | influx_helper.py:89-96 | db is the argument or the bucket; rp is present iff the argument or the stored policy is truthy, preferring the argument |
| InfluxHelper.QueryFrames | influx_helper.py:98-114 | no results or no series give no frames; otherwise one frame per series |
| InfluxHelper.WriteLineProtocol | influx_helper.py:57-60 | the write targets the helper's bucket and org, and the record splits back into the given lines |
| InfluxHelper.SplitJoin | influx_helper.py:57-60 | splitting the newline-joined lines gives the lines back when none contains a newline |
| VideoGenerator.FullPrompt | video_generator.py:26-29 | the prompt + ", " followed by the given keywords, or the default style suffix |
| VideoGenerator.CachePath | video_generator.py:31-32 | the path is the cache folder + "/video_" + the md5 digest of "prompt_aspect" + ".mp4", and the digest can be read back from it |
| VideoGenerator.CachePathShared | video_generator.py:31-32 | in one cache folder two requests share a cached file iff their keys have the same digest |
| VideoGenerator.CreatePayload | video_generator.py:95-107 | the payload holds the prompt as its only instance, the duration, the aspect ratio, one sample and audio on |
| VideoGenerator.ImagePathNotSent | video_generator.py:95-107 | the payload does not depend on the image path |
| VideoGenerator.TaskIdOf | video_generator.py:109-124 | the response's id, or None when the call raised |
| VideoGenerator.WaitResult | video_generator.py:126-168 | a returned url is the first video of a 'Completed' poll |
| VideoGenerator.WaitOutcomes | video_generator.py:148-168 | 'Completed' with videos returns the first url, and with none returns None; 'Failed'/'Rejected' returns None; other statuses poll again |
| VideoGenerator.WaitTimesOut | video_generator.py:134-168 | once max_wait has passed the wait returns None |
| VideoGenerator.WaitForCompletion | video_generator.py:126-168 | the polling loop returns WaitResult |
| VideoGenerator.FirstSuccess | video_generator.py:38-86 | the first attempt that creates, waits and downloads successfully, or None when every attempt fails |
| VideoGenerator.VideoOutcome | video_generator.py:31-86 | a cache hit returns the cache path with no task created; at most max_retries creations; a path is returned iff some attempt succeeds; max_retries ≤ 0 returns None |
| VideoGenerator.GenerateVideo | video_generator.py:19-86 | the retry loop's result and creation count are VideoOutcome |
| VideoGenerator.SceneTexts | video_generator.py:192 | the texts of the scenes, "" where one is missing |
| VideoGenerator.Take3 | video_generator.py:192 | the first three scenes, or all of them when there are fewer |
| VideoGenerator.MergedRequest | video_generator.py:187-202 | None for no scenes; otherwise the space-joined texts of the first three and the first scene's image |
| VideoGenerator.MergedPromptHasTexts | video_generator.py:192 | the merged prompt contains the text of each of the first three scenes |
| VideoGenerator.GenerateVideoFromScenes | video_generator.py:187-202 | no scenes give None without any task; otherwise the merged request goes through GenerateVideo with the duration 8, aspect ratio 16:9 and retry count 10 of the signature |
| LoadTest.InsertSorted | tests/test_api_load.py:59 | insertion keeps the list sorted and adds exactly one element |
| LoadTest.Sort | tests/test_api_load.py:59 | the sort is ordered and a permutation of its input |
| LoadTest.PyIndex | tests/test_api_load.py:61 | Python indexing, counting from the end for negative indices, fails outside [-n, n) |
| LoadTest.PercentileIndex | tests/test_api_load.py:60 | the index is at most n-1, and non-negative for p ≥ 0 |
| LoadTest.PercentileIndexMonotone | tests/test_api_load.py:60 | a higher fraction does not select a lower index |
| LoadTest.Percentile | tests/test_api_load.py:57-61 | the percentile is sorted(data)[min(int(n·p), n-1)], an element of the data; an empty list has none |
| LoadTest.PercentileMonotone | tests/test_api_load.py:57-61 | a higher percentile never reports a smaller time |
| LoadTest.CountSuccessfulAppend | tests/test_api_load.py:38-39 | one more code raises the success count iff it is in [200, 300) |
| LoadTest.TakeErrors | tests/test_api_load.py:54 | the first ten errors |
| LoadTest.ErrorRate | tests/test_api_load.py:46 | the rate is failed / total · 100 (rate · total == failed · 100), in [0, 100], 0 iff nothing failed and 100 iff everything failed |
| LoadTest.TimingOf | tests/test_api_load.py:47-53 | the minimum and maximum are recorded times below and above every time; p95 and p99 are the `_percentile` values at 0.95 and 0.99, with p95 ≤ p99; requests per second is n / sum |
| LoadTest.SortedBetweenEnds | tests/test_api_load.py:48-49 | every time lies between the first and the last of the sorted times |
| LoadTest.LoadTestResult.constructor | tests/test_api_load.py:14-19 | empty lists |
| LoadTest.LoadTestResult.AddResult | tests/test_api_load.py:21-25 | one time and one code are appended, and the error only when it is truthy; the lists stay the same length |
| LoadTest.LoadTestResult.GetStats | tests/test_api_load.py:27-55 | no results give zeros; otherwise failed == number of codes − successful, the error rate is ErrorRate(failed, total), the timing is TimingOf of the times, and the errors are cut to ten; a non-empty list whose times sum to 0.0 fails with the division by zero |
| LoadTest.MakeRequest | tests/test_api_load.py:74-88 | the elapsed time; for a GET or POST that responded, its status code and no error; for one that raised, 500 and the raised message; an unsupported method gives 500 and "Unsupported method: <method>" |
| AppPlayer.Player.constructor | static/js/app.js:1-4 | no scenes, index 0, not playing, no task |
| AppPlayer.Player.DisplayScene | static/js/app.js:466-469 | an index outside the scenes is ignored; otherwise that scene is shown and its audio loaded |
| AppPlayer.Player.StartPlayback | static/js/app.js:529-530 | playing |
| AppPlayer.Player.PlayRejected | static/js/app.js:533-537 | not playing after the audio element refuses |
| AppPlayer.Player.PausePlayback | static/js/app.js:540-544 | not playing |
| AppPlayer.Player.StopPlayback | static/js/app.js:546-551 | not playing |
| AppPlayer.Player.TogglePlayPause | static/js/app.js:521-527 | the playing flag flips |
| AppPlayer.Player.NavigateScene | static/js/app.js:553-560 | a move that stays among the scenes stops playback and shows the target; any other move changes nothing |
| AppPlayer.Player.HandleAudioEnded | static/js/app.js:562-572 | before the last scene it moves on one and plays; on the last it stops where it is |
| AppPlayer.Player.ReturnToHome | static/js/app.js:585-602 | no task, no scenes, index 0, not playing |
| AppPlayer.Player.StartTask | static/js/app.js:346 | the new task id is current |
| AppPlayer.Player.LoadScenes | static/js/app.js:442-451 | the new list is shown from index 0 |
| AppPlayer.Player.LoadPlayback | static/js/app.js:660-672 | the work's scenes from index 0, with its task id and text recorded |
| AppPlayer.Player.OpenEntry | static/js/app.js:122-130 | loads the work iff the entry has a session id and a positive generated-scene count (OpensPlayback), with the state LoadPlayback leaves; otherwise nothing changes |
| AppPlayer.PreviewTitle | static/js/app.js:99-101 | "..." is appended iff the text is longer than 10; the title is at most 13 characters |
| AppPlayer.HistoryTitle | static/js/app.js:98-105 | the text preview, or else the file name (or '未命名') cut to 20 with "..." iff longer |
| SquarePlayer.SharedTitle | static/js/square.js:70-76 | the text preview, or '未命名' |
| SquarePlayer.SharedTitleMatchesHistory | static/js/square.js:70-76 | the shared title is the history title for the same text |
| SquarePlayer.HandleDownload | static/js/square.js:283-287 | the download goes on iff there is a non-empty current task id and at least one loaded scene |
| SquarePlayer.DownloadAllowedAfterLoad | static/js/square.js:86-91 | after a click on a shared entry with a session id and generated scenes, whose scenes load non-empty, the download goes on |
| SquarePlayer.ProgressTick | static/js/square.js:330-334 | a tick below 90 never falls, rises by at most 15 (`next <= progress + 15`) and never passes 90; at or above 90 it stays |
| SquarePlayer.StageText | static/js/square.js:335-341 | the stage texts for below 30, 30 to 60, and from 60 on |
| SquarePlayer.ProgressBounded | static/js/square.js:327-342 | the bar stays in [0, 90] and never moves back |
| SquarePlayer.SimulateProgress | static/js/square.js:327-342 | the timer's progress is ProgressAfter of the draws, at most 90, with the matching stage text |
| SharedRecordsAdapter.FormatTimestamp | android/app/src/main/java/com/novelanime/app/SharedRecordsAdapter.kt:45-52 | "" stays ""; 1 to 15 characters are returned unchanged; otherwise the first 16 with every 'T' made a space |
| SharedRecordsAdapter.FormatTimestampExample | android/app/src/main/java/com/novelanime/app/SharedRecordsAdapter.kt:45-52 | "2024-05-01T12:30:45" becomes "2024-05-01 12:30" |
| SharedRecordsAdapter.FormatTimestampIdempotent | android/app/src/main/java/com/novelanime/app/SharedRecordsAdapter.kt:45-52 | formatting twice is formatting once |
| SharedRecordsAdapter.Adapter.ItemCount | android/app/src/main/java/com/novelanime/app/SharedRecordsAdapter.kt:38 | the item count is the number of records |
| SharedRecordsAdapter.Adapter.UpdateRecords | android/app/src/main/java/com/novelanime/app/SharedRecordsAdapter.kt:40-43 | the list is replaced and the count is its size |
| SharedRecordsAdapter.Adapter.Bind | android/app/src/main/java/com/novelanime/app/SharedRecordsAdapter.kt:27-36 | a row shows the file name, "作者: " + the user name, and the formatted timestamp |

## Left out

- The thread pool, its lock and the order of `as_completed`: a batch is the sequence of events in the order the lock serialised them, and that sequence is a parameter.
- The workers' own scene generation, the image, TTS and novel-analysis generators, the storyboard generator and the parser: these modules are not part of this model. Their answers are parameters.
- `python hash()`, PBKDF2, `os.urandom`, MD5 and UUIDs are uninterpreted functions or parameters. The salt is any 32 bytes.
- The regular expression of `extract_characters`: the candidate tokens are an input.
- Python's `str.lower` and `str.strip`, and JavaScript's `trim`, are modelled over ASCII letters and the languages' whitespace sets. Full Unicode case mapping is not modelled; the compared literals ("txt", "true", the English keywords) are ASCII.
- JavaScript and Kotlin string lengths are counted in code points, not UTF-16 units.
- WebApp.ParseInt and WebApp.ParseStripped: only the ASCII digits '0'–'9' are read. Python's `int()` also accepts underscores between digits and other Unicode decimal digits (such as the full-width '３' or the Arabic-Indic '٣'); those texts give None here.
- The `repr` of the offending value in the Latin-1 error message is not modelled; the error carries the field name and the cleaned value.
- A query frame keeps each series' columns, rows and tags (the tags as constant columns); the concatenation by `pd.concat` with `ignore_index=True` is left as the list of frames. `write_points`, `write_dataframe`, `query_flux` and the `write_api` setup are not modelled.
- The database of `user_auth.py` is a list of rows. The generic `except` paths ('注册失败', 'OAuth登录失败') only catch database errors and are not modelled.
- `serve_file`, the index and settings routes, the statistics calls of the upload and generation paths, and the content-size walk of `generate_anime_async`: file-system and database I/O.
- WebApp.Application.GenerateAnimeAsync: the intermediate 'processing' entry is observable only by a concurrent reader, so the method's contract states the final entry only.
- `os.path.join` is modelled as joining with "/".
- WebApp.Application.GetScenes: every `scene_info` of the stored metadata is taken to have a `'folder'` key, since the generator that writes it is not part of this model; a missing key raises `KeyError` in the source and answers 500.
- UserAuth.FromHex: error texts follow CPython 3.10 to 3.12. Later releases report an odd number of hex digits ("abc") with a different wording, which is not modelled. The `TypeError` text of WebApp.AsWrittenFinalStatus, with the qualified name `AnimeGenerator.__init__()`, is the wording of 3.10 and later.
- `create_scene` calls `increment_appearance_count`, which `CharacterManager` lacks; that path is not modelled.
- A poll response without `data` reads as `{}`: a "Completed" status then has no videos and the wait returns None (VideoGenerator.WaitOutcomes). An explicit `"data": null`, or a video that is not an object, raises inside the loop's `try`; that is `PollRaised`, after which the loop sleeps and polls again. The JSON decoding itself is not modelled.
- VideoGenerator.WaitResult: assumes the clock advances by at least one poll interval per poll (`ClockAdvances`), which is what `time.sleep` guarantees.
- The DOM, the audio element's own playback, fetch calls, the payment dialog and the blob download of the front end; only the state the handlers change is modelled.
- NaN and IEEE rounding: response times, ratios and progress are Dafny reals.
- LoadTest.TimingOf: `statistics.mean` and `median` are written out as definitions (sum / n, and the middle element or the mean of the two middle elements of the sorted list); the contract states the minimum, maximum, percentiles and requests per second, but no further property of the mean and median.
- AppPlayer.Player.HandleAudioEnded: the 500 ms `setTimeout` before `startPlayback` is merged into the handler, so a pause or a scene change inside that window, which the source would override when the timer fires, is not modelled.
- CharacterManager: a registered character holds an `appearance_descriptions` list (empty) from registration on; the source creates that key only at the first `update_character_appearance`. A character that was never updated therefore shows an empty list in the model where the source's record has no such key; nothing else in the source reads the key.

## Findings

| source | as written | input that shows it | evidently intended | confidence | as-written member | corrected member |
|---|---|---|---|---|---|---|
| web_app.py:36-48 | `generate_anime_async` constructs `AnimeGenerator` with `enable_video=`, which its constructor (anime_generator.py:18) does not accept; `generate_from_novel` (anime_generator.py:114-118) takes neither `generate_video` nor `generate_storyboard`. The `TypeError` is caught and every task ends with status 'error'. | any upload with a valid .txt file and an API key | the generator is called with the arguments it accepts, and a successful run is stored as 'completed' with its metadata | not executed | WebApp.AsWrittenScenesNeverServed | WebApp.ScenesServedAfterSuccess |
