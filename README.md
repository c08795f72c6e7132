# Short-video pipeline: a verified model of its core

The pipeline makes a short dialogue video in four stages:

1. Ask a language model for video ideas and append them to a JSON ledger (`ideas.py`).
2. Turn the pending idea with the smallest id into a storyboard of scenes and dialogue lines (`story.py`).
3. Synthesise each line with a text-to-speech service and write an audio manifest (`voices.py`).
4. Compose the final video (`edit.py`). It takes a random slice of a background clip at double speed, adds captions of four words at a time and the speakers' portraits, then the dialogue track and background music looped to length.

`main.py` drives the stages. It records each idea's `publishing_status` and dispatches the command line.

This project restates that logic in Dafny and proves what the code promises. Most proofs are about the timing engine:
- every layer lies inside the video;
- captions and dialogue clips follow each other without gaps;
- the music covers the dialogue;
- the caption chunks partition the words.

Other proofs are about the ledger:
- only the pending idea with the smallest id is processed;
- a status update touches only the first matching record;
- new ids are above every existing id.

Others cover the fallback order of providers and speech services, the retry schedule, file names, and the CLI exit codes.

Modules, one per source file, plus three shared ones:

| module | file | models |
|---|---|---|
| `Text` | `text.dfy` | `str.split`/`join`, `lower`/`upper` on ASCII letters, `replace`, `:02d`, `os.path` helpers |
| `JsonValue`, `IdeaRecords` | `json.dfy` | JSON values as `json.load` returns them; the ledger's ids, `pending` status and stable sort by id |
| `Captions` | `captions.dfy` | `edit.py` caption images and word chunks |
| `Timeline` | `timeline.dfy` | `edit.py` segment choice, overlays, layer timing, audio concatenation, music looping, the compositor |
| `Voices` | `voices.dfy` | engine start-up, retries, the unified TTS client, voice maps, clip names, the storyboard walk |
| `Ideas` | `ideas.dfy` | the provider manager, reading the ledger, unwrapping replies, renumbering and appending |
| `Story` | `story.dfy` | JSON extraction, storyboard file naming, processing the first pending idea |
| `Pipeline` | `pipeline.dfy` | current idea, status updates, a full run, idea generation, the command line |

Outside effects enter as parameters:
- Media durations are `real` inputs. Text measurement is a function parameter.
- A remote call's success is an oracle function: `ok(line)(attempt)` for speech, `answers(provider)` for chat, `generate(title, caption)` for a storyboard.
- Whether a host is reachable is a boolean.
- `random.randint` is a nondeterministic choice (`:|`) within the proven bound.
- Environment variables are a map or an optional string.
- The content of a JSON file is a `LedgerFile` value: `Missing`, `Unreadable`, or `Parsed(json)`.

Points where the code does something other than its evident purpose, modelled as written:
- `edit.py:194` cuts a slice of `total / 2` seconds. `edit.py:208-210` then speeds it up 2× and stretches it to the dialogue length, so it needs `total × 2` seconds of footage. See Findings.
- `story.py:58-61` searches for six backticks with a pattern that has no capture group, then calls `group(1)`. That raises `IndexError`, which the `except json.JSONDecodeError` does not catch. So a reply that is not JSON and mentions the fence fails outright (`Story.ExtractJson` returns `NoSuchGroup`).
- For an empty audio manifest, `concatenate_audioclips` (`edit.py:368-381`) returns `None`. `edit.py:319` passes that into the audio composite, which raises. The model returns `NoDialogue` (`Timeline.CreateVideoWithAudio`).

## Model

| member | source | states |
|---|---|---|
| `Timeline.UseCharacterImages` | edit.py:26 | overlays are on when the variable is unset, otherwise exactly when it reads "yes" in any case |
| `Timeline.UseCharacterImagesExamples` | edit.py:26 | "YES" and "Yes" enable overlays; "no", "" and "yes " disable them |
| `Timeline.SelectSegment` | edit.py:193-204 | the slice needs `total / 2` seconds; a start is drawn in `[0, floor(bg − needed)]` when room is left, else 0 with a warning; without a warning the slice ends inside the background |
| `Timeline.AdmissibleSliceFits` | edit.py:197-201 | any admissible start with room left gives a slice `[start, start + needed]` inside the background clip |
| `Timeline.SegmentGuardAdmitsOverrun` | edit.py:194-212 | as written, background 100 s and dialogue 60 s admit start 70, although 60 s at double speed needs 120 s of footage |
| `Timeline.SelectSegmentIntended` | edit.py:193-212 | corrected choice: needed = `total × 2`; same start rule and warning |
| `Timeline.IntendedSegmentCoversDialogue` | edit.py:193-212 | with the corrected length, the slice sped up twice lasts exactly the dialogue and ends inside the background |
| `Timeline.Resized` | edit.py:43-58 | the resized portrait has the target height, and its width is `int(target × w / h)`: the largest width whose ratio to the target height does not exceed the image's `w / h` |
| `Timeline.CharacterImages` | edit.py:217-238 | a portrait is loaded for Person 1 or 2 exactly when overlays are on and its file exists, always at `floor(0.25 × video height)` |
| `Timeline.CharacterCorners` | edit.py:272-282 | Person 1 sits 50 px from the left and bottom edges; anyone else sits 50 px from the right and bottom edges; both share the same baseline |
| `Timeline.CaptionTiming` | edit.py:256-263 | a line's captions each last `duration / chunks`, the first starts at the line's start, each starts where the previous ends, and the last ends with the line |
| `Timeline.LineWithinSpan` | edit.py:256-286 | every caption and portrait layer of a line lies within the line's interval |
| `Timeline.TimelineSplit` | edit.py:242-286 | the layers of `a + b` are the layers of `a` followed by those of `b` shifted by `a`'s total duration |
| `Timeline.LinePlacement` | edit.py:242-286 | line `i` is placed at the sum of the durations before it |
| `Timeline.TimelineWithinVideo` | edit.py:242-313 | every layer starts at or after 0 and ends by the total dialogue duration, which is the video's duration |
| `Timeline.ThreeLineExample` | edit.py:242-286 | lines of 2, 3 and 1.5 s start at 0, 2 and 5 s; the video lasts 6.5 s |
| `Timeline.SumOfAppend` | edit.py:185-189 | the accumulated total of two runs of clips is the sum of their totals |
| `Timeline.ConcatenateAudioClips` | edit.py:368-381 | no clips give None; otherwise one timed clip per input, clip `k` starting at the sum of the earlier durations |
| `Timeline.DialogueGapless` | edit.py:373-379 | concatenated dialogue starts at 0, has no gaps or overlaps, and ends at the sum of the clip durations |
| `Timeline.MusicCovers` | edit.py:298-306 | music shorter than the dialogue is repeated `floor(total / music) + 1` times, which is more than the dialogue and one copy fewer would not be; otherwise one copy; the track is cut to the dialogue length at half volume |
| `Timeline.MusicExample` | edit.py:302-306 | a 20 s track under 50 s of dialogue is repeated 3 times (60 s) and cut to 50 s |
| `Timeline.LoadDialogue` | edit.py:181-189 | the first loop opens one clip per manifest entry and its running total ends at the sum of the durations |
| `Timeline.PlaceCaptions` | edit.py:258-263 | the inner loop's cursor places exactly the line's caption layers |
| `Timeline.PlaceLines` | edit.py:242-286 | the outer loop emits exactly the timeline's layers and its cursor ends at the total duration |
| `Timeline.ConcatenatedDialogue` | edit.py:368-381 | concatenating the manifest's clips gives the dialogue track placed back to back |
| `Timeline.CreateVideoWithAudio` | edit.py:162-347 | no dialogue fails; otherwise the video holds a background slice of the corrected length, then the background and every line's layers, the concatenated dialogue, the looped music, lasts the total dialogue duration and is written to `final_videos/<audio folder name>/final_video.mp4` |
| `Captions.CreateLineImage` | edit.py:61-122 | the font shrinks one point at a time from the start size, stopping at the largest size whose text fits 80 % of the width or at 12; the image is the text box plus padding and stroke |
| `Captions.FittedFontSizeIsLargestFit` | edit.py:82-96 | the size chosen is at most the start size, at least 12 when it started above 12, fits unless it is 12, and every larger size up to the start is too wide |
| `Captions.LineImageCentred` | edit.py:98-112 | the text is drawn at (17, 10) with equal margins on both sides |
| `Captions.ChunksPartition` | edit.py:135-136 | the chunks, concatenated in order, are exactly the words |
| `Captions.ChunkSizes` | edit.py:135-136 | each chunk has 1 to 4 words, and only the last may have fewer than 4 |
| `Captions.ChunkTexts` | edit.py:134-137 | the loop builds one caption per chunk, the chunk's words joined by spaces |
| `Captions.ClipsOf` | edit.py:142-157 | one caption clip per chunk, each with the chunk's image at font size 20 and the same duration |
| `Captions.SumEqualDurations` | edit.py:140-152 | clips of equal duration `d` last `n × d` together |
| `Captions.AnimatedSubtitleClips` | edit.py:125-159 | no words give no clips; otherwise `ceil(words / 4)` clips whose durations add up to the line's duration |
| `Captions.CaptionWordsRoundTrip` | edit.py:127-136 | splitting a caption's text gives back exactly its chunk, and the chunks give back all the words |
| `Text.SplitJoin` | edit.py:127-136 | splitting words joined by single spaces gives the words back |
| `Text.SplitKeepsCharacters` | edit.py:127 | `split()` drops only whitespace |
| `Text.Pad2Faithful` | voices.py:344 | `:02d` of a non-negative number is at least two digits with that value; a negative number is "-" and its digits |
| `Text.NatToStringValue` | voices.py:344 | the decimal digits of a number read back as that number |
| `Text.StripExtensionIsPrefix` | voices.py:295 | `splitext(...)[0]` is a prefix of the name, and what it drops starts at the last dot and holds no other dot |
| `Text.LowerIdempotent` | main.py:487 | lower-casing twice is lower-casing once |
| `Voices.FirstOkMeaning` | voices.py:84-92 | from attempt `k`, the loop returns at the first attempt that succeeds, or re-raises at the last attempt when none does |
| `Voices.RetryOutcomeMeaning` | voices.py:82-94 | with at least one retry: success exactly when some attempt succeeds, at the first such attempt, otherwise the last attempt's error; with none: "All retry attempts failed" |
| `Voices.RetryPredict` | voices.py:82-94 | the retry loop gives that outcome and waits 1, 2, 4, ... s after each failed attempt except the last |
| `Voices.UnifiedTTSClient.constructor` | voices.py:54-58 | a new client is connected to the backup service if reachable, otherwise to the primary, otherwise raises |
| `Voices.UnifiedTTSClient.Connect` | voices.py:60-80 | the backup is tried first and wins when reachable; the primary only when the backup is not; with neither nothing is set and the connection fails |
| `Voices.UnifiedTTSClient.Generate` | voices.py:96-162 | the connected service answers exactly when its retry loop succeeds; the other service is never tried, because only the connected one has a client |
| `Voices.InitializeEngines` | voices.py:18-169 | `TTS_ENGINE` is lower-cased with "kokoro" as default. Kokoro, when reachable, runs with its client. Chatterbox, requested or reached because Kokoro is unreachable, fails start-up exactly when neither service is reachable; otherwise the engine is renamed "chatterbox", holds a connected unified client and no Kokoro client, and is on the backup service exactly when that is reachable. Other names start with no client |
| `Voices.KokoroVoice` | voices.py:174-177 | Person 1 speaks as `bm_lewis`, Person 2 as `bm_george`, anyone else as `bm_daniel` |
| `Voices.ChatterboxReference` | voices.py:182-185 | only Person 1 and Person 2 have a voice sample |
| `Voices.GenerateAudio` | voices.py:198-282 | the line is voiced as the engine, speaker and retry outcome decide |
| `Voices.VoiceCoverage` | voices.py:257-282 | when the service answers, Kokoro voices every speaker with its mapped voice, Chatterbox voices only Person 1 and 2, and an unknown engine voices no one |
| `Voices.ClipFilenameShape` | voices.py:344 | a clip's name starts with "scene_", ends with ".wav" and has no space |
| `Voices.SpeakerSlugExample` | voices.py:344 | "Person 1" becomes "person_1" in file names |
| `Voices.ClipFilenameExample` | voices.py:344 | scene 1, first line, Person 1 gives `scene_01_line_01_person_1.wav` |
| `Voices.VoiceScene` | voices.py:332-367 | a scene fails exactly when one of its lines has no text; otherwise it yields one entry per voiced line and skips failed lines |
| `Voices.VoiceLine` | voices.py:339-367 | a line gets its manifest entry when speech succeeds and the clip name can be built, and nothing when the error is caught |
| `Voices.ProcessStoryboardAudio` | voices.py:287-384 | a storyboard fails exactly when some line has no text; otherwise the folder is `output/<storyboard name without extension>` and the manifest lists the entries scene by scene |
| `Voices.SceneRecordsNamed` | voices.py:332-361 | a scene's entries number at most its lines, with 1-based line numbers and clip names built from scene, line and speaker |
| `Voices.ManifestNamed` | voices.py:314-361 | the manifest has at most `total_lines` entries, each named after its scene, line and speaker |
| `Voices.SceneFollowsLines` | voices.py:332-361 | a scene's entries are entries of some of its lines, in increasing line order, each carrying its scene's id, topic and style and its line's number, speaker and text |
| `Voices.ManifestFollowsStoryboard` | voices.py:323-367 | the manifest is an ordered selection of the storyboard's lines: entry k is the entry of the line at position k of a strictly increasing (scene, line) sequence and carries that line's scene id, topic, style, 1-based number, speaker and text |
| `Voices.SceneRecordsComplete` | voices.py:332-361 | a Kokoro scene with all ids, speakers and texts present, whose first attempts succeed, yields an entry for every line |
| `Voices.ManifestComplete` | voices.py:314-361 | under the same conditions for every scene, the manifest has exactly `total_lines` entries |
| `Ideas.InitializeClient` | ideas.py:19-71 | NVIDIA needs `NVIDIA_API_KEY`, G4F always connects, OPENAI needs `OPENAI_API_KEY`; any other name or a missing key gives no client |
| `Ideas.Fallbacks` | ideas.py:81-88 | NVIDIA falls back to G4F, G4F to NVIDIA, and any other provider has no fallback |
| `Ideas.ProviderChain` | ideas.py:73-90 | the primary provider is tried first, then its fallbacks |
| `Ideas.FirstWorking` | ideas.py:73-99 | setup succeeds exactly when some provider in the chain connects, and the connection comes from one of them |
| `Ideas.FallbackOrder` | ideas.py:73-99 | NVIDIA without a key falls back to G4F; NVIDIA and G4F always end connected; OPENAI is alone; an unknown provider never connects |
| `Ideas.Manager.constructor` | ideas.py:13-17 | the primary provider is `API_PROVIDER` upper-cased, NVIDIA by default, with no client yet |
| `Ideas.Manager.Adopt` | ideas.py:75-92 | the fields become the outcome of initialising the named provider |
| `Ideas.Manager.SetupWithFallback` | ideas.py:73-99 | the manager ends holding the first provider in the chain that connects, and reports success exactly when it holds one |
| `Ideas.Manager.ChatCompletion` | ideas.py:101-138 | no client raises; a failed request switches NVIDIA and G4F to each other and retries once; any other provider re-raises |
| `Ideas.MaxId` | ideas.py:168 | the maximum of `idea.get('id', 0)` is one of the ids and bounds them all |
| `Ideas.LoadExistingIdeas` | ideas.py:141-183 | a missing, unreadable, non-list, empty or incomparable ledger starts at `([], 0)`; otherwise the records and their maximum id |
| `Ideas.FirstNonEmptyList` | ideas.py:255-259 | the first member of a reply object that holds a non-empty list |
| `Ideas.Unwrap` | ideas.py:252-266 | a list is kept; an object yields its first non-empty list member or is wrapped; any other value is wrapped |
| `Ideas.UnwrapNonEmpty` | ideas.py:252-266 | unwrapping anything but a list gives at least one idea |
| `Ideas.IdeasFromReply` | ideas.py:243-280 | a parsed reply yields its unwrapped ideas when all are objects; otherwise the call reports failure |
| `Ideas.RenumberAndAppendIds` | ideas.py:406-425 | idea `i` gets id `start + i` and keeps all its other fields |
| `Ideas.Combine` | ideas.py:437 | the ledger written is the existing records followed by the new ones |
| `Ideas.FreshIdsAboveExisting` | ideas.py:492 | every new id is above every existing id and the new ids run from max + 1 to max + n |
| `Ideas.ChosenIdeas` | ideas.py:478-489 | the ranked ideas are used, or the initial ones when ranking fails; no initial ideas stops the run |
| `Ideas.CombineKeepsIds` | ideas.py:492-495 | the ledger written keeps the existing records in front; behind them comes the i-th chosen idea with id `start + i` and every other field unchanged |
| `Ideas.AppendRenumbered` | ideas.py:492-495 | the ledger written is the existing records, in order, followed by the chosen ideas, each with id `start + i` and its other fields as chosen |
| `Ideas.IdeasMain` | ideas.py:463-511 | the script writes exactly when a provider connects and ideas were produced. What it writes is the ledger read, followed by the chosen ideas, renumbered from the highest id + 1 and otherwise unchanged. It exits 0 exactly when the write succeeds |
| `Ideas.GenerateAndSave` | ideas.py:475-511 | after setup, a write happens exactly when ideas were produced. It holds the ledger read followed by the chosen ideas, numbered from max + 1 with their other fields kept. Exit 0 exactly when the write succeeds |
| `IdeaRecords.SortByIdSorted` | main.py:195 | sorting orders the ledger by id |
| `IdeaRecords.SortByIdMembers` | main.py:195 | sorting keeps exactly the records read |
| `IdeaRecords.FirstPending` | main.py:197-201 | the first record in list order whose status is "pending", if any |
| `IdeaRecords.FindPending` | story.py:205-209 | the loop over the sorted ledger stops at the first pending record, and runs to the end exactly when none is pending |
| `IdeaRecords.FirstPendingIsMinimal` | story.py:203-210 | in the sorted ledger the first pending record has the smallest pending id, and there is none exactly when no record is pending |
| `JsonValue.SetGet` | main.py:170-175 | after `d[key] = v`, `d[key]` is `v` and every other key reads as before |
| `Story.BracketSpan` | story.py:65-68 | the span runs from the first '[' to the nearest ']' after it, and exists exactly when some '[' is followed by a ']' |
| `Story.ExtractJson` | story.py:51-72 | in order: a reply that parses whole is used as is; else one mentioning the fence fails with no group; else the bracket span is used exactly when it exists and parses; else extraction fails, and only then |
| `Story.StoryboardFilename` | story.py:220 | the name is the title followed by ".json", of the same length plus 5 |
| `Story.StoryboardFilenameSafe` | story.py:220 | the name has no space and no '/', and keeps every other character of the title in place |
| `Story.StoryboardFilenameIdempotent` | story.py:220 | sanitising an already sanitised title changes nothing |
| `Story.StoryboardPathShape` | story.py:190-191 | the storyboard is saved as `story_board/<name>`, whose base name is the file name |
| `Story.ProcessFirstPendingIdea` | story.py:200-249 | ledger ids that cannot be sorted raise. With no pending idea the result is False and nothing is saved. Otherwise only the first pending idea in id order is processed; an unwritable ledger raises out of the `except`. Success (storyboard generated and written) records path, status and empty error and returns True. Failure records only the error text ("'caption'" for a missing caption, an `AttributeError` text for a non-string title, the write error) and returns False |
| `Story.OutcomeFields` | story.py:223-238 | success sets `final_output`, `publishing_status = storyboard_generated` and `error_log = ''` and nothing else; failure sets only `error_log`, so the idea stays pending |
| `Story.ChosenIsSmallestPending` | story.py:203-210 | the idea processed is a pending record of the ledger with the smallest id among pending records |
| `Story.SavedLedgerSorted` | story.py:223-239 | the ledger saved after either outcome is still ordered by id |
| `Pipeline.GetCurrentIdeaId` | main.py:189-204 | an unreadable or unsortable ledger gives None; otherwise the smallest id of a pending record, or None exactly when no record is pending |
| `Pipeline.FirstMatch` | main.py:169-176 | the index the loop breaks at: the first record whose id equals the argument (`True == 1` included), with every earlier record indexable |
| `Pipeline.Iterated` | main.py:169 | `for idea in ideas` visits a list's items, a dict's keys or a string's characters, and raises on anything else |
| `Pipeline.UpdateIdeaStatus` | main.py:163-184 | True and a write exactly when the ledger reads, every record before the match (or all of them) has an id, and the write succeeds; the list written changes only the first match |
| `Pipeline.UpdatedFields` | main.py:170-175 | the record gets the new status; `final_output` only when non-empty; `error_log` only when non-empty; every other field is kept |
| `Pipeline.UpdatedListMeaning` | main.py:166-179 | only the first matching record changes, and with no match the list is written back as read |
| `Pipeline.UpdateKeepsMatch` | main.py:169-176 | an update keeps the record's id, so the next update for that id finds the same record |
| `Pipeline.LastStatusWins` | main.py:323-398 | after any run of updates for one idea, its record carries the status of the last one |
| `Pipeline.CompletedRecordsVideo` | main.py:355-373 | after `audio_generated` then `completed`, the record reads `completed` with the video path as `final_output` |
| `Pipeline.GenerateNewIdeas` | main.py:209-259 | idea generation succeeds exactly when a provider connects, ideas were produced and the ledger write succeeds |
| `Pipeline.FailureLog` | main.py:323-398 | every failure records a non-empty error: the step's own message, "Pipeline error: …" or "Pipeline interrupted by user" |
| `Pipeline.RunPipeline` | main.py:264-399 | missing files abort at once with nothing done. A missing ledger triggers one generation, and the run aborts without an idea if it fails. When the first lookup finds an idea, the run works on that idea. Otherwise ideas are generated once more and the second lookup's idea is used, or the run aborts. Success is exactly every step succeeding with a video path, recording `audio_generated` then `completed` with the path. Any failure after an idea is found ends with one `error` update carrying a message, preceded by `audio_generated` only when the voice-over succeeded |
| `Pipeline.ParseArgument` | main.py:487-517 | the argument is lower-cased and matched against the long and short forms of run, check, generate-ideas and help |
| `Pipeline.ExitCode` | main.py:488-517 | run and generate-ideas exit 0 exactly on success; check and help always exit 0; anything else exits 1 |
| `Pipeline.ParseIgnoresCase` | main.py:487 | an argument and its lower-cased form select the same command |
| `Pipeline.ParseRecognises` | main.py:487-517 | "--RUN", "-R", "--Check", "-G" and "--help" select their commands; "--runs" is unknown |

## Left out

- Rendering: pixel drawing of the caption stroke and fill, `ImageClip`, `CompositeVideoClip`, `speedx`, `volumex`, encoding and `close()`. These are library calls; only the arithmetic around them is modelled.
- Floating point: durations are exact reals, and `int()` truncation is `Floor` on non-negative values.
- Media probing: clip durations, image sizes and text measurement are inputs.
- Network and sleeping: OpenAI, g4f, the gradio clients and the background-video download are oracles or booleans. `time.sleep` appears only as the list of waits in `Voices.RetryPredict`.
- File-system work: existence checks, `makedirs`, `shutil.copy`, `find_latest_storyboard` and `find_latest_audio_folder`, `.env` loading and JSON (de)serialisation. A file's content is a `LedgerFile` or storyboard value. Where the outcome of a write decides the result, it is an input: `writeOk` for the ledger in `ideas.py` and `update_idea_status`, and `write(path)` (the error text) and `ledgerWritable` in `story.py`. The other writes are taken to succeed: the clip copy and `audio_metadata.json` in `voices.py`, and the video file in `edit.py`.
- Prompt texts, progress output, `check_required_files`, the interactive menu and `process_specific_storyboard` / `test_tts_engine` in `voices.py`. None of these holds logic beyond output and existence checks.
- `generate_storyboard`, `generate_initial_ideas` and `rank_and_filter_ideas` as model requests: their parsed replies, or their success with an error text, are inputs. Their reply handling is modelled: `Ideas.Unwrap`, `Ideas.IdeasFromReply`, `Story.ExtractJson`.
- JSON numbers are integers. Floats, and ids of other types that Python would still sort or compare, are not modelled; a ledger whose ids are not all integers counts as one the sort rejects.
- Text.Lower, Text.Upper: only ASCII letters change case. Python's `str.lower`/`upper` also map other letters, and a few of them change length or map onto ASCII (the Kelvin sign lowers to `k`, the dotless `ı` uppers to `I`). So for arguments with such characters the model can disagree with the source in `Pipeline.ParseArgument` (`main.py:487`), `Ideas.PrimaryProvider` (`ideas.py:14`), `Voices.InitializeEngines` (`voices.py:18`), `Voices.SpeakerSlug` (`voices.py:344`) and `Timeline.UseCharacterImages` (`edit.py:26`).
- Python's `True == 1` comparison is modelled for ids in `update_idea_status` only.
- Pipeline.RunPipeline: what each stage returns is an input (`Stages`), not a call into the stage models. A `KeyboardInterrupt` before the idea is found is not modelled.
- Timeline.CreateVideoWithAudio: the music length must be positive. A zero-length music file raises `ZeroDivisionError` in the source when the dialogue is longer, and that case is not modelled.
- Timeline.CreateVideoWithAudio: the compositor cuts the background slice at the corrected length (`Timeline.SelectSegmentIntended`, see Findings). The source's own length is kept in `Timeline.SelectSegment`.
- Voices.UnifiedTTSClient.Generate: the service reply itself (an audio path) is not modelled, only whether a service answered.
- Voices.GenerateAudio: a missing voice sample file falls back to a default voice in the source. Only the reference path is recorded.

## Findings

| source | as written | input that shows it | evidently intended | confidence | as-written member | corrected member |
|---|---|---|---|---|---|---|
| edit.py:194 | `video_needed_duration = total_audio_duration / VIDEO_SPEED`, then a slice of that length is sped up 2× and stretched to the dialogue length | background 100 s, dialogue 60 s: needed is 30 s, start 70 is admissible, but 60 s of sped-up footage needs 120 s of source, which a start at 70 cannot provide | the slice must be `total × VIDEO_SPEED` seconds long so that, sped up, it lasts the dialogue | high, not executed | `Timeline.SelectSegment`, `Timeline.SegmentGuardAdmitsOverrun` | `Timeline.SelectSegmentIntended`, `Timeline.IntendedSegmentCoversDialogue` |
