/**
 * Text-to-speech stage (`voices.py`): engine selection, the retrying
 * remote call, the unified client that falls back between two speech
 * services, the speaker-to-voice maps, and the walk over a storyboard that
 * names each clip and writes the audio manifest. Remote calls are oracles:
 * whether a host is reachable is a boolean, and whether attempt `a` of the
 * speech call for dialogue line `n` succeeds is `ok(n)(a)`.
 */
module Voices {
  import opened Text
  import opened JsonValue

  const KOKORO := "kokoro"
  const CHATTERBOX := "chatterbox"
  const DEFAULT_KOKORO_VOICE := "bm_daniel"
  const MAX_RETRIES := 3
  const DEFAULT_OUTPUT_FOLDER := "audio_output"
  const UNKNOWN_TOPIC := "unknown"
  const NEUTRAL_STYLE := "neutral"

  // ---------------------------------------------------------------------------
  // Retrying a remote call

  datatype RetryResult =
    | Returned(attempt: nat)   // attempt `attempt` (0-based) answered
    | Raised(attempt: nat)     // the last attempt's error is re-raised
    | AllRetriesFailed         // the loop never ran

  function Pow2(k: nat): (p: nat)
    ensures p >= 1
  {
    if k == 0 then 1 else 2 * Pow2(k - 1)
  }

  /** The sleeps taken before the given attempt: 1 s, 2 s, 4 s, ... */
  function Backoff(attempts: nat): (ws: seq<nat>)
    ensures |ws| == attempts && forall i :: 0 <= i < attempts ==> ws[i] == Pow2(i)
  {
    seq(attempts, i requires 0 <= i < attempts => Pow2(i))
  }

  function FirstOk(ok: nat -> bool, k: nat, maxRetries: nat): RetryResult
    requires k < maxRetries
    decreases maxRetries - k
  {
    if ok(k) then Returned(k)
    else if k == maxRetries - 1 then Raised(k)
    else FirstOk(ok, k + 1, maxRetries)
  }

  /** What `for attempt in range(max_retries)` with an early return yields. */
  function RetryOutcome(maxRetries: int, ok: nat -> bool): RetryResult
  {
    if maxRetries <= 0 then AllRetriesFailed else FirstOk(ok, 0, maxRetries)
  }

  lemma {:induction false} FirstOkMeaning(ok: nat -> bool, k: nat, maxRetries: nat)
    requires k < maxRetries
    ensures var r := FirstOk(ok, k, maxRetries);
      && (r.Returned? <==> exists j :: k <= j < maxRetries && ok(j))
      && (r.Returned? ==> k <= r.attempt < maxRetries && ok(r.attempt) && forall j :: k <= j < r.attempt ==> !ok(j))
      && (r.Raised? ==> r.attempt == maxRetries - 1 && forall j :: k <= j < maxRetries ==> !ok(j))
      && !r.AllRetriesFailed?
    decreases maxRetries - k
  {
    if !ok(k) && k < maxRetries - 1 {
      FirstOkMeaning(ok, k + 1, maxRetries);
    }
  }

  /** The call succeeds iff some attempt within the budget succeeds, and then it is the
      first such attempt; otherwise the last attempt's error surfaces. */
  lemma RetryOutcomeMeaning(maxRetries: int, ok: nat -> bool)
    ensures maxRetries <= 0 <==> RetryOutcome(maxRetries, ok).AllRetriesFailed?
    ensures maxRetries > 0 ==>
      var r := RetryOutcome(maxRetries, ok);
      && (r.Returned? <==> exists j :: 0 <= j < maxRetries && ok(j))
      && (r.Returned? ==> ok(r.attempt) && forall j :: 0 <= j < r.attempt ==> !ok(j))
      && (r.Raised? ==> r.attempt == maxRetries - 1)
  {
    if maxRetries > 0 {
      FirstOkMeaning(ok, 0, maxRetries);
    }
  }

  /** `_retry_predict` (and the identical loop of `generate_audio_kokoro`): one call per
      attempt, a `2 ** attempt` second sleep after each failure but the last. */
  method RetryPredict(maxRetries: int, ok: nat -> bool) returns (r: RetryResult, waits: seq<nat>)
    ensures r == RetryOutcome(maxRetries, ok)
    ensures r.Returned? || r.Raised? ==> waits == Backoff(r.attempt)
    ensures r.AllRetriesFailed? ==> waits == []
  {
    waits := [];
    var attempt := 0;
    while attempt < maxRetries
      invariant 0 <= attempt && (maxRetries > 0 ==> attempt < maxRetries)
      invariant waits == Backoff(attempt)
      invariant attempt > 0 ==> maxRetries > 0 && FirstOk(ok, 0, maxRetries) == FirstOk(ok, attempt, maxRetries)
      decreases maxRetries - attempt
    {
      if ok(attempt) {
        return Returned(attempt), waits;
      }
      if attempt == maxRetries - 1 {
        return Raised(attempt), waits;
      }
      waits := waits + [Pow2(attempt)];
      attempt := attempt + 1;
    }
    r := AllRetriesFailed;
  }

  // ---------------------------------------------------------------------------
  // The unified speech client

  datatype Api = Primary | Backup

  class UnifiedTTSClient {
    var currentApi: Option<Api>
    var primaryClient: bool
    var backupClient: bool

    /** A connected client: exactly one service handle is held, the one in use. */
    predicate Valid()
      reads this
    {
      && currentApi.Some?
      && (primaryClient <==> currentApi == Some(Primary))
      && (backupClient <==> currentApi == Some(Backup))
    }

    /** `__init__`: no handles, then `_connect`; `currentApi == None` stands for the
        `ConnectionError` it raises. */
    constructor (backupReachable: bool, primaryReachable: bool)
      ensures currentApi.None? <==> !backupReachable && !primaryReachable
      ensures currentApi.Some? ==> Valid()
      ensures currentApi == Some(Backup) <==> backupReachable
    {
      currentApi := None;
      primaryClient := false;
      backupClient := false;
      new;
      var _ := Connect(backupReachable, primaryReachable);
    }

    /** `_connect`: the backup service first, then the primary one. */
    method Connect(backupReachable: bool, primaryReachable: bool) returns (connected: bool)
      requires currentApi.None? && !primaryClient && !backupClient
      modifies this
      ensures connected <==> backupReachable || primaryReachable
      ensures connected ==> Valid()
      ensures backupReachable ==> currentApi == Some(Backup)
      ensures !backupReachable && primaryReachable ==> currentApi == Some(Primary)
      ensures !connected ==> currentApi.None? && !primaryClient && !backupClient
    {
      if backupReachable {
        backupClient := true;
        currentApi := Some(Backup);
        return true;
      }
      if primaryReachable {
        primaryClient := true;
        currentApi := Some(Primary);
        return true;
      }
      return false;
    }

    /** `generate`: the service in use with retries; on failure the other service if its
        handle is held, else the error. Returns which service produced the audio. */
    method Generate(backupOk: nat -> bool, primaryOk: nat -> bool) returns (served: Option<Api>)
      ensures currentApi.None? ==> served.None?
      ensures Valid() ==> served.Some? ==> served == currentApi
      ensures Valid() && currentApi == Some(Backup) ==>
        (served.Some? <==> RetryOutcome(MAX_RETRIES, backupOk).Returned?)
      ensures Valid() && currentApi == Some(Primary) ==>
        (served.Some? <==> RetryOutcome(MAX_RETRIES, primaryOk).Returned?)
    {
      if currentApi == Some(Backup) && backupClient {
        var r, _ := RetryPredict(MAX_RETRIES, backupOk);
        if r.Returned? {
          return Some(Backup);
        }
        if primaryClient {
          var r2, _ := RetryPredict(MAX_RETRIES, primaryOk);
          return if r2.Returned? then Some(Primary) else None;
        }
        return None;
      } else if currentApi == Some(Primary) && primaryClient {
        var r, _ := RetryPredict(MAX_RETRIES, primaryOk);
        if r.Returned? {
          return Some(Primary);
        }
        if backupClient {
          var r2, _ := RetryPredict(MAX_RETRIES, backupOk);
          return if r2.Returned? then Some(Backup) else None;
        }
        return None;
      }
      return None;
    }
  }

  // ---------------------------------------------------------------------------
  // Engine selection at start-up

  /** The engine name and which clients exist after start-up. */
  datatype Engines = Engines(name: string, kokoroClient: bool, unified: Option<UnifiedTTSClient>)

  datatype Startup = Ready(engines: Engines) | NoEngineAvailable

  /** Module start-up: `TTS_ENGINE` (default "kokoro", lower-cased); Kokoro falls back to
      Chatterbox when its host is unreachable; Chatterbox without any reachable service
      stops the program. Any other name starts with no client at all. */
  method InitializeEngines(setting: Option<string>, kokoroReachable: bool, backupReachable: bool, primaryReachable: bool)
    returns (s: Startup)
    ensures var requested := Lower(if setting.Some? then setting.value else KOKORO);
      && (requested == KOKORO && kokoroReachable ==> s == Ready(Engines(KOKORO, true, None)))
      && (requested != KOKORO && requested != CHATTERBOX ==> s == Ready(Engines(requested, false, None)))
      && ((requested == CHATTERBOX || (requested == KOKORO && !kokoroReachable)) ==>
            (s.NoEngineAvailable? <==> !backupReachable && !primaryReachable))
    ensures var requested := Lower(if setting.Some? then setting.value else KOKORO);
      (requested == CHATTERBOX || (requested == KOKORO && !kokoroReachable)) && s.Ready? ==>
        && s.engines.name == CHATTERBOX
        && (s.engines.unified.Some? && s.engines.unified.value.currentApi == Some(Backup) <==> backupReachable)
    ensures s.Ready? && s.engines.name == CHATTERBOX ==>
      !s.engines.kokoroClient && s.engines.unified.Some? && fresh(s.engines.unified.value) && s.engines.unified.value.Valid()
  {
    var engine := Lower(if setting.Some? then setting.value else KOKORO);
    var kokoroClient := false;
    if engine == KOKORO {
      if kokoroReachable {
        kokoroClient := true;
      } else {
        engine := CHATTERBOX;
      }
    }
    if engine == CHATTERBOX {
      var client := new UnifiedTTSClient(backupReachable, primaryReachable);
      if client.currentApi.None? {
        // `kokoro_client` is never set on this path.
        return NoEngineAvailable;
      }
      return Ready(Engines(engine, kokoroClient, Some(client)));
    }
    return Ready(Engines(engine, kokoroClient, None));
  }

  // ---------------------------------------------------------------------------
  // Voices

  /** `KOKORO_VOICE_MAP.get(speaker, "bm_daniel")`. */
  function KokoroVoice(speaker: Option<string>): (v: string)
    ensures speaker == Some("Person 1") ==> v == "bm_lewis"
    ensures speaker == Some("Person 2") ==> v == "bm_george"
    ensures speaker != Some("Person 1") && speaker != Some("Person 2") ==> v == DEFAULT_KOKORO_VOICE
  {
    match speaker
    case Some("Person 1") => "bm_lewis"
    case Some("Person 2") => "bm_george"
    case _ => DEFAULT_KOKORO_VOICE
  }

  /** `CHATTERBOX_VOICE_MAP.get(speaker)`: the voice sample to clone, if the speaker has one. */
  function ChatterboxReference(speaker: Option<string>): (r: Option<string>)
    ensures r.Some? <==> speaker == Some("Person 1") || speaker == Some("Person 2")
  {
    match speaker
    case Some("Person 1") => Some("assets/person_1.mp3")
    case Some("Person 2") => Some("assets/person_2.mp3")
    case _ => None
  }

  /** Engine-specific metadata merged into a manifest entry. */
  datatype VoiceInfo = KokoroMeta(voice: string) | ChatterboxMeta(reference: string)

  /** The outcome of `generate_audio` for one line, stated without the client object:
      Kokoro needs its client and a successful attempt; Chatterbox needs a connected client,
      a speaker with a voice sample (`os.path.exists(None)` raises for anyone else) and a
      successful attempt; any other engine name raises. */
  function LineVoice(e: Engines, speaker: Option<string>, ok: nat -> bool): Option<VoiceInfo>
  {
    if e.name == KOKORO then
      if e.kokoroClient && RetryOutcome(MAX_RETRIES, ok).Returned? then Some(KokoroMeta(KokoroVoice(speaker))) else None
    else if e.name == CHATTERBOX then
      var reference := ChatterboxReference(speaker);
      if e.unified.Some? && reference.Some? && RetryOutcome(MAX_RETRIES, ok).Returned?
      then Some(ChatterboxMeta(reference.value)) else None
    else None
  }

  predicate ClientReady(e: Engines)
    reads if e.unified.Some? then {e.unified.value} else {}
  {
    e.unified.Some? ==> e.unified.value.Valid()
  }

  /** `generate_audio`, with `generate_audio_kokoro` and `generate_audio_chatterbox`. */
  method GenerateAudio(e: Engines, speaker: Option<string>, ok: nat -> bool) returns (v: Option<VoiceInfo>)
    requires ClientReady(e)
    ensures v == LineVoice(e, speaker, ok)
  {
    if e.name == KOKORO {
      var voice := KokoroVoice(speaker);
      if !e.kokoroClient {
        return None;
      }
      var r, _ := RetryPredict(MAX_RETRIES, ok);
      return if r.Returned? then Some(KokoroMeta(voice)) else None;
    } else if e.name == CHATTERBOX {
      var reference := ChatterboxReference(speaker);
      if e.unified.None? || reference.None? {
        return None;
      }
      var client := e.unified.value;
      assert client.Valid();
      var api: Api := client.currentApi.value;
      assert api.Backup? || api.Primary?;
      assert client.currentApi == Some(api);
      var served := client.Generate(ok, ok);
      return if served.Some? then Some(ChatterboxMeta(reference.value)) else None;
    }
    return None;
  }

  /** Under Chatterbox only the two mapped speakers can be voiced; under Kokoro every
      speaker is, with the default voice for unmapped ones. */
  lemma VoiceCoverage(e: Engines, speaker: Option<string>, ok: nat -> bool)
    requires RetryOutcome(MAX_RETRIES, ok).Returned?
    ensures e.name == CHATTERBOX && e.unified.Some? ==>
      (LineVoice(e, speaker, ok).Some? <==> speaker == Some("Person 1") || speaker == Some("Person 2"))
    ensures e.name == KOKORO && e.kokoroClient ==> LineVoice(e, speaker, ok) == Some(KokoroMeta(KokoroVoice(speaker)))
    ensures e.name != KOKORO && e.name != CHATTERBOX ==> LineVoice(e, speaker, ok).None?
  {
  }

  // ---------------------------------------------------------------------------
  // Clip names and the output folder

  /** `f"scene_{scene_id:02d}_line_{line_idx + 1:02d}_{speaker.replace(' ', '_').lower()}.wav"`. */
  function ClipFilename(sceneId: int, lineIdx: nat, speaker: string): string
  {
    "scene_" + Pad2(sceneId) + "_line_" + Pad2(lineIdx + 1) + "_" + SpeakerSlug(speaker) + ".wav"
  }

  predicate NoSpace(s: string)
  {
    forall i :: 0 <= i < |s| ==> s[i] != ' '
  }

  lemma NoSpaceConcat(a: string, b: string)
    requires NoSpace(a) && NoSpace(b)
    ensures NoSpace(a + b)
  {
    forall i | 0 <= i < |a + b|
      ensures (a + b)[i] != ' '
    {
      if i >= |a| {
        assert (a + b)[i] == b[i - |a|];
      }
    }
  }

  lemma Pad2NoSpace(n: int)
    ensures NoSpace(Pad2(n))
  {
    Pad2Faithful(n);
    if n < 0 {
      var d := NatToString(-n);
      assert forall i :: 0 <= i < |d| ==> IsDigit(d[i]);
      NoSpaceConcat("-", d);
    }
  }

  /** A clip name starts with "scene_", ends with ".wav" and holds no space. */
  lemma ClipFilenameShape(sceneId: int, lineIdx: nat, speaker: string)
    ensures var f := ClipFilename(sceneId, lineIdx, speaker);
      && f[..6] == "scene_"
      && EndsWith(f, ".wav")
      && NoSpace(f)
  {
    ClipAffixes(Pad2(sceneId), Pad2(lineIdx + 1), SpeakerSlug(speaker));
    Pad2NoSpace(sceneId);
    Pad2NoSpace(lineIdx + 1);
    SlugNoSpace(speaker);
    ClipNoSpace(Pad2(sceneId), Pad2(lineIdx + 1), SpeakerSlug(speaker));
  }

  lemma ClipAffixes(scene: string, line: string, slug: string)
    ensures var f := "scene_" + scene + "_line_" + line + "_" + slug + ".wav";
      f[..6] == "scene_" && EndsWith(f, ".wav")
  {
    var g := "scene_" + scene + "_line_" + line + "_" + slug;
    assert (g + ".wav")[..6] == g[..6];
    assert (g + ".wav")[|g|..] == ".wav";
  }

  lemma ClipNoSpace(scene: string, line: string, slug: string)
    requires NoSpace(scene) && NoSpace(line) && NoSpace(slug)
    ensures NoSpace("scene_" + scene + "_line_" + line + "_" + slug + ".wav")
  {
    var a := "scene_" + scene;
    NoSpaceConcat("scene_", scene);
    var b := a + "_line_";
    NoSpaceConcat(a, "_line_");
    var c := b + line;
    NoSpaceConcat(b, line);
    var d := c + "_";
    NoSpaceConcat(c, "_");
    var g := d + slug;
    NoSpaceConcat(d, slug);
    NoSpaceConcat(g, ".wav");
  }

  lemma SlugNoSpace(speaker: string)
    ensures NoSpace(SpeakerSlug(speaker))
  {
  }

  /** The clip-name part for the speaker. */
  function SpeakerSlug(speaker: string): string
  {
    Lower(ReplaceChar(speaker, ' ', '_'))
  }

  lemma SpeakerSlugExample()
    ensures SpeakerSlug("Person 1") == "person_1"
  {
    var r := ReplaceChar("Person 1", ' ', '_');
    assert r == "Person_1";
    assert Lower(r) == "person_1";
  }

  lemma ClipFilenameExample()
    ensures ClipFilename(1, 0, "Person 1") == "scene_01_line_01_person_1.wav"
  {
    SpeakerSlugExample();
    assert Pad2(1) == "01";
  }

  /** `os.path.join(output_folder, os.path.splitext(os.path.basename(path))[0])`. */
  function OutputFolder(outputFolder: string, storyboardPath: string): string
  {
    PathJoin(outputFolder, StripExtension(Basename(storyboardPath)))
  }

  // ---------------------------------------------------------------------------
  // The storyboard walk

  /** A dialogue line: `speaker` is None when missing or not a string (its clip name then
      cannot be built); `text` is None when missing. */
  datatype DialogueLine = DialogueLine(speaker: Option<string>, text: Option<string>)

  /** A scene; `sceneId` is None when missing or not an integer (`:02d` then raises). */
  datatype Scene = Scene(sceneId: Option<int>, topicFocus: Option<string>, audioStyle: Option<string>, lines: seq<DialogueLine>)

  /** One entry of `audio_metadata.json`. */
  datatype Record = Record(
    sceneId: int, topicFocus: string, audioStyle: string, lineNumber: nat,
    speaker: string, text: string, audioFile: string, engine: string, voice: VoiceInfo)

  datatype Outcome =
    | Written(folder: string, manifest: seq<Record>)
    | MissingLineText   // the progress print slices a missing text and raises

  function OrDefault(o: Option<string>, d: string): string
  {
    if o.Some? then o.value else d
  }

  /** `total_lines`. */
  function TotalLines(sb: seq<Scene>): nat
  {
    if sb == [] then 0 else TotalLines(sb[..|sb| - 1]) + |sb[|sb| - 1].lines|
  }

  /** Line `idx` of a scene, the `lineNo`-th line overall: an entry when speech succeeds and
      the clip name can be built, nothing when the error is caught and the line skipped. */
  function LineRecord(e: Engines, scene: Scene, idx: nat, lineNo: nat, ok: nat -> nat -> bool): seq<Record>
    requires idx < |scene.lines|
  {
    var line := scene.lines[idx];
    var voice := LineVoice(e, line.speaker, ok(lineNo));
    if voice.Some? && scene.sceneId.Some? && line.speaker.Some? && line.text.Some? then
      [Record(scene.sceneId.value, OrDefault(scene.topicFocus, UNKNOWN_TOPIC), OrDefault(scene.audioStyle, NEUTRAL_STYLE),
              idx + 1, line.speaker.value, line.text.value,
              ClipFilename(scene.sceneId.value, idx, line.speaker.value), e.name, voice.value)]
    else []
  }

  /** The entries of a scene's first `n` lines, the scene starting after `base` lines. */
  function SceneRecords(e: Engines, scene: Scene, n: nat, base: nat, ok: nat -> nat -> bool): seq<Record>
    requires n <= |scene.lines|
  {
    if n == 0 then []
    else SceneRecords(e, scene, n - 1, base, ok) + LineRecord(e, scene, n - 1, base + n, ok)
  }

  /** The manifest: every scene's entries, in storyboard order. */
  function ManifestOf(e: Engines, sb: seq<Scene>, ok: nat -> nat -> bool): seq<Record>
  {
    if sb == [] then []
    else ManifestOf(e, sb[..|sb| - 1], ok) + SceneRecords(e, sb[|sb| - 1], |sb[|sb| - 1].lines|, TotalLines(sb[..|sb| - 1]), ok)
  }

  predicate HasMissingText(sb: seq<Scene>)
  {
    exists i, j :: 0 <= i < |sb| && 0 <= j < |sb[i].lines| && sb[i].lines[j].text.None?
  }

  predicate SceneMissingText(scene: Scene)
  {
    exists j :: 0 <= j < |scene.lines| && scene.lines[j].text.None?
  }

  lemma MissingTextStep(sb: seq<Scene>, i: nat)
    requires i < |sb|
    ensures HasMissingText(sb[..i + 1]) <==> HasMissingText(sb[..i]) || SceneMissingText(sb[i])
  {
    var p := sb[..i + 1];
    assert forall k :: 0 <= k < i ==> p[k] == sb[..i][k];
    assert p[i] == sb[i];
    if SceneMissingText(sb[i]) {
      var j :| 0 <= j < |sb[i].lines| && sb[i].lines[j].text.None?;
      assert p[i].lines[j].text.None?;
    }
    if HasMissingText(sb[..i]) {
      var k, j :| 0 <= k < i && 0 <= j < |sb[..i][k].lines| && sb[..i][k].lines[j].text.None?;
      assert p[k].lines[j].text.None?;
    }
  }

  lemma MissingTextWhole(sb: seq<Scene>, n: nat)
    requires n <= |sb| && HasMissingText(sb[..n])
    ensures HasMissingText(sb)
  {
    var k, j :| 0 <= k < n && 0 <= j < |sb[..n][k].lines| && sb[..n][k].lines[j].text.None?;
    assert sb[k].lines[j].text.None?;
  }

  /** The inner loop over one scene's lines. */
  method VoiceScene(e: Engines, scene: Scene, base: nat, ok: nat -> nat -> bool) returns (records: seq<Record>, missing: bool)
    requires ClientReady(e)
    ensures missing <==> SceneMissingText(scene)
    ensures !missing ==> records == SceneRecords(e, scene, |scene.lines|, base, ok)
  {
    records := [];
    var currentLine := base;
    var j := 0;
    while j < |scene.lines|
      invariant 0 <= j <= |scene.lines|
      invariant currentLine == base + j
      invariant records == SceneRecords(e, scene, j, base, ok)
      invariant forall k :: 0 <= k < j ==> scene.lines[k].text.Some?
    {
      currentLine := currentLine + 1;
      var line := scene.lines[j];
      if line.text.None? {
        return records, true;
      }
      var record := VoiceLine(e, scene, j, currentLine, ok);
      SceneRecordsNext(e, scene, j, base, ok, record);
      records := records + record;
      j := j + 1;
    }
    missing := false;
  }

  lemma SceneRecordsNext(e: Engines, scene: Scene, j: nat, base: nat, ok: nat -> nat -> bool, record: seq<Record>)
    requires j < |scene.lines| && record == LineRecord(e, scene, j, base + j + 1, ok)
    ensures SceneRecords(e, scene, j + 1, base, ok) == SceneRecords(e, scene, j, base, ok) + record
  {
  }

  /** The `try` block for one line: speech for it, then its manifest entry; a failure is
      caught and the line gets no entry. */
  method VoiceLine(e: Engines, scene: Scene, idx: nat, lineNo: nat, ok: nat -> nat -> bool) returns (record: seq<Record>)
    requires ClientReady(e) && idx < |scene.lines| && scene.lines[idx].text.Some?
    ensures record == LineRecord(e, scene, idx, lineNo, ok)
  {
    var line := scene.lines[idx];
    var voice := GenerateAudio(e, line.speaker, ok(lineNo));
    record := [];
    if voice.Some? && scene.sceneId.Some? && line.speaker.Some? {
      var filename := ClipFilename(scene.sceneId.value, idx, line.speaker.value);
      record := [Record(scene.sceneId.value, OrDefault(scene.topicFocus, UNKNOWN_TOPIC),
                        OrDefault(scene.audioStyle, NEUTRAL_STYLE), idx + 1, line.speaker.value,
                        line.text.value, filename, e.name, voice.value)];
    }
  }

  /** `process_storyboard_audio`: the output folder and the manifest written into it. */
  method ProcessStoryboardAudio(storyboardPath: string, outputFolder: string, sb: seq<Scene>, e: Engines, ok: nat -> nat -> bool)
    returns (r: Outcome)
    requires ClientReady(e)
    ensures r.MissingLineText? <==> HasMissingText(sb)
    ensures r.Written? ==> r.folder == OutputFolder(outputFolder, storyboardPath) && r.manifest == ManifestOf(e, sb, ok)
  {
    var folder := OutputFolder(outputFolder, storyboardPath);
    var manifest: seq<Record> := [];
    var currentLine := 0;
    var i := 0;
    while i < |sb|
      invariant 0 <= i <= |sb|
      invariant currentLine == TotalLines(sb[..i])
      invariant manifest == ManifestOf(e, sb[..i], ok)
      invariant !HasMissingText(sb[..i])
    {
      var records, missing := VoiceScene(e, sb[i], currentLine, ok);
      MissingTextStep(sb, i);
      if missing {
        MissingTextWhole(sb, i + 1);
        return MissingLineText;
      }
      assert sb[..i + 1][..i] == sb[..i];
      assert sb[..i + 1][i] == sb[i];
      manifest := manifest + records;
      currentLine := currentLine + |sb[i].lines|;
      i := i + 1;
    }
    assert sb[..i] == sb;
    r := Written(folder, manifest);
  }

  // ---------------------------------------------------------------------------
  // What the manifest promises

  /** Every entry of a scene names its clip after its scene, 1-based line number and speaker. */
  lemma {:induction false} SceneRecordsNamed(e: Engines, scene: Scene, n: nat, base: nat, ok: nat -> nat -> bool)
    requires n <= |scene.lines|
    ensures |SceneRecords(e, scene, n, base, ok)| <= n
    ensures forall r :: r in SceneRecords(e, scene, n, base, ok) ==>
      1 <= r.lineNumber <= n && r.audioFile == ClipFilename(r.sceneId, r.lineNumber - 1, r.speaker)
  {
    if n > 0 {
      SceneRecordsNamed(e, scene, n - 1, base, ok);
    }
  }

  /** The manifest never has more entries than the storyboard has lines, and each entry's
      file is the clip name built from its own scene, line number and speaker. */
  lemma {:induction false} ManifestNamed(e: Engines, sb: seq<Scene>, ok: nat -> nat -> bool)
    ensures |ManifestOf(e, sb, ok)| <= TotalLines(sb)
    ensures forall r :: r in ManifestOf(e, sb, ok) ==>
      r.lineNumber >= 1 && r.audioFile == ClipFilename(r.sceneId, r.lineNumber - 1, r.speaker)
  {
    if sb != [] {
      var last := sb[|sb| - 1];
      ManifestNamed(e, sb[..|sb| - 1], ok);
      SceneRecordsNamed(e, last, |last.lines|, TotalLines(sb[..|sb| - 1]), ok);
    }
  }

  /** A line whose scene id, speaker and text are present and whose speech succeeds is never
      skipped: with Kokoro up and every first attempt answering, each line has an entry. */
  lemma {:induction false} SceneRecordsComplete(e: Engines, scene: Scene, n: nat, base: nat, ok: nat -> nat -> bool)
    requires n <= |scene.lines|
    requires e.name == KOKORO && e.kokoroClient
    requires scene.sceneId.Some?
    requires forall j :: 0 <= j < |scene.lines| ==> scene.lines[j].speaker.Some? && scene.lines[j].text.Some?
    requires forall m :: ok(m)(0)
    ensures |SceneRecords(e, scene, n, base, ok)| == n
  {
    if n > 0 {
      SceneRecordsComplete(e, scene, n - 1, base, ok);
      assert RetryOutcome(MAX_RETRIES, ok(base + n)) == Returned(0);
    }
  }

  lemma {:induction false} ManifestComplete(e: Engines, sb: seq<Scene>, ok: nat -> nat -> bool)
    requires e.name == KOKORO && e.kokoroClient
    requires forall i :: 0 <= i < |sb| ==> sb[i].sceneId.Some?
    requires forall i, j :: 0 <= i < |sb| && 0 <= j < |sb[i].lines| ==>
      sb[i].lines[j].speaker.Some? && sb[i].lines[j].text.Some?
    requires forall m :: ok(m)(0)
    ensures |ManifestOf(e, sb, ok)| == TotalLines(sb)
  {
    if sb != [] {
      var last := sb[|sb| - 1];
      ManifestComplete(e, sb[..|sb| - 1], ok);
      SceneRecordsComplete(e, last, |last.lines|, TotalLines(sb[..|sb| - 1]), ok);
    }
  }

  // ---------------------------------------------------------------------------
  // The manifest follows the storyboard

  /** Line `line` of scene `scene` of a storyboard. */
  datatype Position = Position(scene: nat, line: nat)

  /** `p` comes before `q` in storyboard order. */
  predicate Before(p: Position, q: Position)
  {
    p.scene < q.scene || (p.scene == q.scene && p.line < q.line)
  }

  /** `r` is the entry for line `j` of `scene`: it carries the scene's id, topic and style,
      the line's 1-based number, its speaker and its text. */
  predicate CarriesLine(scene: Scene, j: nat, r: Record)
  {
    && j < |scene.lines|
    && scene.sceneId == Some(r.sceneId)
    && r.topicFocus == OrDefault(scene.topicFocus, UNKNOWN_TOPIC)
    && r.audioStyle == OrDefault(scene.audioStyle, NEUTRAL_STYLE)
    && r.lineNumber == j + 1
    && scene.lines[j].speaker == Some(r.speaker)
    && scene.lines[j].text == Some(r.text)
  }

  /** The positions of the lines of scene number `i` among its first `n` that get an entry. */
  ghost function ScenePositions(e: Engines, scene: Scene, i: nat, n: nat, base: nat, ok: nat -> nat -> bool): seq<Position>
    requires n <= |scene.lines|
  {
    if n == 0 then []
    else ScenePositions(e, scene, i, n - 1, base, ok) + (if LineRecord(e, scene, n - 1, base + n, ok) != [] then [Position(i, n - 1)] else [])
  }

  /** The storyboard position of each manifest entry. */
  ghost function ManifestPositions(e: Engines, sb: seq<Scene>, ok: nat -> nat -> bool): seq<Position>
  {
    if sb == [] then []
    else ManifestPositions(e, sb[..|sb| - 1], ok) + ScenePositions(e, sb[|sb| - 1], |sb| - 1, |sb[|sb| - 1].lines|, TotalLines(sb[..|sb| - 1]), ok)
  }

  /** A scene's entries are some of its lines, in line order. */
  lemma {:induction false} SceneFollowsLines(e: Engines, scene: Scene, i: nat, n: nat, base: nat, ok: nat -> nat -> bool)
    requires n <= |scene.lines|
    ensures SceneEmbeds(scene, i, n, ScenePositions(e, scene, i, n, base, ok), SceneRecords(e, scene, n, base, ok))
  {
    if n > 0 {
      SceneFollowsLines(e, scene, i, n - 1, base, ok);
      var rec := LineRecord(e, scene, n - 1, base + n, ok);
      LineRecordCarries(e, scene, n - 1, base + n, ok);
      EmbedStep(scene, i, n, ScenePositions(e, scene, i, n - 1, base, ok), SceneRecords(e, scene, n - 1, base, ok), rec);
    }
  }

  /** `rs` are entries of lines below `n` of `scene` (scene number `i`) at positions `ps`, in
      increasing line order. */
  predicate SceneEmbeds(scene: Scene, i: nat, n: nat, ps: seq<Position>, rs: seq<Record>)
  {
    && |ps| == |rs|
    && (forall k :: 0 <= k < |ps| ==> ps[k].scene == i && ps[k].line < n && CarriesLine(scene, ps[k].line, rs[k]))
    && (forall k, l :: 0 <= k < l < |ps| ==> ps[k].line < ps[l].line)
  }

  /** A line yields no entry or one entry that carries it. */
  lemma LineRecordCarries(e: Engines, scene: Scene, j: nat, lineNo: nat, ok: nat -> nat -> bool)
    requires j < |scene.lines|
    ensures var rec := LineRecord(e, scene, j, lineNo, ok);
      rec == [] || (|rec| == 1 && CarriesLine(scene, j, rec[0]))
  {
  }

  lemma EmbedStep(scene: Scene, i: nat, n: nat, ps: seq<Position>, rs: seq<Record>, rec: seq<Record>)
    requires n > 0 && SceneEmbeds(scene, i, n - 1, ps, rs)
    requires rec == [] || (|rec| == 1 && CarriesLine(scene, n - 1, rec[0]))
    ensures SceneEmbeds(scene, i, n, ps + (if rec != [] then [Position(i, n - 1)] else []), rs + rec)
  {
  }

  /** The manifest is an ordered selection of the storyboard's lines: entry `k` is the
      entry of the line at `ManifestPositions(...)[k]`, and those positions strictly increase
      in scene-then-line order. */
  lemma {:induction false} ManifestFollowsStoryboard(e: Engines, sb: seq<Scene>, ok: nat -> nat -> bool)
    ensures Embeds(sb, ManifestPositions(e, sb, ok), ManifestOf(e, sb, ok))
  {
    if sb != [] {
      var init, last := sb[..|sb| - 1], sb[|sb| - 1];
      ManifestFollowsStoryboard(e, init, ok);
      SceneFollowsLines(e, last, |sb| - 1, |last.lines|, TotalLines(init), ok);
      EmbedAppend(sb, ManifestPositions(e, init, ok), ManifestOf(e, init, ok),
                  ScenePositions(e, last, |sb| - 1, |last.lines|, TotalLines(init), ok),
                  SceneRecords(e, last, |last.lines|, TotalLines(init), ok));
    }
  }

  /** `m` are entries of lines of `sb` at positions `ps`, in storyboard order. */
  predicate Embeds(sb: seq<Scene>, ps: seq<Position>, m: seq<Record>)
  {
    && |ps| == |m|
    && (forall k :: 0 <= k < |ps| ==> ps[k].scene < |sb| && CarriesLine(sb[ps[k].scene], ps[k].line, m[k]))
    && (forall k, l :: 0 <= k < l < |ps| ==> Before(ps[k], ps[l]))
  }

  lemma EmbedAppend(sb: seq<Scene>, p1: seq<Position>, m1: seq<Record>, p2: seq<Position>, m2: seq<Record>)
    requires sb != [] && Embeds(sb[..|sb| - 1], p1, m1)
    requires SceneEmbeds(sb[|sb| - 1], |sb| - 1, |sb[|sb| - 1].lines|, p2, m2)
    ensures Embeds(sb, p1 + p2, m1 + m2)
  {
    var init := sb[..|sb| - 1];
    forall k | 0 <= k < |p1|
      ensures p1[k].scene < |sb| && CarriesLine(sb[p1[k].scene], p1[k].line, m1[k])
    {
      assert sb[p1[k].scene] == init[p1[k].scene];
    }
  }
}
