/**
 * The driver (`main.py`): reading and updating the idea ledger, the status
 * updates of a full run, and the command-line dispatch. File contents are
 * passed in as `LedgerFile` values; the stages a run calls (storyboard,
 * voice-over, video, idea generation) are passed in as their outcomes.
 */
module Pipeline {
  import opened Text
  import opened JsonValue
  import opened IdeaRecords
  import Ideas

  const AUDIO_GENERATED := "audio_generated"
  const COMPLETED := "completed"
  const ERROR := "error"

  // ---------------------------------------------------------------------------
  // The ledger: looking up the current idea

  /** `get_current_idea_id`: the ledger must be a list whose records all have an integer
      `id` (otherwise reading, sorting or `x['id']` raises and the answer is None); it is
      sorted by id and the first pending record's id is returned. */
  method GetCurrentIdeaId(ledger: Ideas.LedgerFile) returns (id: Option<int>)
    ensures !(ledger.Parsed? && ledger.value.JArr? && AllIntIds(ledger.value.items)) ==> id.None?
    ensures ledger.Parsed? && ledger.value.JArr? && AllIntIds(ledger.value.items) ==>
      var ideas := ledger.value.items;
      && (id.None? <==> forall x :: x in ideas ==> !IsPending(x))
      && (id.Some? ==> exists x :: x in ideas && IsPending(x) && HasIntId(x) && Id(x) == id.value)
      && (id.Some? ==> forall x :: x in ideas && IsPending(x) ==> id.value <= Id(x))
  {
    if !(ledger.Parsed? && ledger.value.JArr? && AllIntIds(ledger.value.items)) {
      return None;
    }
    var ideas := ledger.value.items;
    var sorted := SortById(ideas);
    FirstPendingIsMinimal(ideas);
    var found := FindPending(sorted);
    if found.None? {
      return None;
    }
    SortByIdMembers(ideas, sorted[found.value]);
    return Some(Id(sorted[found.value]));
  }

  // ---------------------------------------------------------------------------
  // The ledger: updating one idea's status

  /** Python's `idea['id'] == idea_id` for a JSON value against an int: `True == 1` and
      `False == 0` hold as well. */
  predicate IdMatches(v: Json, ideaId: int)
  {
    v == JNum(ideaId) || (v == JBool(true) && ideaId == 1) || (v == JBool(false) && ideaId == 0)
  }

  /** `idea['id']` does not raise: the record is a dictionary with an `id`. */
  predicate Keyed(idea: Json)
  {
    idea.JObj? && Get(idea, "id").Some?
  }

  /** The values `for idea in ideas` visits, for any JSON root: a list's items, a
      dictionary's keys, a string's characters; None when the root is not iterable. */
  function Iterated(root: Json): (r: Option<seq<Json>>)
    ensures r.None? <==> !(root.JArr? || root.JObj? || root.JStr?)
    ensures r.Some? ==> |r.value| == (match root case JArr(items) => |items| case JObj(ms) => |ms| case JStr(s) => |s| case _ => 0)
  {
    match root
    case JArr(items) => Some(items)
    case JObj(ms) => Some(seq(|ms|, i requires 0 <= i < |ms| => JStr(ms[i].key)))
    case JStr(s) => Some(seq(|s|, i requires 0 <= i < |s| => JStr([s[i]])))
    case _ => None
  }

  /** The new values given to `update_idea_status`. */
  datatype StatusUpdate = StatusUpdate(ideaId: int, status: string, finalOutput: Option<string>, errorLog: string)

  /** The matching record after the update: the status always, `final_output` only when
      it is truthy (present and non-empty), `error_log` only when non-empty. */
  function Updated(idea: Json, u: StatusUpdate): (r: Json)
    requires idea.JObj?
  {
    var a := Set(idea, "publishing_status", JStr(u.status));
    var b := if u.finalOutput.Some? && u.finalOutput.value != "" then Set(a, "final_output", JStr(u.finalOutput.value)) else a;
    if u.errorLog != "" then Set(b, "error_log", JStr(u.errorLog)) else b
  }

  /** The index of the first record whose id matches, provided every record before it can
      be indexed by `id`; None when none matches. Reaching a record without an `id` first
      raises, which `Reachable` tells apart. */
  function FirstMatch(items: seq<Json>, ideaId: int): (k: Option<nat>)
    ensures k.Some? ==>
      && k.value < |items| && Keyed(items[k.value]) && IdMatches(Get(items[k.value], "id").value, ideaId)
      && forall j :: 0 <= j < k.value ==> Keyed(items[j]) && !IdMatches(Get(items[j], "id").value, ideaId)
  {
    if items == [] || !Keyed(items[0]) then None
    else if IdMatches(Get(items[0], "id").value, ideaId) then Some(0)
    else
      var r := FirstMatch(items[1..], ideaId);
      if r.Some? then Some(r.value + 1) else None
  }

  /** The loop runs to a `break` or to the end without meeting a record it cannot index. */
  predicate Reachable(items: seq<Json>, ideaId: int)
  {
    FirstMatch(items, ideaId).Some? || forall j :: 0 <= j < |items| ==> Keyed(items[j])
  }

  /** The list written back: only the first matching record changes. */
  function UpdatedList(items: seq<Json>, u: StatusUpdate): (r: seq<Json>)
    ensures |r| == |items|
  {
    match FirstMatch(items, u.ideaId)
    case Some(k) => items[k := Updated(items[k], u)]
    case None => items
  }

  /** `update_idea_status`: True and the new ledger when the file could be read, iterated,
      indexed up to the match, and written (`writeOk`); False and nothing written
      otherwise. The loop stops at the first record whose id matches. */
  method UpdateIdeaStatus(ledger: Ideas.LedgerFile, u: StatusUpdate, writeOk: bool) returns (ok: bool, written: Option<Json>)
    ensures ok <==> written.Some?
    ensures ok <==>
      && writeOk && ledger.Parsed? && Iterated(ledger.value).Some?
      && Reachable(Iterated(ledger.value).value, u.ideaId)
    ensures ok && ledger.value.JArr? ==> written == Some(JArr(UpdatedList(ledger.value.items, u)))
    ensures ok && !ledger.value.JArr? ==> written == Some(ledger.value)
  {
    if !ledger.Parsed? || Iterated(ledger.value).None? {
      return false, None;
    }
    var ideas := Iterated(ledger.value).value;
    var i := 0;
    var found := false;
    while i < |ideas|
      invariant 0 <= i <= |ideas|
      invariant forall j :: 0 <= j < i ==> Keyed(ideas[j]) && !IdMatches(Get(ideas[j], "id").value, u.ideaId)
      invariant !found
    {
      if !Keyed(ideas[i]) {
        assert FirstMatch(ideas, u.ideaId).None? by { NoMatchBeforeUnkeyed(ideas, u.ideaId, i); }
        return false, None;
      }
      if IdMatches(Get(ideas[i], "id").value, u.ideaId) {
        FirstMatchAt(ideas, u.ideaId, i);
        found := true;
        break;
      }
      i := i + 1;
    }
    if !found {
      NoMatchAll(ideas, u.ideaId);
    }
    if !writeOk {
      return false, None;
    }
    if ledger.value.JArr? {
      if found {
        ideas := ideas[i := Updated(ideas[i], u)];
      }
      return true, Some(JArr(ideas));
    }
    // A dictionary or string root only reaches the write when it is empty.
    KeyedRootsAreLists(ledger.value, u.ideaId);
    return true, Some(ledger.value);
  }

  lemma {:induction false} FirstMatchAt(items: seq<Json>, ideaId: int, i: nat)
    requires i < |items| && Keyed(items[i]) && IdMatches(Get(items[i], "id").value, ideaId)
    requires forall j :: 0 <= j < i ==> Keyed(items[j]) && !IdMatches(Get(items[j], "id").value, ideaId)
    ensures FirstMatch(items, ideaId) == Some(i)
  {
    if i > 0 {
      FirstMatchAt(items[1..], ideaId, i - 1);
    }
  }

  lemma {:induction false} NoMatchBeforeUnkeyed(items: seq<Json>, ideaId: int, i: nat)
    requires i < |items| && !Keyed(items[i])
    requires forall j :: 0 <= j < i ==> Keyed(items[j]) && !IdMatches(Get(items[j], "id").value, ideaId)
    ensures FirstMatch(items, ideaId).None?
  {
    if i > 0 {
      NoMatchBeforeUnkeyed(items[1..], ideaId, i - 1);
    }
  }

  lemma {:induction false} NoMatchAll(items: seq<Json>, ideaId: int)
    requires forall j :: 0 <= j < |items| ==> Keyed(items[j]) && !IdMatches(Get(items[j], "id").value, ideaId)
    ensures FirstMatch(items, ideaId).None?
  {
    if items != [] {
      NoMatchAll(items[1..], ideaId);
    }
  }

  /** Dictionary keys and characters iterate as strings, which cannot be indexed by `id`:
      such a root gets through the loop only when it is empty. */
  lemma KeyedRootsAreLists(root: Json, ideaId: int)
    requires root.JObj? || root.JStr?
    requires Reachable(Iterated(root).value, ideaId)
    ensures Iterated(root).value == []
  {
  }

  /** The matching record gets the new status, `final_output` and `error_log` as the
      arguments decide, and keeps its id and every other field; every other record is
      unchanged; with no match the list is written back as read. */
  lemma UpdatedListMeaning(items: seq<Json>, u: StatusUpdate)
    ensures FirstMatch(items, u.ideaId).None? ==> UpdatedList(items, u) == items
    ensures FirstMatch(items, u.ideaId).Some? ==>
      var k := FirstMatch(items, u.ideaId).value;
      var r := UpdatedList(items, u);
      && (forall j :: 0 <= j < |items| && j != k ==> r[j] == items[j])
      && Get(r[k], "publishing_status") == Some(JStr(u.status))
      && Get(r[k], "final_output") ==
           (if u.finalOutput.Some? && u.finalOutput.value != "" then Some(JStr(u.finalOutput.value)) else Get(items[k], "final_output"))
      && Get(r[k], "error_log") == (if u.errorLog != "" then Some(JStr(u.errorLog)) else Get(items[k], "error_log"))
      && forall key :: key != "publishing_status" && key != "final_output" && key != "error_log" ==>
           Get(r[k], key) == Get(items[k], key)
  {
    if FirstMatch(items, u.ideaId).Some? {
      var k := FirstMatch(items, u.ideaId).value;
      UpdatedFields(items[k], u);
    }
  }

  lemma UpdatedFields(idea: Json, u: StatusUpdate)
    requires idea.JObj?
    ensures var r := Updated(idea, u);
      && Get(r, "publishing_status") == Some(JStr(u.status))
      && Get(r, "final_output") ==
           (if u.finalOutput.Some? && u.finalOutput.value != "" then Some(JStr(u.finalOutput.value)) else Get(idea, "final_output"))
      && Get(r, "error_log") == (if u.errorLog != "" then Some(JStr(u.errorLog)) else Get(idea, "error_log"))
      && forall key :: key != "publishing_status" && key != "final_output" && key != "error_log" ==>
           Get(r, key) == Get(idea, key)
  {
    UpdatedKey(idea, u, "publishing_status");
    UpdatedKey(idea, u, "final_output");
    UpdatedKey(idea, u, "error_log");
    forall key | key != "publishing_status" && key != "final_output" && key != "error_log"
      ensures Get(Updated(idea, u), key) == Get(idea, key)
    {
      UpdatedKey(idea, u, key);
    }
  }

  /** One key of the updated record, read through the three assignments. */
  lemma UpdatedKey(idea: Json, u: StatusUpdate, key: string)
    requires idea.JObj?
    ensures Get(Updated(idea, u), key) ==
      if key == "error_log" && u.errorLog != "" then Some(JStr(u.errorLog))
      else if key == "final_output" && u.finalOutput.Some? && u.finalOutput.value != "" then Some(JStr(u.finalOutput.value))
      else if key == "publishing_status" then Some(JStr(u.status))
      else Get(idea, key)
  {
    var a := Set(idea, "publishing_status", JStr(u.status));
    PutLookup(idea.members, "publishing_status", JStr(u.status), key);
    var b := if u.finalOutput.Some? && u.finalOutput.value != "" then Set(a, "final_output", JStr(u.finalOutput.value)) else a;
    if u.finalOutput.Some? && u.finalOutput.value != "" {
      PutLookup(a.members, "final_output", JStr(u.finalOutput.value), key);
    }
    if u.errorLog != "" {
      PutLookup(b.members, "error_log", JStr(u.errorLog), key);
    }
  }

  /** An update keeps the record's id, so a later update for the same id finds the same
      record, and the record then carries the update's status. */
  lemma UpdateKeepsMatch(items: seq<Json>, u: StatusUpdate)
    requires FirstMatch(items, u.ideaId).Some?
    ensures FirstMatch(UpdatedList(items, u), u.ideaId) == FirstMatch(items, u.ideaId)
    ensures var k := FirstMatch(items, u.ideaId).value;
      Get(UpdatedList(items, u)[k], "publishing_status") == Some(JStr(u.status))
  {
    var k := FirstMatch(items, u.ideaId).value;
    var r := UpdatedList(items, u);
    UpdatedFields(items[k], u);
    assert Get(r[k], "id") == Get(items[k], "id");
    FirstMatchAt(r, u.ideaId, k);
  }

  // ---------------------------------------------------------------------------
  // Idea generation from the driver

  /** `generate_new_ideas`: the same steps as the idea script, reporting success as a
      boolean. */
  method GenerateNewIdeas(env: Ideas.Env, ledger: Ideas.LedgerFile, initialReply: Option<Json>, rankedReply: Option<Json>, writeOk: bool)
    returns (ok: bool)
    ensures ok <==>
      && writeOk
      && Ideas.FirstWorking(env, Ideas.ProviderChain(Ideas.PrimaryProvider(env))).Some?
      && Ideas.ChosenIdeas(initialReply, rankedReply).Some?
  {
    var run := Ideas.IdeasMain(env, ledger, initialReply, rankedReply, writeOk);
    ok := run.exitCode == 0;
  }

  // ---------------------------------------------------------------------------
  // A full run

  /** How a stage inside the `try` of a run ends. */
  datatype StageOutcome = Succeeded | Failed | Raised(message: string) | Interrupted

  /** What the run's stages report, in the order they are called. `generated(n)` is the
      result of the n-th `generate_new_ideas` call and `current(n)` that of the n-th
      `get_current_idea_id` call. */
  datatype Stages = Stages(
    filesOk: bool,
    ledgerExists: bool,
    generated: nat -> bool,
    current: nat -> Option<int>,
    storyboard: StageOutcome,
    storyboardFound: StageOutcome,
    voiceOver: StageOutcome,
    video: StageOutcome,
    videoPath: string)

  datatype PipelineRun = PipelineRun(ok: bool, ideaId: Option<int>, generations: nat, updates: seq<StatusUpdate>)

  /** The error text recorded when a stage ends other than by succeeding. */
  function FailureLog(o: StageOutcome, failed: string): (log: string)
    requires !o.Succeeded? && failed != ""
    ensures log != ""
    ensures o.Failed? ==> log == failed
  {
    match o
    case Failed => failed
    case Raised(m) => "Pipeline error: " + m
    case Interrupted => "Pipeline interrupted by user"
  }

  /** `run_pipeline`: abort on missing files; generate ideas when the ledger is missing;
      find the pending idea, generating once more if there is none; then storyboard,
      voice-over and video, recording `audio_generated`, `completed` or `error` against
      that idea. */
  method RunPipeline(st: Stages) returns (run: PipelineRun)
    ensures run.generations <= 2
    ensures run.ideaId.None? ==> !run.ok && run.updates == []
    ensures run.ideaId.Some? ==> st.filesOk && forall u :: u in run.updates ==> u.ideaId == run.ideaId.value
    ensures run.ideaId.Some? ==> run.ideaId == st.current(0) || run.ideaId == st.current(1)
    ensures !st.filesOk ==> run == PipelineRun(false, None, 0, [])
    ensures st.filesOk && !st.ledgerExists && !st.generated(0) ==> run.ideaId.None? && run.generations == 1
    ensures st.filesOk && (st.ledgerExists || st.generated(0)) && st.current(0).Some? ==>
      run.ideaId == st.current(0) && run.generations == (if st.ledgerExists then 0 else 1)
    ensures st.filesOk && (st.ledgerExists || st.generated(0)) && st.current(0).None? ==>
      && run.generations == (if st.ledgerExists then 1 else 2)
      && (run.ideaId.Some? <==> st.generated(run.generations - 1) && st.current(1).Some?)
      && (run.ideaId.Some? ==> run.ideaId == st.current(1))
    ensures run.ok <==>
      && run.ideaId.Some?
      && st.storyboard.Succeeded? && st.storyboardFound.Succeeded? && st.voiceOver.Succeeded?
      && st.video.Succeeded? && st.videoPath != ""
    ensures run.ok ==> run.updates == [
      StatusUpdate(run.ideaId.value, AUDIO_GENERATED, None, ""),
      StatusUpdate(run.ideaId.value, COMPLETED, Some(st.videoPath), "")]
    ensures run.ideaId.Some? && !run.ok ==>
      && 1 <= |run.updates| <= 2
      && run.updates[|run.updates| - 1].status == ERROR
      && run.updates[|run.updates| - 1].errorLog != ""
      && run.updates[|run.updates| - 1].finalOutput.None?
      && (|run.updates| == 2 <==> st.voiceOver.Succeeded? && st.storyboard.Succeeded? && st.storyboardFound.Succeeded?)
      && (|run.updates| == 2 ==> run.updates[0].status == AUDIO_GENERATED)
  {
    run := PipelineRun(false, None, 0, []);
    if !st.filesOk {
      return;
    }
    var generations := 0;
    if !st.ledgerExists {
      generations := generations + 1;
      if !st.generated(0) {
        return run.(generations := generations);
      }
    }
    var idea := st.current(0);
    if idea.None? {
      generations := generations + 1;
      if !st.generated(generations - 1) {
        return run.(generations := generations);
      }
      idea := st.current(1);
      if idea.None? {
        return run.(generations := generations);
      }
    }
    var id := idea.value;
    var updates: seq<StatusUpdate> := [];
    run := PipelineRun(false, idea, generations, []);

    if !st.storyboard.Succeeded? {
      updates := updates + [StatusUpdate(id, ERROR, None, FailureLog(st.storyboard, "Storyboard generation failed"))];
      return run.(updates := updates);
    }
    if !st.storyboardFound.Succeeded? {
      updates := updates + [StatusUpdate(id, ERROR, None, FailureLog(st.storyboardFound, "Storyboard file not found"))];
      return run.(updates := updates);
    }
    if !st.voiceOver.Succeeded? {
      updates := updates + [StatusUpdate(id, ERROR, None, FailureLog(st.voiceOver, "Voice-over generation failed"))];
      return run.(updates := updates);
    }
    updates := updates + [StatusUpdate(id, AUDIO_GENERATED, None, "")];
    if !st.video.Succeeded? || st.videoPath == "" {
      var log := if st.video.Succeeded? then "Video creation failed" else FailureLog(st.video, "Video creation failed");
      updates := updates + [StatusUpdate(id, ERROR, None, log)];
      return run.(updates := updates);
    }
    updates := updates + [StatusUpdate(id, COMPLETED, Some(st.videoPath), "")];
    return run.(ok := true, updates := updates);
  }

  /** Applying a run's updates to the ledger, each as `update_idea_status` does to a list. */
  function ApplyUpdates(items: seq<Json>, updates: seq<StatusUpdate>): (r: seq<Json>)
    ensures |r| == |items|
  {
    if updates == [] then items
    else UpdatedList(ApplyUpdates(items, updates[..|updates| - 1]), updates[|updates| - 1])
  }

  /** Updates for one idea keep hitting the same record, and it ends with the status of
      the last of them: `completed` after a successful run, `error` after a failed one. */
  lemma {:induction false} LastStatusWins(items: seq<Json>, us: seq<StatusUpdate>, id: int)
    requires |us| >= 1 && forall i :: 0 <= i < |us| ==> us[i].ideaId == id
    requires FirstMatch(items, id).Some?
    ensures FirstMatch(ApplyUpdates(items, us), id) == FirstMatch(items, id)
    ensures var k := FirstMatch(items, id).value;
      Get(ApplyUpdates(items, us)[k], "publishing_status") == Some(JStr(us[|us| - 1].status))
  {
    var init := us[..|us| - 1];
    var before := ApplyUpdates(items, init);
    if |init| >= 1 {
      LastStatusWins(items, init, id);
    } else {
      assert before == items;
    }
    UpdateKeepsMatch(before, us[|us| - 1]);
  }

  /** A completed run's video path lands in the record's `final_output`. */
  lemma CompletedRecordsVideo(items: seq<Json>, id: int, video: string)
    requires FirstMatch(items, id).Some? && video != ""
    ensures var us := [StatusUpdate(id, AUDIO_GENERATED, None, ""), StatusUpdate(id, COMPLETED, Some(video), "")];
      var k := FirstMatch(items, id).value;
      && Get(ApplyUpdates(items, us)[k], "publishing_status") == Some(JStr(COMPLETED))
      && Get(ApplyUpdates(items, us)[k], "final_output") == Some(JStr(video))
  {
    var u := StatusUpdate(id, AUDIO_GENERATED, None, "");
    var v := StatusUpdate(id, COMPLETED, Some(video), "");
    var us := [u, v];
    assert us[..1] == [u];
    assert ApplyUpdates(items, [u]) == UpdatedList(ApplyUpdates(items, []), u);
    UpdateKeepsMatch(items, u);
    UpdatedListMeaning(UpdatedList(items, u), v);
  }

  // ---------------------------------------------------------------------------
  // The command line

  datatype Command = RunAll | CheckFiles | GenerateIdeas | Help | Unknown(arg: string)

  /** The first argument, lower-cased and matched against the long and short options. */
  function ParseArgument(arg: string): (c: Command)
    ensures c.Unknown? ==> c.arg == Lower(arg)
  {
    var a := Lower(arg);
    if a == "--run" || a == "-r" then RunAll
    else if a == "--check" || a == "-c" then CheckFiles
    else if a == "--generate-ideas" || a == "-g" then GenerateIdeas
    else if a == "--help" || a == "-h" then Help
    else Unknown(a)
  }

  /** The exit status: the run and the idea generation report their result, checking and
      help always succeed, and an unknown argument fails. */
  function ExitCode(c: Command, runOk: bool, generateOk: bool): (code: int)
    ensures code == 0 || code == 1
    ensures code == 0 <==> c.CheckFiles? || c.Help? || (c.RunAll? && runOk) || (c.GenerateIdeas? && generateOk)
  {
    match c
    case RunAll => if runOk then 0 else 1
    case CheckFiles => 0
    case GenerateIdeas => if generateOk then 0 else 1
    case Help => 0
    case Unknown(_) => 1
  }

  /** Options are matched without regard to case: an argument and its lower-cased form
      select the same command. */
  lemma ParseIgnoresCase(arg: string)
    ensures ParseArgument(Lower(arg)) == ParseArgument(arg)
  {
    LowerIdempotent(arg);
  }

  /** Each option, in any case, selects its command. */
  lemma ParseRecognises()
    ensures ParseArgument("--RUN") == RunAll && ParseArgument("-R") == RunAll
    ensures ParseArgument("--Check") == CheckFiles && ParseArgument("-G") == GenerateIdeas
    ensures ParseArgument("--help") == Help
    ensures ParseArgument("--runs") == Unknown("--runs")
  {
    assert Lower("--RUN") == "--run";
    assert Lower("-R") == "-r";
    assert Lower("--Check") == "--check";
    assert Lower("-G") == "-g";
    assert Lower("--help") == "--help";
    assert Lower("--runs") == "--runs";
  }
}
