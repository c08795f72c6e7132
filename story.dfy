/**
 * Storyboard stage (`story.py`): pulling JSON out of a model reply,
 * naming and placing the storyboard file, and processing the pending idea
 * with the smallest id. Parsing a string as JSON is an oracle
 * (`parse(text)` is None when `json.loads` raises), and so is the
 * storyboard request itself.
 */
module Story {
  import opened Text
  import opened JsonValue
  import opened IdeaRecords

  const STORYBOARD_DIR := "story_board"
  const STORYBOARD_GENERATED := "storyboard_generated"
  const FENCE := "``````"

  // ---------------------------------------------------------------------------
  // Extracting JSON from a reply

  /** `pat` occurs in `s` at index `i`. */
  predicate OccursAt(s: string, pat: string, i: int)
  {
    0 <= i <= |s| - |pat| && s[i..i + |pat|] == pat
  }

  /** Whether `pat` occurs in `s` (`re.search` of a pattern without special characters). */
  predicate Contains(s: string, pat: string)
  {
    exists i :: 0 <= i <= |s| && OccursAt(s, pat, i)
  }

  /** Index of the first occurrence of `c` at or after `from`, or -1. */
  function IndexFrom(s: string, c: char, from: nat): (k: int)
    ensures k == -1 || (from <= k < |s| && s[k] == c)
    ensures k == -1 ==> forall i :: from <= i < |s| ==> s[i] != c
    ensures k >= 0 ==> forall i :: from <= i < k ==> s[i] != c
    decreases |s| - from
  {
    if from >= |s| then -1
    else if s[from] == c then from
    else IndexFrom(s, c, from + 1)
  }

  /** `re.search(r'(\[[\s\S]*?\])', s).group(1)`: from the first '[' to the nearest ']'
      after it. There is a match exactly when some '[' is followed by a ']'. */
  function BracketSpan(s: string): (r: Option<string>)
    ensures r.Some? <==> exists i, j :: 0 <= i < j < |s| && s[i] == '[' && s[j] == ']'
    ensures r.Some? ==>
      var b := r.value;
      && OccursAt(s, b, IndexFrom(s, '[', 0))
      && (forall k :: 0 <= k < IndexFrom(s, '[', 0) ==> s[k] != '[')
      && |b| >= 2 && b[0] == '[' && b[|b| - 1] == ']'
      && (forall k :: 0 < k < |b| - 1 ==> b[k] != ']')
  {
    var i := IndexFrom(s, '[', 0);
    if i < 0 then None
    else
      var j := IndexFrom(s, ']', i + 1);
      if j < 0 then None else Some(s[i..j + 1])
  }

  datatype Extraction = Extracted(value: Json) | NoSuchGroup | CouldNotExtract

  /** `extract_json_from_response`: the whole reply; then the fenced pattern, whose match
      has no group 1, so `group(1)` raises; then the bracketed span; else `ValueError`. */
  function ExtractJson(text: string, parse: string -> Option<Json>): (r: Extraction)
    ensures parse(text).Some? ==> r == Extracted(parse(text).value)
    ensures r == NoSuchGroup <==> parse(text).None? && Contains(text, FENCE)
    ensures r.Extracted? && parse(text).None? ==>
      BracketSpan(text).Some? && parse(BracketSpan(text).value) == Some(r.value)
    ensures parse(text).None? && !Contains(text, FENCE) && BracketSpan(text).Some? && parse(BracketSpan(text).value).Some? ==>
      r == Extracted(parse(BracketSpan(text).value).value)
    ensures r == CouldNotExtract <==>
      parse(text).None? && !Contains(text, FENCE) && (BracketSpan(text).None? || parse(BracketSpan(text).value).None?)
  {
    if parse(text).Some? then Extracted(parse(text).value)
    else if Contains(text, FENCE) then NoSuchGroup
    else
      var span := BracketSpan(text);
      if span.Some? && parse(span.value).Some? then Extracted(parse(span.value).value)
      else CouldNotExtract
  }

  // ---------------------------------------------------------------------------
  // The storyboard file

  /** `f"{title.replace(' ', '_').replace('/', '_')}.json"`. */
  function StoryboardFilename(title: string): (f: string)
    ensures |f| == |title| + 5 && f[|title|..] == ".json"
  {
    ReplaceChar(ReplaceChar(title, ' ', '_'), '/', '_') + ".json"
  }

  /** The name has no space and no '/', so it is a single path component, and the title's
      other characters are kept in place. */
  lemma StoryboardFilenameSafe(title: string)
    ensures var f := StoryboardFilename(title);
      && (forall i :: 0 <= i < |f| ==> f[i] != ' ' && f[i] != '/')
      && (forall i :: 0 <= i < |title| && title[i] != ' ' && title[i] != '/' ==> f[i] == title[i])
  {
  }

  /** Sanitising a sanitised title changes nothing. */
  lemma StoryboardFilenameIdempotent(title: string)
    ensures var stem := StoryboardFilename(title)[..|title|];
      StoryboardFilename(stem) == StoryboardFilename(title)
  {
    var f := StoryboardFilename(title);
    var stem := f[..|title|];
    assert StoryboardFilename(stem)[..|title|] == stem;
    assert f == stem + ".json";
  }

  /** `save_storyboard`'s path: `os.path.join("story_board", filename)`. */
  function StoryboardPath(filename: string): string
  {
    PathJoin(STORYBOARD_DIR, filename)
  }

  /** The storyboard lands directly in "story_board/", and its base name is the file name. */
  lemma StoryboardPathShape(title: string)
    ensures StoryboardPath(StoryboardFilename(title)) == "story_board/" + StoryboardFilename(title)
    ensures Basename(StoryboardPath(StoryboardFilename(title))) == StoryboardFilename(title)
  {
    var f := StoryboardFilename(title);
    StoryboardFilenameSafe(title);
    var p := StoryboardPath(f);
    assert p == "story_board/" + f;
    assert p[11] == '/';
    assert RFind(p, '/') == 11;
    assert p[12..] == f;
  }

  // ---------------------------------------------------------------------------
  // Processing the first pending idea

  /** What the storyboard request gives: a storyboard, or the text of the error raised. */
  datatype StoryboardAttempt = Generated(storyboard: Json) | Failed(message: string)

  /** Python's type name for a JSON value, as it appears in an `AttributeError`. */
  function TypeName(j: Json): string
  {
    match j
    case JNull => "NoneType"
    case JBool(_) => "bool"
    case JNum(_) => "int"
    case JStr(_) => "str"
    case JArr(_) => "list"
    case JObj(_) => "dict"
  }

  datatype StoryOutcome =
    | Finished(success: bool, saved: Option<seq<Json>>, storyboard: Option<(string, Json)>)
    | Crashed   // sorting, the progress line reading `idea['idea']`, or writing the ledger raised

  /** The idea after a successful storyboard: path, new status, cleared error. */
  function Succeeded(idea: Json, path: string): (r: Json)
    requires idea.JObj?
  {
    Set(Set(Set(idea, "final_output", JStr(path)), "publishing_status", JStr(STORYBOARD_GENERATED)), "error_log", JStr(""))
  }

  /** The idea after a failure: only the error text changes. */
  function Errored(idea: Json, message: string): (r: Json)
    requires idea.JObj?
  {
    Set(idea, "error_log", JStr(message))
  }

  /** The try block for the chosen idea: the storyboard request on `idea['idea']` and
      `idea['caption']`, then the file name, which needs a string title, then writing the
      storyboard there. `write(path)` is the text of the error writing raises, if any. */
  function Attempt(idea: Json, generate: (Json, Json) -> StoryboardAttempt, write: string -> Option<string>): (r: StoryboardAttempt)
    requires Get(idea, "idea").Some?
  {
    var title := Get(idea, "idea").value;
    match Get(idea, "caption")
    case None => Failed("'caption'")
    case Some(caption) =>
      match generate(title, caption)
      case Failed(m) => Failed(m)
      case Generated(sb) =>
        if !title.JStr? then Failed("'" + TypeName(title) + "' object has no attribute 'replace'")
        else match write(StoryboardPath(StoryboardFilename(title.s)))
          case Some(m) => Failed(m)
          case None => Generated(sb)
  }

  /** `process_first_pending_idea`: sort by id, act on the first pending idea only, save the
      whole sorted list after a success or a failure, and save nothing when none is
      pending. `ledgerWritable` says whether saving the list succeeds; when it does not,
      the save in the `except` branch raises out of the function. */
  method ProcessFirstPendingIdea(ideas: seq<Json>, generate: (Json, Json) -> StoryboardAttempt,
                                 write: string -> Option<string>, ledgerWritable: bool) returns (r: StoryOutcome)
    ensures !AllIntIds(ideas) ==> r == Crashed
    ensures AllIntIds(ideas) ==>
      var sorted := SortById(ideas);
      match FirstPending(sorted)
      case None => r == Finished(false, None, None)
      case Some(k) =>
        var idea := sorted[k];
        if Get(idea, "idea").None? || !ledgerWritable then r == Crashed
        else match Attempt(idea, generate, write)
          case Generated(sb) =>
            var path := StoryboardPath(StoryboardFilename(Get(idea, "idea").value.s));
            r == Finished(true, Some(sorted[k := Succeeded(idea, path)]), Some((path, sb)))
          case Failed(m) =>
            r == Finished(false, Some(sorted[k := Errored(idea, m)]), None)
  {
    if !AllIntIds(ideas) {
      return Crashed;
    }
    var sorted := SortById(ideas);
    var found := FindPending(sorted);
    if found.None? {
      return Finished(false, None, None);
    }
    var i := found.value;
    var idea := sorted[i];
    if Get(idea, "idea").None? {
      return Crashed;
    }
    var attempt := Attempt(idea, generate, write);
    if !ledgerWritable {
      // `save_ideas` raises on either path, the second time inside the `except` branch.
      return Crashed;
    }
    if attempt.Generated? {
      var filename := StoryboardFilename(Get(idea, "idea").value.s);
      var savedPath := StoryboardPath(filename);
      return Finished(true, Some(sorted[i := Succeeded(idea, savedPath)]), Some((savedPath, attempt.storyboard)));
    }
    return Finished(false, Some(sorted[i := Errored(idea, attempt.message)]), None);
  }

  /** On success the chosen idea reads the storyboard's path, the new status and an empty
      error; on failure only its error text changes and it stays pending. Its id and every
      other field are kept. */
  lemma OutcomeFields(idea: Json, path: string, message: string)
    requires idea.JObj? && IsPending(idea)
    ensures var s := Succeeded(idea, path);
      && Get(s, "final_output") == Some(JStr(path))
      && Get(s, "publishing_status") == Some(JStr(STORYBOARD_GENERATED))
      && Get(s, "error_log") == Some(JStr(""))
      && forall key :: key != "final_output" && key != "publishing_status" && key != "error_log" ==>
           Get(s, key) == Get(idea, key)
    ensures var e := Errored(idea, message);
      && Get(e, "error_log") == Some(JStr(message))
      && IsPending(e)
      && forall key :: key != "error_log" ==> Get(e, key) == Get(idea, key)
  {
    var a := Set(idea, "final_output", JStr(path));
    var b := Set(a, "publishing_status", JStr(STORYBOARD_GENERATED));
    SetGet(idea, "final_output", JStr(path));
    SetGet(a, "publishing_status", JStr(STORYBOARD_GENERATED));
    SetGet(b, "error_log", JStr(""));
    SetGet(idea, "error_log", JStr(message));
  }

  /** The idea acted on is the pending idea with the smallest id. */
  lemma ChosenIsSmallestPending(ideas: seq<Json>)
    requires AllIntIds(ideas) && FirstPending(SortById(ideas)).Some?
    ensures var chosen := SortById(ideas)[FirstPending(SortById(ideas)).value];
      chosen in ideas && IsPending(chosen) && forall x :: x in ideas && IsPending(x) ==> Id(chosen) <= Id(x)
  {
    FirstPendingIsMinimal(ideas);
    var sorted := SortById(ideas);
    SortByIdMembers(ideas, sorted[FirstPending(sorted).value]);
  }

  /** Recording the outcome keeps the chosen record's id, so the ledger written back is
      still the records read, ordered by id. */
  lemma SavedLedgerSorted(ideas: seq<Json>, k: nat, path: string, message: string)
    requires AllIntIds(ideas) && k < |ideas| && SortById(ideas)[k].JObj?
    ensures var s := SortById(ideas);
      && AllIntIds(s[k := Succeeded(s[k], path)]) && SortedById(s[k := Succeeded(s[k], path)])
      && AllIntIds(s[k := Errored(s[k], message)]) && SortedById(s[k := Errored(s[k], message)])
  {
    var s := SortById(ideas);
    SortByIdSorted(ideas);
    OutcomeKeepsId(s[k], path, message);
    SameIdKeepsOrder(s, k, Succeeded(s[k], path));
    SameIdKeepsOrder(s, k, Errored(s[k], message));
  }

  lemma OutcomeKeepsId(idea: Json, path: string, message: string)
    requires idea.JObj?
    ensures IdOf(Succeeded(idea, path)) == IdOf(idea)
    ensures IdOf(Errored(idea, message)) == IdOf(idea)
  {
    var a := Set(idea, "final_output", JStr(path));
    var b := Set(a, "publishing_status", JStr(STORYBOARD_GENERATED));
    PutLookup(idea.members, "final_output", JStr(path), "id");
    PutLookup(a.members, "publishing_status", JStr(STORYBOARD_GENERATED), "id");
    PutLookup(b.members, "error_log", JStr(""), "id");
    PutLookup(idea.members, "error_log", JStr(message), "id");
  }

  lemma SameIdKeepsOrder(s: seq<Json>, k: nat, x: Json)
    requires AllIntIds(s) && SortedById(s) && k < |s| && IdOf(x) == IdOf(s[k])
    ensures AllIntIds(s[k := x]) && SortedById(s[k := x])
  {
    var t := s[k := x];
    assert forall i :: 0 <= i < |s| ==> IdOf(t[i]) == IdOf(s[i]);
  }
}
