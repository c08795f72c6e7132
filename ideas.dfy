/**
 * Idea generation (`ideas.py`): the language-model provider manager with
 * its fallback order, reading the existing ledger and its highest id,
 * unwrapping a model reply into a list of ideas, renumbering the new ideas
 * after the existing ones and appending them. The environment is a map;
 * whether a completion request succeeds is an oracle on the provider name;
 * a reply is the JSON value it parses to, or None when it does not parse.
 */
module Ideas {
  import opened Text
  import opened JsonValue
  import opened IdeaRecords

  const NVIDIA := "NVIDIA"
  const G4F := "G4F"
  const OPENAI := "OPENAI"
  const LEDGER := "ideas.json"

  type Env = map<string, string>

  /** `os.getenv(key, default)`. */
  function Getenv(env: Env, key: string, default: string): string
  {
    if key in env then env[key] else default
  }

  /** `if not os.getenv(key)`: a key that is unset or empty. */
  predicate HasValue(env: Env, key: string)
  {
    key in env && env[key] != ""
  }

  /** What `initialize_client` hands back on success: the client's endpoint and key,
      the model name and the provider's name. */
  datatype Connection = Connection(baseUrl: string, apiKey: string, model: string, provider: string)

  /** `initialize_client`: NVIDIA and OpenAI need their keys, G4F always initialises,
      any other name fails; every failure is `(None, None, None)`. */
  function InitializeClient(env: Env, name: string): (c: Option<Connection>)
    ensures c.Some? ==> c.value.provider == name
    ensures c.Some? <==> (name == NVIDIA && HasValue(env, "NVIDIA_API_KEY")) || name == G4F
                         || (name == OPENAI && HasValue(env, "OPENAI_API_KEY"))
  {
    if name == NVIDIA then
      if HasValue(env, "NVIDIA_API_KEY") then
        Some(Connection("https://integrate.api.nvidia.com/v1", env["NVIDIA_API_KEY"],
                        Getenv(env, "NVIDIA_MODEL", "meta/llama-3.1-8b-instruct"), NVIDIA))
      else None
    else if name == G4F then
      Some(Connection("http://localhost:1337/v1", "secret", Getenv(env, "G4F_MODEL", "gpt-4o-mini"), G4F))
    else if name == OPENAI then
      if HasValue(env, "OPENAI_API_KEY") then
        Some(Connection(Getenv(env, "OPENAI_BASE_URL", "https://api.openai.com/v1"), env["OPENAI_API_KEY"],
                        Getenv(env, "MODEL_NAME", "gpt-3.5-turbo"), OPENAI))
      else None
    else None
  }

  /** The providers tried after the primary one fails. */
  function Fallbacks(primary: string): (fs: seq<string>)
    ensures primary == NVIDIA ==> fs == [G4F]
    ensures primary == G4F ==> fs == [NVIDIA]
    ensures primary != NVIDIA && primary != G4F ==> fs == []
  {
    if primary == NVIDIA then [G4F] else if primary == G4F then [NVIDIA] else []
  }

  /** The first provider of `chain` that initialises, as `initialize_client` returns it. */
  function FirstWorking(env: Env, chain: seq<string>): (c: Option<Connection>)
    ensures c.Some? <==> exists i :: 0 <= i < |chain| && InitializeClient(env, chain[i]).Some?
    ensures c.Some? ==> exists i :: 0 <= i < |chain| && c == InitializeClient(env, chain[i])
  {
    if chain == [] then None
    else if InitializeClient(env, chain[0]).Some? then InitializeClient(env, chain[0])
    else
      var rest := FirstWorking(env, chain[1..]);
      assert forall i :: 0 < i < |chain| ==> chain[i] == chain[1..][i - 1];
      rest
  }

  /** `os.getenv('API_PROVIDER', 'NVIDIA').upper()`. */
  function PrimaryProvider(env: Env): string
  {
    Upper(Getenv(env, "API_PROVIDER", NVIDIA))
  }

  /** The providers `setup_with_fallback` tries, in order. */
  function ProviderChain(primary: string): (chain: seq<string>)
    ensures |chain| >= 1 && chain[0] == primary && chain[1..] == Fallbacks(primary)
  {
    [primary] + Fallbacks(primary)
  }

  datatype ChatResult = Answered(provider: string) | NoActiveClient | RequestFailed

  class Manager {
    var primaryProvider: string
    var client: Option<Connection>
    var model: Option<string>
    var currentProvider: Option<string>

    /** The three fields move together, as `initialize_client`'s triple is assigned. */
    predicate Valid()
      reads this
    {
      && (client.Some? <==> model.Some?)
      && (client.Some? <==> currentProvider.Some?)
      && (client.Some? ==> model == Some(client.value.model) && currentProvider == Some(client.value.provider))
    }

    /** `__init__`: the primary provider from `API_PROVIDER` (default NVIDIA), upper-cased. */
    constructor (env: Env)
      ensures primaryProvider == PrimaryProvider(env)
      ensures client.None? && model.None? && currentProvider.None?
      ensures Valid()
    {
      primaryProvider := PrimaryProvider(env);
      client := None;
      model := None;
      currentProvider := None;
    }

    /** `self.client, self.model, self.current_provider = initialize_client(name)`. */
    method Adopt(env: Env, name: string)
      modifies this
      ensures client == InitializeClient(env, name)
      ensures Valid()
      ensures primaryProvider == old(primaryProvider)
    {
      var c := InitializeClient(env, name);
      client := c;
      model := if c.Some? then Some(c.value.model) else None;
      currentProvider := if c.Some? then Some(c.value.provider) else None;
    }

    /** `setup_with_fallback`: the primary provider, then its fallbacks in order. */
    method SetupWithFallback(env: Env) returns (ok: bool)
      modifies this
      ensures Valid() && primaryProvider == old(primaryProvider)
      ensures client == FirstWorking(env, ProviderChain(primaryProvider))
      ensures ok <==> client.Some?
    {
      Adopt(env, primaryProvider);
      if client.Some? {
        return true;
      }
      var fallbacks := Fallbacks(primaryProvider);
      if primaryProvider == OPENAI {
        return false;
      }
      var chain := ProviderChain(primaryProvider);
      var i := 0;
      while i < |fallbacks| && client.None?
        invariant 0 <= i <= |fallbacks|
        invariant Valid() && primaryProvider == old(primaryProvider)
        invariant client.None? ==> FirstWorking(env, chain) == FirstWorking(env, fallbacks[i..])
        invariant client.Some? ==> client == FirstWorking(env, chain)
      {
        Adopt(env, fallbacks[i]);
        i := i + 1;
      }
      return client.Some?;
    }

    /** `chat_completion`: no client raises; a failed request on NVIDIA or G4F switches to
        the other one and retries there once; any other failure raises. */
    method ChatCompletion(env: Env, answers: string -> bool) returns (r: ChatResult)
      requires Valid()
      modifies this
      ensures Valid() && primaryProvider == old(primaryProvider)
      ensures old(client).None? ==> r == NoActiveClient && client == old(client)
      ensures old(client).Some? && answers(old(client).value.provider) ==>
        r == Answered(old(client).value.provider) && client == old(client)
      ensures old(client).Some? && !answers(old(client).value.provider) ==>
        var p := old(client).value.provider;
        if p == NVIDIA || p == G4F then
          var other := if p == NVIDIA then G4F else NVIDIA;
          && client == InitializeClient(env, other)
          && (r.Answered? <==> client.Some? && answers(other))
          && (r.Answered? ==> r.provider == other)
        else r == RequestFailed && client == old(client)
      ensures r != NoActiveClient ==> old(client).Some?
    {
      if client.None? {
        return NoActiveClient;
      }
      var p := client.value.provider;
      if answers(p) {
        return Answered(p);
      }
      if p == NVIDIA || p == G4F {
        var fallback := if p == NVIDIA then G4F else NVIDIA;
        Adopt(env, fallback);
        if client.Some? {
          if answers(fallback) {
            return Answered(fallback);
          }
          return RequestFailed;
        }
      }
      return RequestFailed;
    }
  }

  /** Provider fallback order: NVIDIA then G4F, G4F then NVIDIA, OpenAI or an unknown name
      alone; setup succeeds iff one of them initialises, and uses the first that does. */
  lemma FallbackOrder(env: Env, primary: string)
    ensures primary == NVIDIA ==>
      FirstWorking(env, ProviderChain(primary)) ==
        (if HasValue(env, "NVIDIA_API_KEY") then InitializeClient(env, NVIDIA) else InitializeClient(env, G4F))
    ensures primary == G4F ==> FirstWorking(env, ProviderChain(primary)) == InitializeClient(env, G4F)
    ensures primary == OPENAI ==> FirstWorking(env, ProviderChain(primary)) == InitializeClient(env, OPENAI)
    ensures primary == NVIDIA || primary == G4F ==> FirstWorking(env, ProviderChain(primary)).Some?
    ensures primary != NVIDIA && primary != G4F && primary != OPENAI ==>
      FirstWorking(env, ProviderChain(primary)).None?
  {
    var chain := ProviderChain(primary);
    if primary == NVIDIA {
      assert chain[1..] == [G4F];
    } else if primary == G4F {
      assert chain == [G4F, NVIDIA];
    } else {
      assert chain[1..] == [];
    }
  }

  // ---------------------------------------------------------------------------
  // The existing ledger

  /** The ledger file as read: absent, unreadable or malformed, or parsed. */
  datatype LedgerFile = Missing | Unreadable | Parsed(value: Json)

  /** `idea.get('id', 0)` where it can be compared: None for a record that is not a
      dictionary or whose id is not an integer (`max` then raises). */
  function IdOrZero(idea: Json): Option<int>
  {
    if !idea.JObj? then None
    else match Get(idea, "id")
      case None => Some(0)
      case Some(JNum(n)) => Some(n)
      case Some(_) => None
  }

  predicate Comparable(ideas: seq<Json>)
  {
    forall i :: 0 <= i < |ideas| ==> IdOrZero(ideas[i]).Some?
  }

  /** `max(idea.get('id', 0) for idea in ideas)`. */
  function MaxId(ideas: seq<Json>): (m: int)
    requires |ideas| > 0 && Comparable(ideas)
    ensures forall i :: 0 <= i < |ideas| ==> IdOrZero(ideas[i]).value <= m
    ensures exists i :: 0 <= i < |ideas| && IdOrZero(ideas[i]).value == m
  {
    if |ideas| == 1 then IdOrZero(ideas[0]).value
    else
      var rest := MaxId(ideas[1..]);
      assert forall i :: 1 <= i < |ideas| ==> ideas[i] == ideas[1..][i - 1];
      var first := IdOrZero(ideas[0]).value;
      if first >= rest then first else rest
  }

  /** `load_existing_ideas`: the ledger and its highest id, or `([], 0)` whenever the file
      is missing, unreadable, not a list, empty, or holds ids `max` cannot compare. */
  function LoadExistingIdeas(f: LedgerFile): (r: (seq<Json>, int))
    ensures r.0 == [] ==> r.1 == 0
    ensures r.0 != [] <==> f.Parsed? && f.value.JArr? && f.value.items != [] && Comparable(f.value.items)
    ensures r.0 != [] ==> r.0 == f.value.items && r.1 == MaxId(r.0)
  {
    match f
    case Parsed(JArr(items)) =>
      if items != [] && Comparable(items) then (items, MaxId(items)) else ([], 0)
    case _ => ([], 0)
  }

  // ---------------------------------------------------------------------------
  // Model replies

  /** The first member, in key order, whose value is a non-empty list. */
  function FirstNonEmptyList(ms: seq<Member>): (r: Option<seq<Json>>)
    ensures r.Some? ==> (r.value != [] &&
      exists i :: 0 <= i < |ms| && ms[i].value == JArr(r.value)
        && forall k :: 0 <= k < i ==> !(ms[k].value.JArr? && ms[k].value.items != []))
    ensures r.None? ==> forall k :: 0 <= k < |ms| ==> !(ms[k].value.JArr? && ms[k].value.items != [])
  {
    if ms == [] then None
    else if ms[0].value.JArr? && ms[0].value.items != [] then Some(ms[0].value.items)
    else
      var r := FirstNonEmptyList(ms[1..]);
      assert forall k :: 0 < k < |ms| ==> ms[k] == ms[1..][k - 1];
      r
  }

  /** The unwrap step: a list as is; a dictionary's first non-empty list value, or the
      dictionary alone; any other value alone. */
  function Unwrap(j: Json): (ideas: seq<Json>)
    ensures j.JArr? ==> ideas == j.items
    ensures j.JObj? && FirstNonEmptyList(j.members).Some? ==> ideas == FirstNonEmptyList(j.members).value
    ensures j.JObj? && FirstNonEmptyList(j.members).None? ==> ideas == [j]
    ensures !j.JArr? && !j.JObj? ==> ideas == [j]
  {
    match j
    case JArr(items) => items
    case JObj(ms) =>
      var r := FirstNonEmptyList(ms);
      if r.Some? then r.value else [j]
    case _ => [j]
  }

  /** Unwrapping never loses a value that was not a list, and a non-list always comes back
      as a single-element list. */
  lemma UnwrapNonEmpty(j: Json)
    ensures !j.JArr? ==> |Unwrap(j)| >= 1
    ensures j.JObj? ==> Unwrap(j) == [j] || exists i :: 0 <= i < |j.members| && j.members[i].value == JArr(Unwrap(j))
  {
  }

  predicate AllObjects(ideas: seq<Json>)
  {
    forall i :: 0 <= i < |ideas| ==> ideas[i].JObj?
  }

  /** `generate_initial_ideas` / `rank_and_filter_ideas` after the request: the unwrapped
      reply, or None when it does not parse or an item is not a dictionary (the listing of
      `item.get('id')` raises). */
  function IdeasFromReply(reply: Option<Json>): (r: Option<seq<Json>>)
    ensures r.Some? ==> reply.Some? && AllObjects(r.value) && r.value == Unwrap(reply.value)
    ensures r.None? <==> reply.None? || !AllObjects(Unwrap(reply.value))
  {
    if reply.None? then None
    else
      var ideas := Unwrap(reply.value);
      if AllObjects(ideas) then Some(ideas) else None
  }

  // ---------------------------------------------------------------------------
  // Renumbering and saving

  /** `renumber_and_append_ids`: the i-th idea gets id `start + i`; nothing else changes. */
  method RenumberAndAppendIds(newIdeas: seq<Json>, startId: int) returns (renumbered: seq<Json>)
    requires AllObjects(newIdeas)
    ensures |renumbered| == |newIdeas| && AllObjects(renumbered)
    ensures forall i :: 0 <= i < |newIdeas| ==> IdOf(renumbered[i]) == Some(startId + i)
    ensures forall i, k :: 0 <= i < |newIdeas| && k != "id" ==> Get(renumbered[i], k) == Get(newIdeas[i], k)
  {
    renumbered := [];
    var idx := 0;
    while idx < |newIdeas|
      invariant 0 <= idx <= |newIdeas| && |renumbered| == idx && AllObjects(renumbered)
      invariant forall i :: 0 <= i < idx ==> IdOf(renumbered[i]) == Some(startId + i)
      invariant forall i, k :: 0 <= i < idx && k != "id" ==> Get(renumbered[i], k) == Get(newIdeas[i], k)
    {
      var idea := Set(newIdeas[idx], "id", JNum(startId + idx));
      SetGet(newIdeas[idx], "id", JNum(startId + idx));
      renumbered := renumbered + [idea];
      idx := idx + 1;
    }
  }

  /** `existing_ideas + new_ideas`, the list `save_ideas_to_file` writes. */
  function Combine(existing: seq<Json>, newIdeas: seq<Json>): (c: seq<Json>)
    ensures |c| == |existing| + |newIdeas|
    ensures c[..|existing|] == existing && c[|existing|..] == newIdeas
  {
    existing + newIdeas
  }

  /** New ids numbered from `max + 1` are all above every id already in the ledger and run
      from `max + 1` to `max + len(new)`. */
  lemma FreshIdsAboveExisting(f: LedgerFile, renumbered: seq<Json>)
    requires var (existing, maxId) := LoadExistingIdeas(f);
      forall i :: 0 <= i < |renumbered| ==> IdOf(renumbered[i]) == Some(maxId + 1 + i)
    ensures var (existing, maxId) := LoadExistingIdeas(f);
      && (forall i, j :: 0 <= i < |existing| && 0 <= j < |renumbered| ==>
            IdOrZero(existing[i]).value < IdOf(renumbered[j]).value)
      && (forall j :: 0 <= j < |renumbered| ==> maxId + 1 <= IdOf(renumbered[j]).value <= maxId + |renumbered|)
  {
  }

  /** What the idea script ends with. */
  datatype IdeasRun = IdeasRun(exitCode: int, written: Option<seq<Json>>)

  /** The ideas that get appended: the ranked ones, or the initial ones when ranking gave
      nothing; None when there are no initial ideas. */
  function ChosenIdeas(initialReply: Option<Json>, rankedReply: Option<Json>): (c: Option<seq<Json>>)
    ensures c.Some? <==> IdeasFromReply(initialReply).Some? && IdeasFromReply(initialReply).value != []
    ensures c.Some? ==> c.value != [] && AllObjects(c.value)
  {
    var initial := IdeasFromReply(initialReply);
    var ranked := IdeasFromReply(rankedReply);
    if initial.None? || initial.value == [] then None
    else if ranked.Some? && ranked.value != [] then ranked
    else initial
  }

  /** `written` is `existing` followed by the `chosen` ideas, the i-th numbered `startId + i`
      and otherwise as chosen. */
  ghost predicate AppendedRenumbered(written: seq<Json>, existing: seq<Json>, chosen: seq<Json>, startId: int)
  {
    && |written| == |existing| + |chosen|
    && written[..|existing|] == existing
    && (forall j :: |existing| <= j < |written| ==> IdOf(written[j]) == Some(startId + (j - |existing|)))
    && (forall j, k :: |existing| <= j < |written| && k != "id" ==>
          Get(written[j], k) == Get(chosen[j - |existing|], k))
  }

  /** Appending the renumbered ideas keeps the ledger in front, and behind it the chosen
      ideas with their new ids and every other field. */
  lemma CombineKeepsIds(existing: seq<Json>, chosen: seq<Json>, newIdeas: seq<Json>, startId: int)
    requires |newIdeas| == |chosen|
    requires forall i :: 0 <= i < |newIdeas| ==> IdOf(newIdeas[i]) == Some(startId + i)
    requires forall i, k :: 0 <= i < |newIdeas| && k != "id" ==> Get(newIdeas[i], k) == Get(chosen[i], k)
    ensures AppendedRenumbered(Combine(existing, newIdeas), existing, chosen, startId)
  {
    var c := Combine(existing, newIdeas);
    forall j | |existing| <= j < |c|
      ensures IdOf(c[j]) == Some(startId + (j - |existing|))
      ensures forall k :: k != "id" ==> Get(c[j], k) == Get(chosen[j - |existing|], k)
    {
      assert c[j] == newIdeas[j - |existing|];
    }
  }

  /** `main` of the idea script: set up a provider, read the ledger, take the ranked ideas
      (or the initial ones when ranking fails), renumber them after the highest id and
      append them. `writeOk` says whether the file could be written. */
  method IdeasMain(env: Env, ledger: LedgerFile, initialReply: Option<Json>, rankedReply: Option<Json>, writeOk: bool)
    returns (run: IdeasRun)
    ensures run.exitCode == 0 <==> run.written.Some? && writeOk
    ensures run.exitCode == 0 || run.exitCode == 1
    ensures run.written.Some? <==>
      FirstWorking(env, ProviderChain(PrimaryProvider(env))).Some? && ChosenIdeas(initialReply, rankedReply).Some?
    ensures run.written.Some? ==>
      AppendedRenumbered(run.written.value, LoadExistingIdeas(ledger).0, ChosenIdeas(initialReply, rankedReply).value,
                         LoadExistingIdeas(ledger).1 + 1)
  {
    var manager := new Manager(env);
    var ok := manager.SetupWithFallback(env);
    if !ok {
      return IdeasRun(1, None);
    }
    run := GenerateAndSave(ledger, initialReply, rankedReply, writeOk);
  }

  /** The script once a provider is connected: load the ledger, take the chosen ideas,
      renumber them after the highest id and save; exit 1 when there are no ideas or the
      save fails. */
  method GenerateAndSave(ledger: LedgerFile, initialReply: Option<Json>, rankedReply: Option<Json>, writeOk: bool)
    returns (run: IdeasRun)
    ensures run.exitCode == 0 <==> run.written.Some? && writeOk
    ensures run.exitCode == 0 || run.exitCode == 1
    ensures run.written.Some? <==> ChosenIdeas(initialReply, rankedReply).Some?
    ensures run.written.Some? ==>
      AppendedRenumbered(run.written.value, LoadExistingIdeas(ledger).0, ChosenIdeas(initialReply, rankedReply).value,
                         LoadExistingIdeas(ledger).1 + 1)
  {
    var existing, maxId := LoadExistingIdeas(ledger).0, LoadExistingIdeas(ledger).1;
    var chosen := ChosenIdeas(initialReply, rankedReply);
    if chosen.None? {
      return IdeasRun(1, None);
    }
    var combined := AppendRenumbered(existing, chosen.value, maxId + 1);
    run := IdeasRun(if writeOk then 0 else 1, Some(combined));
  }

  /** Steps 3 and 4 of the script: renumber the chosen ideas from `startId` and put them
      behind the ledger's records, which is the list `save_ideas_to_file` writes. */
  method AppendRenumbered(existing: seq<Json>, chosen: seq<Json>, startId: int) returns (combined: seq<Json>)
    requires AllObjects(chosen)
    ensures AppendedRenumbered(combined, existing, chosen, startId)
  {
    var newIdeas := RenumberAndAppendIds(chosen, startId);
    combined := Combine(existing, newIdeas);
    CombineKeepsIds(existing, chosen, newIdeas, startId);
  }
}
