/**
 * JSON values as `json.load` hands them to the pipeline. Objects keep their
 * members in key order, as Python dictionaries do; a lookup reads the first
 * member with the key and an assignment `d[k] = v` replaces that member in
 * place or appends a new one at the end. A dictionary from `json.load` never
 * holds a key twice; `JObj` admits such member lists, so the lemmas here also
 * cover values Python cannot produce, where any later duplicate is unseen.
 */
module JsonValue {

  datatype Option<T> = None | Some(value: T)

  datatype Json =
    | JNull
    | JBool(b: bool)
    | JNum(n: int)
    | JStr(s: string)
    | JArr(items: seq<Json>)
    | JObj(members: seq<Member>)

  datatype Member = Member(key: string, value: Json)

  /** `d.get(key)` on the member list of a dictionary. */
  function Lookup(ms: seq<Member>, key: string): (r: Option<Json>)
    ensures r.Some? <==> exists i :: 0 <= i < |ms| && ms[i].key == key
  {
    if ms == [] then None
    else if ms[0].key == key then Some(ms[0].value)
    else Lookup(ms[1..], key)
  }

  /** `d.get(key)` on any value; only dictionaries have keys. */
  function Get(j: Json, key: string): Option<Json>
  {
    if j.JObj? then Lookup(j.members, key) else None
  }

  /** `d[key] = v` on the member list. */
  function Put(ms: seq<Member>, key: string, v: Json): seq<Member>
  {
    if ms == [] then [Member(key, v)]
    else if ms[0].key == key then [Member(key, v)] + ms[1..]
    else [ms[0]] + Put(ms[1..], key, v)
  }

  /** `d[key] = v` on a dictionary. */
  function Set(j: Json, key: string, v: Json): (r: Json)
    requires j.JObj?
    ensures r.JObj?
  {
    JObj(Put(j.members, key, v))
  }

  lemma {:induction false} PutLookup(ms: seq<Member>, key: string, v: Json, other: string)
    ensures Lookup(Put(ms, key, v), key) == Some(v)
    ensures other != key ==> Lookup(Put(ms, key, v), other) == Lookup(ms, other)
  {
    if ms != [] && ms[0].key != key {
      PutLookup(ms[1..], key, v, other);
    }
  }

  /** After `d[key] = v`, `d[key]` is `v` and every other key reads as before. */
  lemma SetGet(j: Json, key: string, v: Json)
    requires j.JObj?
    ensures Get(Set(j, key, v), key) == Some(v)
    ensures forall other :: other != key ==> Get(Set(j, key, v), other) == Get(j, other)
  {
    PutLookup(j.members, key, v, key);
    forall other | other != key
      ensures Get(Set(j, key, v), other) == Get(j, other)
    {
      PutLookup(j.members, key, v, other);
    }
  }

  /** A string-valued member, as code that goes on to use it as a `str` needs it. */
  function GetString(j: Json, key: string): (r: Option<string>)
    ensures r.Some? <==> Get(j, key).Some? && Get(j, key).value.JStr?
  {
    match Get(j, key)
    case Some(JStr(s)) => Some(s)
    case _ => None
  }
}

/**
 * The idea ledger's records (`ideas.json`): dictionaries with an integer
 * `id` and a `publishing_status`, and the stable sort by id that both
 * `main.py` and `story.py` run on them.
 */
module IdeaRecords {
  import opened JsonValue

  const PENDING := "pending"

  /** `idea['id']` when it is present and an integer. */
  function IdOf(idea: Json): Option<int>
  {
    match Get(idea, "id")
    case Some(JNum(n)) => Some(n)
    case _ => None
  }

  predicate HasIntId(idea: Json)
  {
    IdOf(idea).Some?
  }

  /** Every record can be keyed by `x['id']` and the keys compare: the sort does not raise. */
  predicate AllIntIds(ideas: seq<Json>)
  {
    forall i :: 0 <= i < |ideas| ==> HasIntId(ideas[i])
  }

  function Id(idea: Json): int
    requires HasIntId(idea)
  {
    IdOf(idea).value
  }

  /** `idea.get('publishing_status') == 'pending'`. */
  predicate IsPending(idea: Json)
  {
    Get(idea, "publishing_status") == Some(JStr(PENDING))
  }

  predicate SortedById(s: seq<Json>)
    requires AllIntIds(s)
  {
    forall i, j :: 0 <= i < j < |s| ==> Id(s[i]) <= Id(s[j])
  }

  /** Places `x` after every element whose id is not larger: later records stay after equal ones. */
  function Insert(x: Json, s: seq<Json>): (r: seq<Json>)
    requires HasIntId(x) && AllIntIds(s)
    ensures AllIntIds(r) && |r| == |s| + 1
    ensures multiset(r) == multiset(s) + multiset{x}
  {
    if s == [] then [x]
    else if Id(x) < Id(s[0]) then [x] + s
    else
      assert s == [s[0]] + s[1..];
      [s[0]] + Insert(x, s[1..])
  }

  /** `ideas.sort(key=lambda x: x['id'])`, a stable sort: insertion of each record, in
      list order, behind the records already placed with an equal id. */
  function SortById(s: seq<Json>): (r: seq<Json>)
    requires AllIntIds(s)
    ensures AllIntIds(r)
    ensures |r| == |s|
    ensures multiset(r) == multiset(s)
  {
    if s == [] then []
    else
      assert s == s[..|s| - 1] + [s[|s| - 1]];
      Insert(s[|s| - 1], SortById(s[..|s| - 1]))
  }

  lemma {:induction false} InsertSorted(x: Json, s: seq<Json>)
    requires HasIntId(x) && AllIntIds(s) && SortedById(s)
    ensures SortedById(Insert(x, s))
  {
    if s != [] && Id(x) >= Id(s[0]) {
      InsertSorted(x, s[1..]);
      InsertBounded(x, s[1..], Id(s[0]));
    }
  }

  /** A lower bound on `x` and on every id of `s` bounds every id after the insertion. */
  lemma {:induction false} InsertBounded(x: Json, s: seq<Json>, b: int)
    requires HasIntId(x) && AllIntIds(s) && b <= Id(x)
    requires forall i :: 0 <= i < |s| ==> b <= Id(s[i])
    ensures forall i :: 0 <= i < |Insert(x, s)| ==> b <= Id(Insert(x, s)[i])
  {
    if s != [] && Id(x) >= Id(s[0]) {
      InsertBounded(x, s[1..], b);
    }
  }

  /** The sorted ledger is ordered by id and holds exactly the records read. */
  lemma {:induction false} SortByIdSorted(s: seq<Json>)
    requires AllIntIds(s)
    ensures SortedById(SortById(s))
  {
    if s != [] {
      SortByIdSorted(s[..|s| - 1]);
      InsertSorted(s[|s| - 1], SortById(s[..|s| - 1]));
    }
  }

  /** Membership is what sorting keeps: a record is in the sorted ledger iff it was read. */
  lemma SortByIdMembers(s: seq<Json>, x: Json)
    requires AllIntIds(s)
    ensures x in SortById(s) <==> x in s
  {
    assert x in SortById(s) <==> x in multiset(SortById(s));
    assert x in s <==> x in multiset(s);
  }

  /** The index of the first pending record, if any. */
  function FirstPending(s: seq<Json>): (k: Option<nat>)
    ensures k.Some? ==> k.value < |s| && IsPending(s[k.value]) && forall j :: 0 <= j < k.value ==> !IsPending(s[j])
    ensures k.None? ==> forall j :: 0 <= j < |s| ==> !IsPending(s[j])
  {
    if s == [] then None
    else if IsPending(s[0]) then Some(0)
    else
      var r := FirstPending(s[1..]);
      assert forall j :: 0 < j < |s| ==> s[j] == s[1..][j - 1];
      if r.Some? then Some(r.value + 1) else None
  }

  /** The loop of `process_first_pending_idea` and `get_current_idea_id` up to the first
      pending record. */
  method FindPending(sorted: seq<Json>) returns (found: Option<nat>)
    ensures found == FirstPending(sorted)
  {
    var i := 0;
    while i < |sorted|
      invariant 0 <= i <= |sorted|
      invariant forall j :: 0 <= j < i ==> !IsPending(sorted[j])
    {
      if IsPending(sorted[i]) {
        FirstPendingUnique(sorted, i);
        return Some(i);
      }
      i := i + 1;
    }
    return None;
  }

  lemma FirstPendingUnique(s: seq<Json>, i: nat)
    requires i < |s| && IsPending(s[i]) && forall j :: 0 <= j < i ==> !IsPending(s[j])
    ensures FirstPending(s) == Some(i)
  {
  }

  /** In a list ordered by id, the first pending record has the smallest pending id. */
  lemma SortedFirstPendingMin(sorted: seq<Json>)
    requires AllIntIds(sorted) && SortedById(sorted)
    ensures FirstPending(sorted).Some? ==>
      forall j :: 0 <= j < |sorted| && IsPending(sorted[j]) ==> Id(sorted[FirstPending(sorted).value]) <= Id(sorted[j])
  {
  }

  /** In the sorted ledger the first pending record has the smallest id of all pending
      records read, and a pending record exists in it iff one was read. */
  lemma FirstPendingIsMinimal(s: seq<Json>)
    requires AllIntIds(s)
    ensures var sorted := SortById(s);
      && (FirstPending(sorted).None? <==> forall x :: x in s ==> !IsPending(x))
      && (FirstPending(sorted).Some? ==>
            forall x :: x in s && IsPending(x) ==> Id(sorted[FirstPending(sorted).value]) <= Id(x))
  {
    var sorted := SortById(s);
    SortByIdSorted(s);
    SortedFirstPendingMin(sorted);
    forall x | x in s
      ensures exists j :: 0 <= j < |sorted| && sorted[j] == x
    {
      SortByIdMembers(s, x);
    }
    if FirstPending(sorted).Some? {
      var k := FirstPending(sorted).value;
      SortByIdMembers(s, sorted[k]);
    }
  }
}
