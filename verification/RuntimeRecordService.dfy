/** The ring of recent requests and events that the console shows. */
module RuntimeRecordService {
  import opened Wrappers
  import opened Redaction

  const DEFAULT_CAPACITY := 256
  const DEFAULT_LIMIT := 100
  const MAX_LIMIT := 500
  const OK := 0

  datatype Entry = Entry(id: nat, ts: int, kind: string, source: string, connection: string, command: string,
                         requestId: string, status: string, code: int, message: string, durationMs: nat,
                         preview: string)

  // ----- the meaning of the ring

  function LastOf<T>(s: seq<T>, n: nat): seq<T> {
    if |s| <= n then s else s[|s| - n..]
  }

  function NewestFirst<T>(s: seq<T>): seq<T> {
    if s == [] then [] else [s[|s| - 1]] + NewestFirst(s[..|s| - 1])
  }

  predicate Passes(e: Entry, filter: string) {
    filter == "" || e.kind == filter
  }

  function Chosen(s: seq<Entry>, filter: string): seq<Entry> {
    if s == [] then [] else (if Passes(s[0], filter) then [s[0]] else []) + Chosen(s[1..], filter)
  }

  function FirstOf<T>(s: seq<T>, n: nat): seq<T> {
    if |s| <= n then s else s[..n]
  }

  function LimitOf(limit: nat): nat {
    if limit == 0 then DEFAULT_LIMIT else if limit > MAX_LIMIT then MAX_LIMIT else limit
  }

  /** What BuildRecordsJson owes its caller, in terms of everything ever pushed. */
  function View(history: seq<Entry>, capacity: nat, filter: string, limit: nat): seq<Entry> {
    FirstOf(Chosen(NewestFirst(LastOf(history, capacity)), filter), LimitOf(limit))
  }

  lemma {:induction false} ChosenAppend(a: seq<Entry>, b: seq<Entry>, filter: string)
    ensures Chosen(a + b, filter) == Chosen(a, filter) + Chosen(b, filter)
  {
    if a == [] {
      assert a + b == b;
    } else {
      assert (a + b)[1..] == a[1..] + b;
      ChosenAppend(a[1..], b, filter);
    }
  }

  lemma NewestFirstIsReverse<T>(s: seq<T>)
    ensures |NewestFirst(s)| == |s| && forall k | 0 <= k < |s| :: NewestFirst(s)[k] == s[|s| - 1 - k]
  {
  }

  lemma LastPush<T>(s: seq<T>, x: T, n: nat)
    ensures LastOf(s, n) + [x] == LastOf(s + [x], |LastOf(s, n)| + 1)
    ensures |LastOf(s, n)| == |s| || |LastOf(s, n)| == n
  {
  }

  lemma LastDrop<T>(s: seq<T>, n: nat)
    requires 0 < n && |LastOf(s, n)| == n
    ensures LastOf(s, n)[1..] == LastOf(s, n - 1)
  {
  }

  lemma LastAll<T>(s: seq<T>, k: nat, n: nat)
    requires k <= n && |LastOf(s, k)| == k && (k == |s| || k >= n)
    ensures LastOf(s, k) == LastOf(s, n)
  {
  }

  // ----- fields of a request or event

  function FindMember(members: seq<Member>, key: string): Option<Json> {
    if members == [] then None
    else if members[0].key == key then Some(members[0].value)
    else FindMember(members[1..], key)
  }

  function GetStringField(j: Json, key: string): string {
    if !j.Obj? then ""
    else
      var v := FindMember(j.members, key);
      if v.Some? && v.value.Str? then v.value.s else ""
  }

  function GetIntField(j: Json, key: string, default: int): int {
    if !j.Obj? then default
    else
      var v := FindMember(j.members, key);
      if v.Some? && v.value.Number? then v.value.n else default
  }

  /** A field is read if the value is an object that has it with the right kind of value. */
  lemma {:induction false} FieldIs(members: seq<Member>, k: nat, default: int)
    requires k < |members| && forall i | 0 <= i < k :: members[i].key != members[k].key
    ensures GetStringField(Obj(members), members[k].key) == match members[k].value { case Str(s) => s case _ => "" }
    ensures GetIntField(Obj(members), members[k].key, default)
            == match members[k].value { case Number(n) => n case _ => default }
  {
    if k > 0 { FieldIs(members[1..], k - 1, default); }
  }

  lemma NoField(j: Json, key: string, default: int)
    requires j.Obj? ==> forall m <- j.members :: m.key != key
    ensures GetStringField(j, key) == "" && GetIntField(j, key, default) == default
  {
    if j.Obj? { NoMember(j.members, key); }
  }

  lemma {:induction false} NoMember(members: seq<Member>, key: string)
    requires forall m <- members :: m.key != key
    ensures FindMember(members, key) == None
  {
    if members != [] { NoMember(members[1..], key); }
  }

  const PREVIEW_LIMIT := 1600

  function Cut(s: string): string {
    if |s| > PREVIEW_LIMIT then s[..PREVIEW_LIMIT] + "..." else s
  }

  /** The redacted payload, printed and cut. */
  function Preview(dump: Json -> string, payload: Json): string {
    Cut(dump(RedactJson(payload)))
  }

  /** Printed from a value whose secrets are all masked. */
  ghost predicate IsPreview(dump: Json -> string, s: string) {
    exists j :: AllMasked(j) && s == Cut(dump(j))
  }

  lemma PreviewIsMasked(dump: Json -> string, payload: Json)
    ensures IsPreview(dump, Preview(dump, payload))
  {
    hide AllMasked, RedactJson;
    RedactMasks(payload);
    assert AllMasked(RedactJson(payload)) && Preview(dump, payload) == Cut(dump(RedactJson(payload)));
  }

  /** A preview is the printed redaction, or its first 1600 characters and an ellipsis. */
  lemma PreviewIs(dump: Json -> string, payload: Json)
    ensures var full, shown := dump(RedactJson(payload)), Preview(dump, payload);
            if |full| <= 1600 then shown == full
            else |shown| == 1603 && shown[..1600] == full[..1600] && shown[1600..] == "..."
  {
    hide RedactJson;
  }

  /** However values are printed, previews do not tell apart payloads that differ only in what
      masks hide. */
  lemma PreviewHidesSecrets(dump: Json -> string, a: Json, b: Json)
    requires Alike(a, b)
    ensures Preview(dump, a) == Preview(dump, b)
  {
    RedactTells(a, b);
  }

  class RuntimeRecordService {
    const dump: Json -> string
    const capacity: nat
    var entries: seq<Entry>
    var nextId: nat
    ghost var history: seq<Entry>   // every entry ever pushed

    ghost predicate Valid()
      reads this
    {
      && capacity > 0
      && nextId == |history| + 1
      && (forall k | 0 <= k < |history| :: history[k].id == k + 1)
      && (forall k | 0 <= k < |history| :: IsPreview(dump, history[k].preview))
      && entries == LastOf(history, capacity)
    }

    constructor (capacity: nat, dump: Json -> string)
      ensures Valid() && history == [] && this.dump == dump
      ensures this.capacity == if capacity == 0 then DEFAULT_CAPACITY else capacity
    {
      this.dump := dump;
      this.capacity := if capacity == 0 then DEFAULT_CAPACITY else capacity;
      entries, nextId, history := [], 1, [];
    }

    /** Gives the entry the next id and drops the oldest ones that do not fit. */
    method PushLocked(source: Entry)
      requires Valid() && IsPreview(dump, source.preview)
      modifies this
      ensures Valid() && history == old(history) + [source.(id := old(nextId))] && nextId == old(nextId) + 1
    {
      hide IsPreview, LastOf;
      var entry := source.(id := nextId);
      nextId := nextId + 1;
      LastPush(history, entry, capacity);
      entries := entries + [entry];
      history := history + [entry];
      while |entries| > capacity
        invariant history == old(history) + [entry] && nextId == old(nextId) + 1
        invariant entries == LastOf(history, |entries|) && (|entries| == |history| || |entries| >= capacity)
      {
        LastDrop(history, |entries|);
        entries := entries[1..];
      }
      LastAll(history, |entries|, capacity);
    }

    method RecordCommandRequest(connection: string, request: Json, response: Json, durationMs: nat, now: int)
      requires Valid()
      modifies this
      ensures Valid() && |history| == old(|history|) + 1 && history[..old(|history|)] == old(history)
      ensures var e := history[old(|history|)];
              && e.kind == "request" && e.source == "command_ws" && e.connection == connection && e.ts == now
                   && e.durationMs == durationMs
              && e.command == GetStringField(request, "method") && e.message == GetStringField(response, "message")
              && e.requestId in {GetStringField(request, "request_id"), GetStringField(request, "id")}
              && (e.requestId == GetStringField(request, "request_id") || GetStringField(request, "request_id") == "")
              && (e.requestId == "" ==> GetStringField(request, "id") == "")
              && e.code == GetIntField(response, "code", 0) && (e.status == "success" <==> e.code == OK)
              && e.preview == Preview(dump, Obj([Member("request", request), Member("response", response)]))
    {
      var requestId := GetStringField(request, "request_id");
      if requestId == "" {
        requestId := GetStringField(request, "id");
      }
      var code := GetIntField(response, "code", 0);
      var payload := Obj([Member("request", request), Member("response", response)]);
      PreviewIsMasked(dump, payload);
      PushLocked(Entry(0, now, "request", "command_ws", connection, GetStringField(request, "method"), requestId,
                       if code == OK then "success" else "error", code, GetStringField(response, "message"), durationMs,
                       Preview(dump, payload)));
    }

    method RecordRuntimeEvent(source: string, connection: string, name: string, message: string, code: int,
                              payload: Json, now: int)
      requires Valid()
      modifies this
      ensures Valid() && |history| == old(|history|) + 1 && history[..old(|history|)] == old(history)
      ensures var e := history[old(|history|)];
              && (e.kind == "event" <==> code == OK) && (e.kind == "error" <==> code != OK)
                   && (e.status == "success" <==> code == OK)
              && e.code == code && e.source == source && e.connection == connection && e.command == name
                   && e.message == message
              && e.ts == now && e.requestId == GetStringField(payload, "request_id")
                   && e.preview == Preview(dump, payload)
    {
      PreviewIsMasked(dump, payload);
      PushLocked(Entry(0, now, if code == OK then "event"
          else "error", source, connection, name, GetStringField(payload, "request_id"),
                       if code == OK then "success" else "error", code, message, 0, Preview(dump, payload)));
    }

    /** The newest-first, filtered, cut-off view of the last `capacity` pushes of the history; no
        record shows a secret. */
    method BuildRecordsJson(filter: string, limit: nat) returns (records: seq<Entry>, retained: nat)
      requires Valid()
      ensures records == View(history, capacity, filter, limit)
      ensures forall e <- records :: IsPreview(dump, e.preview)
      ensures retained == if |history| <= capacity then |history| else capacity
    {
      hide IsPreview, NewestFirst, Chosen, FirstOf, Passes;
      var most := limit;
      if most == 0 { most := DEFAULT_LIMIT; }
      if most > MAX_LIMIT { most := MAX_LIMIT; }
      records := [];
      var k := |entries|;
      NothingChosen(entries, filter);
      while k > 0 && |records| < most
        invariant 0 <= k <= |entries| && |records| <= most
        invariant records == Chosen(NewestFirst(entries[k..]), filter)
      {
        k := k - 1;
        OneOlder(entries, k, filter);
        if Passes(entries[k], filter) {
          records := records + [entries[k]];
        }
      }
      StopsInTime(entries, k, filter, most);
      ViewIsMasked(dump, entries, filter, most);
      retained := |entries|;
    }
  }

  lemma NothingChosen(s: seq<Entry>, filter: string)
    ensures Chosen(NewestFirst(s[|s|..]), filter) == []
  {
  }

  lemma {:induction false} NewestFirstAppend<T>(a: seq<T>, b: seq<T>)
    ensures NewestFirst(a + b) == NewestFirst(b) + NewestFirst(a)
  {
    if b == [] {
      assert a + b == a;
    } else {
      assert (a + b)[..|a + b| - 1] == a + b[..|b| - 1];
      NewestFirstAppend(a, b[..|b| - 1]);
    }
  }

  lemma OneOlder(s: seq<Entry>, k: nat, filter: string)
    requires k < |s|
    ensures Chosen(NewestFirst(s[k..]), filter)
            == Chosen(NewestFirst(s[k + 1..]), filter) + (if Passes(s[k], filter) then [s[k]] else [])
  {
    hide Passes;
    assert s[k..] == [s[k]] + s[k + 1..];
    NewestFirstAppend([s[k]], s[k + 1..]);
    assert NewestFirst([s[k]]) == [s[k]];
    ChosenAppend(NewestFirst(s[k + 1..]), [s[k]], filter);
  }

  /** Where the loop stops, the rest of the ring is not needed. */
  lemma StopsInTime(s: seq<Entry>, k: nat, filter: string, most: nat)
    requires k <= |s| && var c := Chosen(NewestFirst(s[k..]), filter); |c| <= most && (k == 0 || |c| == most)
    ensures Chosen(NewestFirst(s[k..]), filter) == FirstOf(Chosen(NewestFirst(s), filter), most)
  {
    hide NewestFirst, Chosen;
    assert s == s[..k] + s[k..];
    NewestFirstAppend(s[..k], s[k..]);
    ChosenAppend(NewestFirst(s[k..]), NewestFirst(s[..k]), filter);
    if k == 0 { assert s[0..] == s; }
  }

  lemma ViewIsMasked(dump: Json -> string, s: seq<Entry>, filter: string, most: nat)
    requires forall k | 0 <= k < |s| :: IsPreview(dump, s[k].preview)
    ensures forall e <- FirstOf(Chosen(NewestFirst(s), filter), most) :: IsPreview(dump, e.preview)
  {
    hide IsPreview, Chosen;
    NewestFirstIsReverse(s);
    ChosenAreThere(NewestFirst(s), filter);
    forall e | e in Chosen(NewestFirst(s), filter) ensures IsPreview(dump, e.preview) {
      var k :| 0 <= k < |s| && NewestFirst(s)[k] == e;
    }
  }

  predicate Falling(s: seq<Entry>) {
    forall j, k | 0 <= j < k < |s| :: s[j].id > s[k].id
  }

  predicate CountsDown(s: seq<Entry>, top: nat) {
    forall k | 0 <= k < |s| :: s[k].id == top - k
  }

  /** Records come with strictly falling ids, and without a filter the ids have no gap. */
  lemma IdsFall(history: seq<Entry>, capacity: nat, filter: string, limit: nat)
    requires forall k | 0 <= k < |history| :: history[k].id == k + 1
    ensures Falling(View(history, capacity, filter, limit))
    ensures filter == "" ==> CountsDown(View(history, capacity, filter, limit), |history|)
    ensures |View(history, capacity, filter, limit)| <= LimitOf(limit) <= MAX_LIMIT
  {
    hide Chosen, LastOf;
    var s: seq<Entry> := NewestFirst(LastOf(history, capacity));
    Backwards(history, capacity);
    ChosenFalls(s, filter);
    if filter == "" { ChosenAll(s); }
  }

  lemma Backwards(history: seq<Entry>, capacity: nat)
    requires forall k | 0 <= k < |history| :: history[k].id == k + 1
    ensures CountsDown(NewestFirst(LastOf(history, capacity)), |history|)
  {
    var l := LastOf(history, capacity);
    assert forall k | 0 <= k < |l| :: l[k] == history[|history| - |l| + k];
    NewestFirstIsReverse(l);
  }

  lemma {:induction false} ChosenAreThere(s: seq<Entry>, filter: string)
    ensures forall e <- Chosen(s, filter) :: e in s && Passes(e, filter)
  {
    hide Passes;
    if s != [] {
      ChosenAreThere(s[1..], filter);
    }
  }

  lemma {:induction false} ChosenFalls(s: seq<Entry>, filter: string)
    requires Falling(s)
    ensures Falling(Chosen(s, filter))
  {
    hide Passes;
    if s != [] {
      ChosenFalls(s[1..], filter);
      ChosenAreThere(s[1..], filter);
      var c := Chosen(s[1..], filter);
      forall k | 0 <= k < |c| ensures c[k].id < s[0].id {
        assert c[k] in s[1..];
      }
    }
  }

  lemma {:induction false} ChosenAll(s: seq<Entry>)
    ensures Chosen(s, "") == s
  {
    if s != [] { ChosenAll(s[1..]); }
  }

  /** An entry that is still in the ring and passes the filter is left out only by the limit. */
  lemma {:induction false} ChosenHasAll(s: seq<Entry>, filter: string, e: Entry)
    requires e in s && Passes(e, filter)
    ensures e in Chosen(s, filter)
  {
    if s[0] != e { ChosenHasAll(s[1..], filter, e); }
  }

  /** The entry is still in the ring and of the kind asked for. */
  predicate Eligible(history: seq<Entry>, capacity: nat, filter: string, k: nat) {
    k < |history| && |history| <= k + capacity && (filter != "" ==> history[k].kind == filter)
  }

  /** What a query returns: only retained entries of the kind asked for, and of these it leaves out
      only ones that are older than all it returns, when it returns as many as asked for: 100 if
      nothing was said, and never more than 500. */
  lemma NewestOfKind(history: seq<Entry>, capacity: nat, filter: string, limit: nat)
    requires forall k | 0 <= k < |history| :: history[k].id == k + 1
    ensures forall e <- View(history, capacity, filter, limit) ::
              exists k :: 0 <= k < |history| && Eligible(history, capacity, filter, k) && e == history[k]
    ensures forall k | 0 <= k < |history| && Eligible(history, capacity, filter, k) ::
              history[k] !in View(history, capacity, filter, limit) ==>
                && |View(history, capacity, filter, limit)|
                   == (if limit == 0 then 100 else if limit > 500 then 500 else limit)
                && forall e <- View(history, capacity, filter, limit) :: e.id > history[k].id
  {
    hide Chosen, View, Eligible, FirstOf;
    var chosen: seq<Entry> := Chosen(NewestFirst(LastOf(history, capacity)), filter);
    ViewIsFirst(history, capacity, filter, limit);
    forall e | e in View(history, capacity, filter, limit)
      ensures exists k :: 0 <= k < |history| && Eligible(history, capacity, filter, k) && e == history[k]
    {
      FirstAreThere(chosen, LimitOf(limit), e);
      var k := ChosenIsEligible(history, capacity, filter, e);
    }
    forall k | 0 <= k < |history| && Eligible(history, capacity, filter, k)
      ensures history[k] in chosen
    {
      EligibleIsChosen(history, capacity, filter, k);
    }
    Backwards(history, capacity);
    ChosenFalls(NewestFirst(LastOf(history, capacity)), filter);
    RestIsOlder(chosen, LimitOf(limit));
  }

  lemma FirstAreThere(s: seq<Entry>, n: nat, e: Entry)
    requires e in FirstOf(s, n)
    ensures e in s
  {
  }

  lemma RestIsOlder(s: seq<Entry>, n: nat)
    requires Falling(s)
    ensures forall x <- s | x !in FirstOf(s, n) :: |FirstOf(s, n)| == n && forall e <- FirstOf(s, n) :: e.id > x.id
  {
  }

  lemma ChosenIsEligible(history: seq<Entry>, capacity: nat, filter: string, e: Entry) returns (k: nat)
    requires forall k | 0 <= k < |history| :: history[k].id == k + 1
    requires e in Chosen(NewestFirst(LastOf(history, capacity)), filter)
    ensures k < |history| && Eligible(history, capacity, filter, k) && e == history[k]
  {
    hide Chosen, NewestFirst;
    var last := LastOf(history, capacity);
    var s: seq<Entry> := NewestFirst(last);
    NewestFirstIsReverse(last);
    ChosenAreThere(s, filter);
    var j :| 0 <= j < |s| && s[j] == e;
    k := |history| - 1 - j;
  }

  lemma EligibleIsChosen(history: seq<Entry>, capacity: nat, filter: string, k: nat)
    requires Eligible(history, capacity, filter, k)
    ensures history[k] in Chosen(NewestFirst(LastOf(history, capacity)), filter)
  {
    hide Chosen, NewestFirst;
    var s: seq<Entry> := NewestFirst(LastOf(history, capacity));
    NewestFirstIsReverse(LastOf(history, capacity));
    assert s[|history| - 1 - k] == history[k];
    ChosenHasAll(s, filter, history[k]);
  }

  lemma ViewIsFirst(history: seq<Entry>, capacity: nat, filter: string, limit: nat)
    ensures View(history, capacity, filter, limit)
            == FirstOf(Chosen(NewestFirst(LastOf(history, capacity)), filter), LimitOf(limit))
  {
  }
}
