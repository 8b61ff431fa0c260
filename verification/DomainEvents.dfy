/**
 * The event contract shared by server and browser (shared/domain-events.ts): workspace slugs, the channels an event travels
 * on, gap detection and bounded de-duplication.
 */
module DomainEvents {
  import opened Wrappers
  import opened Sequences
  import Text

  datatype AggregateType = Project | Presence | Notification | Checklist | Booking

  datatype EventType =
    | ProjectCreated | ProjectUpdated | ProjectDeleted | ProjectRemoved | PresenceChanged | NotificationCreated
    | ChecklistCreated | ChecklistUpdated | ChecklistSubmitted | BookingUpdated

  datatype FieldChange = FieldChange(from: Option<string>, to: Option<string>)

  datatype Context = Context(workspace: Option<string>, workspaceBefore: Option<string>, recipient: Option<string>)

  datatype DomainEvent = DomainEvent(
    schemaVersion: nat, eventId: string, feedSeq: Option<nat>, eventType: EventType, aggregateType: AggregateType,
    aggregateId: string, aggregateVersion: int, actorId: string, actorName: Option<string>, timestamp: string,
    traceId: string, changes: map<string, FieldChange>, context: Option<Context>)
  {
    function Workspace(): Option<string> {
      if context.Some? then context.value.workspace else None
    }
    function WorkspaceBefore(): Option<string> {
      if context.Some? then context.value.workspaceBefore else None
    }
    function Recipient(): Option<string> {
      if context.Some? then context.value.recipient else None
    }
  }

  // ---- slugs -----------------------------------------------------------------------------------------------------------

  predicate Alnum(c: char) {
    'a' <= c <= 'z' || '0' <= c <= '9'
  }

  /**
   * Unicode decomposition, mark removal and lower-casing are a parameter of the model.  All that is asked of it is that it
   * leaves text already in slug form alone.
   */
  type Folding = string -> string

  ghost predicate LeavesSlugsAlone(fold: Folding) {
    forall s :: Slugged(s) ==> fold(s) == s
  }

  /** Slug form: letters, digits and single dashes, no dash at either end. */
  predicate Slugged(s: string) {
    Tidy(s) && (|s| > 0 ==> s[0] != '-' && s[|s| - 1] != '-')
  }

  predicate Tidy(s: string) {
    && (forall i :: 0 <= i < |s| ==> Alnum(s[i]) || s[i] == '-')
    && (forall i :: 0 < i < |s| ==> s[i - 1] != '-' || s[i] != '-')
  }

  function SkipOther(s: string): (r: string)
    ensures |r| <= |s| && (|r| > 0 ==> Alnum(r[0]))
    ensures |s| > 0 && !Alnum(s[0]) ==> |r| < |s|
  {
    if |s| == 0 || Alnum(s[0]) then s else SkipOther(s[1..])
  }

  /** Every run of other characters becomes one dash. */
  function Collapse(s: string): (r: string)
    ensures |s| > 0 && Alnum(s[0]) ==> |r| > 0 && r[0] == s[0]
    ensures Tidy(r)
    decreases |s|
  {
    if |s| == 0 then ""
    else if Alnum(s[0]) then [s[0]] + Collapse(s[1..])
    else "-" + Collapse(SkipOther(s))
  }

  function DropFront(s: string): string {
    if |s| > 0 && s[0] == '-' then DropFront(s[1..]) else s
  }

  function DropBack(s: string): string {
    if |s| > 0 && s[|s| - 1] == '-' then DropBack(s[..|s| - 1]) else s
  }

  function Slugify(fold: Folding, value: string): string {
    DropBack(DropFront(Collapse(fold(value))))
  }

  lemma {:induction false} DropFrontTidy(s: string)
    requires Tidy(s)
    ensures Tidy(DropFront(s)) && (|DropFront(s)| > 0 ==> DropFront(s)[0] != '-')
  {
    if |s| > 0 && s[0] == '-' { DropFrontTidy(s[1..]); }
  }

  lemma {:induction false} DropBackSlugged(s: string)
    requires Tidy(s) && (|s| > 0 ==> s[0] != '-')
    ensures Slugged(DropBack(s))
  {
    if |s| > 0 && s[|s| - 1] == '-' { DropBackSlugged(s[..|s| - 1]); }
  }

  lemma {:induction false} CollapseTidy(s: string)
    requires Tidy(s)
    ensures Collapse(s) == s
    decreases |s|
  {
    if |s| > 0 {
      CollapseTidy(s[1..]);
      assert s == [s[0]] + s[1..];
      assert !Alnum(s[0]) ==> SkipOther(s) == SkipOther(s[1..]) == s[1..];
    }
  }

  /** Slugs are in slug form, whatever the folding does, and slugifying a slug changes nothing. */
  lemma SlugifyIsIdempotent(fold: Folding, value: string)
    requires LeavesSlugsAlone(fold)
    ensures Slugged(Slugify(fold, value))
    ensures Slugify(fold, Slugify(fold, value)) == Slugify(fold, value)
  {
    SlugifySlugs(fold, value);
    var s := Slugify(fold, value);
    assert fold(s) == s;
    CollapseTidy(s);
  }

  lemma SlugifySlugs(fold: Folding, value: string)
    ensures Slugged(Slugify(fold, value))
  {
    DropFrontTidy(Collapse(fold(value)));
    DropBackSlugged(DropFront(Collapse(fold(value))));
  }

  // ---- channels --------------------------------------------------------------------------------------------------------

  predicate ScopeChar(c: char) {
    'A' <= c <= 'Z' || 'a' <= c <= 'z' || '0' <= c <= '9' || c == '_' || c == '.' || c == '-'
  }

  /** What may follow the first colon of a channel name: up to 64 characters without white space or another colon. */
  predicate IsValidId(id: string) {
    1 <= |id| <= 64 && forall i :: 0 <= i < |id| ==> ScopeChar(id[i])
  }

  const CHANNEL_KINDS: set<string> := {
    "workspace", "collection", "agg", "department", "project", "user", "notifications"}

  /** A channel name a client may send. */
  predicate IsValidScope(s: string) {
    var colon := Text.IndexOf(s, ':');
    && colon.Some? && colon.value < |s|
    && s[..colon.value] in CHANNEL_KINDS
    && IsValidId(s[colon.value + 1..])
  }

  function WorkspaceScope(fold: Folding, name: string): string {
    "workspace:" + Slugify(fold, name)
  }

  /** The membership feed of one workspace, or of all of them. */
  function CollectionScope(fold: Folding, workspaceOrAll: string): string {
    if workspaceOrAll == "all" then "collection:all" else "collection:" + Slugify(fold, workspaceOrAll)
  }

  function AggPrefix(t: AggregateType): string {
    if t.Booking? then "booking" else "checklist"
  }

  function AggCollectionScope(fold: Folding, t: AggregateType, key: string): string {
    "collection:" + AggPrefix(t) + "." + (if key == "all" then "all" else Slugify(fold, key))
  }

  /** A change of membership: the project is created, deleted or taken out of a list, or moves to another workspace. */
  predicate IsMembershipEvent(e: DomainEvent) {
    e.aggregateType.Project? &&
    (e.eventType.ProjectCreated? || e.eventType.ProjectDeleted? || e.eventType.ProjectRemoved? ||
     (e.eventType.ProjectUpdated? && "bahnhofsmanagement" in e.changes))
  }

  /** A workspace named by an event, unless it is absent or empty. */
  predicate Named(ws: Option<string>) {
    ws.Some? && ws.value != ""
  }

  function WorkspaceScopes(fold: Folding, e: DomainEvent): set<string> {
    (if Named(e.Workspace()) then {WorkspaceScope(fold, e.Workspace().value)} else {}) +
    (if Named(e.WorkspaceBefore()) then {WorkspaceScope(fold, e.WorkspaceBefore().value)} else {})
  }

  function CollectionScopes(fold: Folding, e: DomainEvent): set<string> {
    if !IsMembershipEvent(e) then {}
    else
      {"collection:all"} +
      (if Named(e.Workspace()) then {CollectionScope(fold, e.Workspace().value)} else {}) +
      (if Named(e.WorkspaceBefore()) then {CollectionScope(fold, e.WorkspaceBefore().value)} else {})
  }

  /** Where a project event goes: its own channel, its workspaces, and for a change of membership their collections. */
  function ProjectScopes(fold: Folding, e: DomainEvent): set<string> {
    {"project:" + e.aggregateId} + WorkspaceScopes(fold, e) + CollectionScopes(fold, e)
  }

  function ScopeSet(fold: Folding, e: DomainEvent): set<string> {
    match e.aggregateType
    case Presence => if IsValidScope(e.aggregateId) then {e.aggregateId} else {}
    case Notification => if Named(e.Recipient()) then {"notifications:" + e.Recipient().value} else {}
    case Project => ProjectScopes(fold, e)
    case _ =>
      {"agg:" + AggPrefix(e.aggregateType) + "." + e.aggregateId, AggCollectionScope(fold, e.aggregateType, "all")} +
      (if e.aggregateType.Checklist? && Named(e.Workspace())
       then {AggCollectionScope(fold, e.aggregateType, e.Workspace().value)} else {})
  }

  /** An insertion-ordered set, as the source's `Set` lists it. */
  function Add(out: seq<string>, scope: string): seq<string> {
    if scope in out then out else out + [scope]
  }

  ghost predicate Lists(out: seq<string>, scopes: set<string>) {
    (forall s :: s in out <==> s in scopes) && Distinct(out)
  }

  lemma AddLists(out: seq<string>, scopes: set<string>, scope: string)
    requires Lists(out, scopes)
    ensures Lists(Add(out, scope), scopes + {scope})
  {
  }

  method ScopesForEvent(fold: Folding, e: DomainEvent) returns (out: seq<string>)
    ensures Lists(out, ScopeSet(fold, e))
  {
    if e.aggregateType.Presence? {
      return if IsValidScope(e.aggregateId) then [e.aggregateId] else [];
    }
    if e.aggregateType.Notification? {
      return if Named(e.Recipient()) then ["notifications:" + e.Recipient().value] else [];
    }
    if e.aggregateType.Booking? || e.aggregateType.Checklist? {
      var t := e.aggregateType;
      out := ["agg:" + AggPrefix(t) + "." + e.aggregateId];
      ghost var scopes := {out[0]};
      out, scopes := AddTo(out, scopes, AggCollectionScope(fold, t, "all"));
      if t.Checklist? && Named(e.Workspace()) {
        out, scopes := AddTo(out, scopes, AggCollectionScope(fold, t, e.Workspace().value));
      }
      assert scopes == ScopeSet(fold, e);
      return;
    }
    out := ProjectScopeList(fold, e);
  }

  /** `out.add(scope)`, with the set the list stands for kept beside it. */
  method AddTo(out: seq<string>, ghost scopes: set<string>, scope: string)
    returns (out': seq<string>, ghost scopes': set<string>)
    requires Lists(out, scopes)
    ensures Lists(out', scopes') && scopes' == scopes + {scope} && out <= out'
  {
    AddLists(out, scopes, scope);
    out', scopes' := Add(out, scope), scopes + {scope};
  }

  method ProjectScopeList(fold: Folding, e: DomainEvent) returns (out: seq<string>)
    ensures Lists(out, ProjectScopes(fold, e))
  {
    out := ["project:" + e.aggregateId];
    ghost var scopes := {out[0]};
    out, scopes := AddWorkspaceScopes(fold, e, out, scopes);
    if IsMembershipEvent(e) { out, scopes := AddCollectionScopes(fold, e, out, scopes); }
    assert scopes == ProjectScopes(fold, e);
  }

  method AddWorkspaceScopes(fold: Folding, e: DomainEvent, out: seq<string>, ghost scopes: set<string>)
    returns (out': seq<string>, ghost scopes': set<string>)
    requires Lists(out, scopes)
    ensures Lists(out', scopes') && scopes' == scopes + WorkspaceScopes(fold, e)
  {
    out', scopes' := out, scopes;
    if Named(e.Workspace()) { out', scopes' := AddTo(out', scopes', WorkspaceScope(fold, e.Workspace().value)); }
    if Named(e.WorkspaceBefore()) {
      out', scopes' := AddTo(out', scopes', WorkspaceScope(fold, e.WorkspaceBefore().value));
    }
  }

  method AddCollectionScopes(fold: Folding, e: DomainEvent, out: seq<string>, ghost scopes: set<string>)
    returns (out': seq<string>, ghost scopes': set<string>)
    requires Lists(out, scopes) && IsMembershipEvent(e)
    ensures Lists(out', scopes') && scopes' == scopes + CollectionScopes(fold, e)
  {
    out', scopes' := AddTo(out, scopes, "collection:all");
    if Named(e.Workspace()) { out', scopes' := AddTo(out', scopes', CollectionScope(fold, e.Workspace().value)); }
    if Named(e.WorkspaceBefore()) {
      out', scopes' := AddTo(out', scopes', CollectionScope(fold, e.WorkspaceBefore().value));
    }
  }

  // ---- gap detection ---------------------------------------------------------------------------------------------------

  datatype Decision = Apply | Stale | Gap(missingFrom: int, missingTo: int) | UnknownAggregate

  /** What a consumer holding `known` must do with an event of this version. */
  function DecideEvent(known: Option<int>, version: int, created: bool): Decision {
    if known.None? then if created && version == 1 then Apply else UnknownAggregate
    else if version <= known.value then Stale
    else if version == known.value + 1 then Apply
    else Gap(known.value + 1, version - 1)
  }

  /** A consumer's copy of an aggregate: the version it holds and the state it has built. */
  datatype Held<S> = Held(version: int, state: S)

  /** A gapless log: event number `k` carries version `base + k + 1` and one delta. */
  datatype Log<!S, !D> = Log(base: nat, initial: S, deltas: seq<D>, apply: (S, D) -> S)

  function StateAfter<S, D>(log: Log<S, D>, n: nat): S
    requires n <= |log.deltas|
  {
    if n == 0 then log.initial else log.apply(StateAfter(log, n - 1), log.deltas[n - 1])
  }

  /** Deliver event number `k` once; only an `apply` decision touches the copy. */
  function Deliver<S, D>(log: Log<S, D>, held: Option<Held<S>>, k: nat): Option<Held<S>>
    requires k < |log.deltas|
  {
    var version := log.base + k + 1;
    var known := if held.Some? then Some(held.value.version) else None;
    if DecideEvent(known, version, version == 1).Apply? then
      Some(Held(version, log.apply(if held.Some? then held.value.state else log.initial, log.deltas[k])))
    else
      held
  }

  function DeliverAll<S, D>(log: Log<S, D>, held: Option<Held<S>>, order: seq<nat>): Option<Held<S>>
    requires forall i :: 0 <= i < |order| ==> order[i] < |log.deltas|
    decreases |order|
  {
    if |order| == 0 then held else DeliverAll(log, Deliver(log, held, order[0]), order[1..])
  }

  /** The copy is exactly the state of a prefix of the log: the prefix its version names. */
  ghost predicate InStep<S, D>(log: Log<S, D>, held: Option<Held<S>>) {
    held.Some? ==>
      log.base <= held.value.version <= log.base + |log.deltas| &&
      held.value.state == StateAfter(log, held.value.version - log.base)
  }

  /** Lossy, duplicated or reordered delivery can delay a consumer but never corrupt it or take it back. */
  lemma {:induction false} AnyDeliveryStaysInStep<S, D>(log: Log<S, D>, held: Option<Held<S>>, order: seq<nat>)
    requires InStep(log, held) && forall i :: 0 <= i < |order| ==> order[i] < |log.deltas|
    ensures InStep(log, DeliverAll(log, held, order))
    ensures held.Some? ==> DeliverAll(log, held, order).Some? &&
                           held.value.version <= DeliverAll(log, held, order).value.version
    decreases |order|
  {
    if |order| > 0 {
      assert held.None? && log.base == 0 ==> StateAfter(log, 0) == log.initial;
      AnyDeliveryStaysInStep(log, Deliver(log, held, order[0]), order[1..]);
    }
  }

  /** The numbers from `first` up to but not including `end`. */
  function Upward(first: nat, end: nat): (up: seq<nat>)
    requires first <= end
    ensures |up| == end - first
    ensures forall i :: 0 <= i < |up| ==> up[i] == first + i
    decreases end - first
  {
    if first == end then [] else [first] + Upward(first + 1, end)
  }

  lemma {:induction false} FillingReaches<S, D>(log: Log<S, D>, held: Held<S>, end: nat)
    requires InStep(log, Some(held)) && held.version - log.base <= end <= |log.deltas|
    ensures DeliverAll(log, Some(held), Upward(held.version - log.base, end)) ==
            Some(Held(log.base + end, StateAfter(log, end)))
    decreases end - (held.version - log.base)
  {
    var first := held.version - log.base;
    if first < end {
      var next := Held(held.version + 1, log.apply(held.state, log.deltas[first]));
      assert Deliver(log, Some(held), first) == Some(next);
      FillingReaches(log, next, end);
    }
  }

  /**
   * A `gap` is reported exactly when versions are missing between the consumer's and the event's; it names the first and
   * the last of them, and fetching those in order before applying the event leaves the log's state at that event.
   */
  lemma GapNamesWhatIsMissing<S, D>(log: Log<S, D>, held: Held<S>, k: nat)
    requires InStep(log, Some(held)) && k < |log.deltas|
    ensures var d := DecideEvent(Some(held.version), log.base + k + 1, log.base + k == 0);
            && (d.Gap? <==> held.version + 1 < log.base + k + 1)
            && (d.Gap? ==>
                  && d.missingFrom == held.version + 1 && d.missingTo == log.base + k
                  && Deliver(log, DeliverAll(log, Some(held), Upward(held.version - log.base, k)), k)
                     == Some(Held(log.base + k + 1, StateAfter(log, k + 1))))
  {
    if held.version + 1 < log.base + k + 1 { FillingReaches(log, held, k); }
  }

  // ---- bounded de-duplication ------------------------------------------------------------------------------------------

  /** The last `n` elements, or all of them. */
  function Last(s: seq<string>, n: int): seq<string> {
    if n <= 0 then [] else if |s| <= n then s else s[|s| - n..]
  }

  /** The ids reported as new, in order, by a run of calls on a fresh object. */
  function ReportedNew(capacity: int, calls: seq<string>): seq<string> {
    if |calls| == 0 then []
    else
      var before := ReportedNew(capacity, calls[..|calls| - 1]);
      var id := calls[|calls| - 1];
      if id in Last(before, capacity) then before else before + [id]
  }

  lemma LastOneMore(s: seq<string>, id: string, n: int)
    requires n > 0
    ensures Last(s + [id], n) == (if |s| < n then Last(s, n) else Last(s, n)[1..]) + [id]
  {
  }

  /** What the object does with a new id: append it, and drop the oldest when there are too many. */
  lemma KeptIds(s: seq<string>, id: string, n: int)
    ensures var more := Last(s, n) + [id];
            Last(s + [id], n) == if |more| > n then more[1..] else more
  {
    if n > 0 { LastOneMore(s, id, n); }
  }

  lemma DistinctOneMore(s: seq<string>, id: string, n: int)
    requires n > 0 && Distinct(Last(s, n)) && id !in Last(s, n)
    ensures Distinct(Last(s + [id], n))
  {
    LastOneMore(s, id, n);
    var kept := if |s| < n then Last(s, n) else Last(s, n)[1..];
    assert forall i :: 0 <= i < |kept| ==> kept[i] in Last(s, n);
    assert Distinct(kept + [id]);
  }

  /** The object never holds an id twice. */
  lemma {:induction false} RememberedIdsAreDistinct(capacity: int, calls: seq<string>)
    ensures Distinct(Last(ReportedNew(capacity, calls), capacity))
  {
    if |calls| > 0 {
      var init, id := calls[..|calls| - 1], calls[|calls| - 1];
      RememberedIdsAreDistinct(capacity, init);
      if id !in Last(ReportedNew(capacity, init), capacity) && capacity > 0 {
        DistinctOneMore(ReportedNew(capacity, init), id, capacity);
      }
    }
  }

  /** The bounded, insertion-ordered set; `calls` is the history it answers for. */
  class SeenEvents {
    const capacity: int
    var ids: seq<string>
    ghost var calls: seq<string>

    ghost predicate Valid()
      reads this
    {
      ids == Last(ReportedNew(capacity, calls), capacity)
    }

    constructor (capacity: int)
      ensures Valid() && this.capacity == capacity && calls == []
    {
      this.capacity := capacity;
      ids := [];
      calls := [];
    }

    /** True exactly when the id is among the last `capacity` ids reported as new. */
    method Seen(id: string) returns (already: bool)
      requires Valid()
      modifies this
      ensures Valid() && calls == old(calls) + [id]
      ensures already <==> id in Last(ReportedNew(capacity, old(calls)), capacity)
    {
      ghost var before := ReportedNew(capacity, calls);
      assert (calls + [id])[..|calls|] == calls;
      calls := calls + [id];
      if id in ids { return true; }
      KeptIds(before, id, capacity);
      ids := ids + [id];
      if |ids| > capacity {
        ids := ids[1..];
      }
      return false;
    }
  }
}
