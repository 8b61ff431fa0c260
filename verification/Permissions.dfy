/** Authorization (server/domain/permissions.ts): pure rules over a principal, default-deny. */
module Permissions {
  import opened Wrappers
  import opened Numerals
  import Text
  import opened DomainEvents

  datatype Role = Admin | Editor | Viewer

  datatype Access = AllWorkspaces | Only(names: seq<string>)

  datatype Principal = Principal(
    id: string, name: Option<string>, role: Role, workspaces: Access, departments: seq<string>)

  /** Admins and holders of an explicit all-workspaces grant. */
  predicate Unrestricted(p: Principal) {
    p.role.Admin? || p.workspaces.AllWorkspaces?
  }

  /** The workspaces a principal is restricted to; None means unrestricted. */
  function WorkspaceRestriction(p: Principal): Option<seq<string>> {
    if Unrestricted(p) then None else Some(p.workspaces.names)
  }

  /** Is a slug the slug of one of these names? */
  predicate SomeSlug(fold: Folding, names: seq<string>, slug: string) {
    exists i :: 0 <= i < |names| && Slugify(fold, names[i]) == slug
  }

  predicate InWorkspaces(fold: Folding, p: Principal, ws: Option<string>) {
    var allowed := WorkspaceRestriction(p);
    allowed.None? || (ws.Some? && SomeSlug(fold, allowed.value, Slugify(fold, ws.value)))
  }

  predicate CanWriteRole(p: Principal) {
    p.role.Admin? || p.role.Editor?
  }

  predicate CanView(fold: Folding, p: Principal, ws: Option<string>) {
    p.role.Admin? || InWorkspaces(fold, p, ws)
  }

  predicate CanEdit(fold: Folding, p: Principal, ws: Option<string>) {
    CanWriteRole(p) && CanView(fold, p, ws)
  }

  // ---- channel subscriptions -------------------------------------------------------------------------------------------

  /** The part of a scope key before its first colon; without a colon, everything but the last character. */
  function ScopeKind(scope: string): string {
    var i := Text.IndexOf(scope, ':');
    if i.Some? && i.value <= |scope| then scope[..i.value] else if |scope| > 0 then scope[..|scope| - 1] else ""
  }

  function ScopeId(scope: string): string {
    var i := Text.IndexOf(scope, ':');
    if i.Some? && i.value < |scope| then scope[i.value + 1..] else scope
  }

  predicate IsNumber(s: string) {
    s != "" && AllDigits(s)
  }

  predicate AggId(id: string) {
    || ("booking." <= id && IsNumber(id[|"booking."|..]))
    || ("checklist." <= id && IsNumber(id[|"checklist."|..]))
  }

  /** The rule for `workspace:` and `collection:` channels. */
  predicate CanSubscribeWorkspace(fold: Folding, p: Principal, kind: string, id: string) {
    var allowed := WorkspaceRestriction(p);
    if kind == "collection" && id == "booking.all" then true
    else if kind == "collection" && "checklist." <= id then
      var key := id[|"checklist."|..];
      allowed.None? || (key != "all" && SomeSlug(fold, allowed.value, key))
    else if kind == "collection" && id == "all" then allowed.None?
    else allowed.None? || SomeSlug(fold, allowed.value, id)
  }

  /** Upper-casing of department codes is a parameter, like the folding of workspace names. */
  predicate CanSubscribe(fold: Folding, upper: Folding, p: Principal, scope: string) {
    var kind, id := ScopeKind(scope), ScopeId(scope);
    if kind == "user" || kind == "notifications" then id == p.id || p.role.Admin?
    else if kind == "agg" then AggId(id)
    else if kind == "collection" || kind == "workspace" then CanSubscribeWorkspace(fold, p, kind, id)
    else if kind == "department" then
      p.role.Admin? || exists i :: 0 <= i < |p.departments| && upper(p.departments[i]) == upper(id)
    else kind == "project"
  }

  /** What the gateway asks before it opens a channel: a well-formed name, and the right to subscribe to it. */
  predicate MayOpen(fold: Folding, upper: Folding, p: Principal, scope: string) {
    IsValidScope(scope) && CanSubscribe(fold, upper, p, scope)
  }

  lemma ScopeParts(kind: string, id: string)
    requires ':' !in kind
    ensures ScopeKind(kind + ":" + id) == kind && ScopeId(kind + ":" + id) == id
  {
    Text.FirstColon(kind, id);
    assert (kind + ":" + id)[|kind| + 1..] == id;
  }

  /** A slug is never one of the reserved collection names of the other domains: it has no dot. */
  lemma SlugsAreNotReserved(fold: Folding, name: string)
    ensures var s := Slugify(fold, name); s != "booking.all" && !("checklist." <= s)
  {
    SlugifySlugs(fold, name);
    var s := Slugify(fold, name);
    assert "booking.all"[7] == '.' && "checklist."[9] == '.';
    assert forall i :: 0 <= i < |s| ==> s[i] != '.';
  }

  /** Subscribing to a workspace's own channel is allowed exactly to those who may see the workspace. */
  lemma WorkspaceChannelMeansVisibility(fold: Folding, upper: Folding, p: Principal, name: string)
    ensures CanSubscribe(fold, upper, p, WorkspaceScope(fold, name)) <==> CanView(fold, p, Some(name))
  {
    ScopeParts("workspace", Slugify(fold, name));
    assert "workspace" + ":" == "workspace:";
    SlugsAreNotReserved(fold, name);
  }

  /** For a collection channel the same holds exactly when its name is not taken by the feed of all workspaces. */
  lemma CollectionChannelMeansVisibility(fold: Folding, upper: Folding, p: Principal, name: string)
    ensures name != "all" && Slugify(fold, name) != "all" ==>
              (CanSubscribe(fold, upper, p, CollectionScope(fold, name)) <==> CanView(fold, p, Some(name)))
    ensures name == "all" || Slugify(fold, name) == "all" ==>
              (CanSubscribe(fold, upper, p, CollectionScope(fold, name)) <==> Unrestricted(p))
  {
    ScopeParts("collection", Slugify(fold, name));
    ScopeParts("collection", "all");
    assert "collection" + ":" == "collection:" && "collection" + ":" + "all" == "collection:all";
    SlugsAreNotReserved(fold, name);
  }

  lemma ValidByParts(kind: string, id: string)
    requires ':' !in kind && kind in CHANNEL_KINDS
    ensures IsValidScope(kind + ":" + id) <==> IsValidId(id)
  {
    Text.FirstColon(kind, id);
    var s := kind + ":" + id;
    assert s[..|kind|] == kind && s[|kind| + 1..] == id;
  }

  /** The channel of a slug is well formed exactly when the slug has 1 to 64 characters. */
  lemma SlugChannelIsValid(fold: Folding, name: string)
    ensures IsValidScope("collection:" + Slugify(fold, name)) <==> 1 <= |Slugify(fold, name)| <= 64
  {
    SlugifySlugs(fold, name);
    ValidByParts("collection", Slugify(fold, name));
    assert "collection" + ":" == "collection:";
  }

  lemma AllChannelIsValid(all: string)
    requires all == "collection:all"
    ensures IsValidScope(all)
  {
    var kind, id := "collection", "all";
    assert kind + ":" + id == all;
    ValidByParts(kind, id);
  }
}
