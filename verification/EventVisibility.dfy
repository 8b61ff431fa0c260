/**
 * Recipient-safe events (server/domain/eventVisibility.ts): what one principal is delivered of one event, that this depends
 * on nothing the principal may not see, and that it agrees with the channels the event is routed to.
 */
module EventVisibility {
  import opened Wrappers
  import opened DomainEvents
  import opened Permissions

  /** Stands in for the workspace a project came from when its name may not be shown. */
  const HIDDEN_WORKSPACE := "*"

  const BOOKING_KEEP := {"status", "datum", "von", "bis"}

  /** The change record with every value before the change blanked out. */
  function WithoutFrom(changes: map<string, FieldChange>): map<string, FieldChange> {
    map f | f in changes :: FieldChange(None, changes[f].to)
  }

  function Kept(changes: map<string, FieldChange>): map<string, FieldChange> {
    map f | f in changes && f in BOOKING_KEEP :: changes[f]
  }

  function When(allowed: bool, e: DomainEvent): Option<DomainEvent> {
    if allowed then Some(e) else None
  }

  function EventForPrincipal(fold: Folding, upper: Folding, p: Principal, e: DomainEvent): Option<DomainEvent> {
    match e.aggregateType
    case Notification =>
      When(e.Recipient() == Some(p.id) && CanView(fold, p, e.Workspace()), e)
    case Presence =>
      if !CanSubscribe(fold, upper, p, e.aggregateId) then None
      else if "project:" <= e.aggregateId then When(CanView(fold, p, e.Workspace()), e)
      else Some(e)
    case Booking =>
      if CanView(fold, p, e.Workspace()) then Some(e)
      else Some(e.(actorName := None, changes := Kept(e.changes), context := Some(Context(None, None, None))))
    case Checklist =>
      if Named(e.Recipient()) then When(e.Recipient().value == p.id || p.role.Admin?, e)
      else When(CanView(fold, p, e.Workspace()), e)
    case Project => ProjectEventFor(fold, p, e)
  }

  function ProjectEventFor(fold: Folding, p: Principal, e: DomainEvent): Option<DomainEvent> {
    var now, before := e.Workspace(), e.WorkspaceBefore();
    if e.eventType.ProjectRemoved? then When(CanView(fold, p, before), e)
    else if e.eventType.ProjectDeleted? then
      When(CanView(fold, p, now) || (before.Some? && CanView(fold, p, before)), e)
    else if before.None? then When(CanView(fold, p, now), e)
    else if CanView(fold, p, now) && CanView(fold, p, before) then Some(e)
    else if CanView(fold, p, now) then
      Some(e.(changes := WithoutFrom(e.changes), context := Some(Context(now, Some(HIDDEN_WORKSPACE), e.Recipient()))))
    else if CanView(fold, p, before) then
      Some(e.(eventType := ProjectRemoved, actorId := "redacted", actorName := None, changes := map[],
              context := Some(Context(None, before, None))))
    else None
  }

  // ---- delivery keeps identity and is idempotent -----------------------------------------------------------------------

  /** Every form of an event that is delivered can be matched to the one that happened. */
  lemma DeliveryKeepsIdentity(fold: Folding, upper: Folding, p: Principal, e: DomainEvent)
    ensures var d := EventForPrincipal(fold, upper, p, e);
            d.Some? ==>
              && d.value.eventId == e.eventId && d.value.feedSeq == e.feedSeq
              && d.value.aggregateType == e.aggregateType && d.value.aggregateId == e.aggregateId
              && d.value.aggregateVersion == e.aggregateVersion && d.value.changes.Keys <= e.changes.Keys
  {
  }

  /** Filtering what has been filtered for the same principal changes nothing. */
  lemma DeliveryIsIdempotent(fold: Folding, upper: Folding, p: Principal, e: DomainEvent)
    ensures var d := EventForPrincipal(fold, upper, p, e);
            d.Some? ==> EventForPrincipal(fold, upper, p, d.value) == d
  {
    assert WithoutFrom(WithoutFrom(e.changes)) == WithoutFrom(e.changes);
    assert Kept(Kept(e.changes)) == Kept(e.changes);
  }

  // ---- nothing hidden shows through ------------------------------------------------------------------------------------

  /** The part of an event every form of it may carry. */
  ghost predicate SameEnvelope(e1: DomainEvent, e2: DomainEvent) {
    && e1.schemaVersion == e2.schemaVersion && e1.eventId == e2.eventId && e1.feedSeq == e2.feedSeq
    && e1.aggregateType == e2.aggregateType && e1.aggregateId == e2.aggregateId
    && e1.aggregateVersion == e2.aggregateVersion && e1.timestamp == e2.timestamp && e1.traceId == e2.traceId
  }

  ghost predicate SameActor(e1: DomainEvent, e2: DomainEvent) {
    e1.actorId == e2.actorId && e1.actorName == e2.actorName && e1.eventType == e2.eventType
  }

  /** A change of a project that is neither a removal notice nor a deletion, out of a workspace it was in before. */
  ghost predicate IsMove(e: DomainEvent) {
    e.aggregateType.Project? && !e.eventType.ProjectRemoved? && !e.eventType.ProjectDeleted? && e.WorkspaceBefore().Some?
  }

  /** Moved out of the principal's sight: values, actor and the new workspace are hidden. */
  ghost predicate AlikeMovedOut(fold: Folding, p: Principal, e1: DomainEvent, e2: DomainEvent) {
    && SameEnvelope(e1, e2) && IsMove(e1) && IsMove(e2) && e1.WorkspaceBefore() == e2.WorkspaceBefore()
    && !CanView(fold, p, e1.Workspace()) && !CanView(fold, p, e2.Workspace())
  }

  /** Moved into the principal's sight: the old workspace and the values before the move are hidden. */
  ghost predicate AlikeMovedIn(fold: Folding, p: Principal, e1: DomainEvent, e2: DomainEvent) {
    && SameEnvelope(e1, e2) && SameActor(e1, e2) && IsMove(e1) && IsMove(e2)
    && e1.Workspace() == e2.Workspace() && e1.Recipient() == e2.Recipient()
    && !CanView(fold, p, e1.WorkspaceBefore()) && !CanView(fold, p, e2.WorkspaceBefore())
    && e1.changes.Keys == e2.changes.Keys && forall f :: f in e1.changes ==> e1.changes[f].to == e2.changes[f].to
  }

  /** A booking elsewhere: only that the slot changed state, and who did it by id, may be seen. */
  ghost predicate AlikeBooking(fold: Folding, p: Principal, e1: DomainEvent, e2: DomainEvent) {
    && SameEnvelope(e1, e2) && e1.aggregateType.Booking? && e1.eventType == e2.eventType && e1.actorId == e2.actorId
    && !CanView(fold, p, e1.Workspace()) && !CanView(fold, p, e2.Workspace())
    && Kept(e1.changes) == Kept(e2.changes)
  }

  /** A project in workspaces the principal cannot see, a foreign draft, or somebody else's notification: all is hidden. */
  ghost predicate OutOfSight(fold: Folding, p: Principal, e: DomainEvent) {
    match e.aggregateType
    case Project => !CanView(fold, p, e.Workspace()) && !CanView(fold, p, e.WorkspaceBefore())
    case Notification => e.Recipient() != Some(p.id) || !CanView(fold, p, e.Workspace())
    case Checklist =>
      if Named(e.Recipient()) then e.Recipient().value != p.id && !p.role.Admin? else !CanView(fold, p, e.Workspace())
    case _ => false
  }

  /** Two events that differ only in what the principal may not see are delivered alike: delivery leaks nothing hidden. */
  lemma DeliveryIsNonInterfering(fold: Folding, upper: Folding, p: Principal, e1: DomainEvent, e2: DomainEvent)
    requires || AlikeMovedOut(fold, p, e1, e2) || AlikeMovedIn(fold, p, e1, e2) || AlikeBooking(fold, p, e1, e2)
             || (OutOfSight(fold, p, e1) && OutOfSight(fold, p, e2))
    ensures EventForPrincipal(fold, upper, p, e1) == EventForPrincipal(fold, upper, p, e2)
  {
    if AlikeMovedIn(fold, p, e1, e2) {
      assert WithoutFrom(e1.changes) == WithoutFrom(e2.changes);
    }
  }

  // ---- routing and visibility agree ------------------------------------------------------------------------------------

  /** A project event as the write path stores it: removal notices are made per recipient and never stored. */
  ghost predicate Stored(e: DomainEvent) {
    e.aggregateType.Project? && !e.eventType.ProjectRemoved?
  }

  /** A workspace that is named and has a membership feed of its own. */
  predicate HasOwnFeed(fold: Folding, ws: Option<string>) {
    Named(ws) && ws.value != "all" && Slugify(fold, ws.value) != "all" && 1 <= |Slugify(fold, ws.value)| <= 64
  }

  predicate Routable(fold: Folding, ws: Option<string>) {
    ws.Some? ==> HasOwnFeed(fold, ws)
  }

  ghost predicate MayOpenCollection(fold: Folding, upper: Folding, p: Principal, e: DomainEvent) {
    exists s :: s in CollectionScopes(fold, e) && MayOpen(fold, upper, p, s)
  }

  lemma AllFeedOpens(fold: Folding, upper: Folding, p: Principal)
    ensures MayOpen(fold, upper, p, "collection:all") <==> Unrestricted(p)
  {
    CollectionChannelMeansVisibility(fold, upper, p, "all");
    AllChannelIsValid("collection:all");
  }

  lemma OwnFeedOpens(fold: Folding, upper: Folding, p: Principal, ws: Option<string>)
    requires Named(ws) && !Unrestricted(p)
    ensures MayOpen(fold, upper, p, CollectionScope(fold, ws.value)) <==> HasOwnFeed(fold, ws) && CanView(fold, p, ws)
  {
    CollectionChannelMeansVisibility(fold, upper, p, ws.value);
    SlugChannelIsValid(fold, ws.value);
  }

  /** Who is owed a change of membership may open a feed it travels on. */
  lemma OwedMembershipIsReachable(fold: Folding, upper: Folding, p: Principal, e: DomainEvent)
    requires Stored(e) && IsMembershipEvent(e)
    requires Routable(fold, e.Workspace()) && Routable(fold, e.WorkspaceBefore())
    requires EventForPrincipal(fold, upper, p, e).Some?
    ensures MayOpenCollection(fold, upper, p, e)
  {
    if Unrestricted(p) {
      AllFeedOpens(fold, upper, p);
      assert "collection:all" in CollectionScopes(fold, e);
    } else {
      var ws := if CanView(fold, p, e.Workspace()) then e.Workspace() else e.WorkspaceBefore();
      OwnFeedOpens(fold, upper, p, ws);
      assert CollectionScope(fold, ws.value) in CollectionScopes(fold, e);
    }
  }

  lemma WorkspaceChannelMeansSight(fold: Folding, upper: Folding, p: Principal, e: DomainEvent, scope: string)
    requires scope in WorkspaceScopes(fold, e) && CanSubscribe(fold, upper, p, scope)
    ensures CanView(fold, p, e.Workspace()) || CanView(fold, p, e.WorkspaceBefore())
  {
    var now, before := e.Workspace(), e.WorkspaceBefore();
    if Named(now) && scope == WorkspaceScope(fold, now.value) {
      WorkspaceChannelMeansVisibility(fold, upper, p, now.value);
    } else {
      WorkspaceChannelMeansVisibility(fold, upper, p, before.value);
    }
  }

  lemma CollectionChannelMeansSight(fold: Folding, upper: Folding, p: Principal, e: DomainEvent, scope: string)
    requires scope in CollectionScopes(fold, e) && CanSubscribe(fold, upper, p, scope)
    ensures Unrestricted(p) || CanView(fold, p, e.Workspace()) || CanView(fold, p, e.WorkspaceBefore())
  {
    var now, before := e.Workspace(), e.WorkspaceBefore();
    if scope == "collection:all" {
      CollectionChannelMeansVisibility(fold, upper, p, "all");
    } else if Named(now) && scope == CollectionScope(fold, now.value) {
      CollectionChannelMeansVisibility(fold, upper, p, now.value);
    } else {
      CollectionChannelMeansVisibility(fold, upper, p, before.value);
    }
  }

  lemma ChannelMeansSight(fold: Folding, upper: Folding, p: Principal, e: DomainEvent, scope: string)
    requires scope in WorkspaceScopes(fold, e) + CollectionScopes(fold, e) && CanSubscribe(fold, upper, p, scope)
    ensures Unrestricted(p) || CanView(fold, p, e.Workspace()) || CanView(fold, p, e.WorkspaceBefore())
  {
    if scope in WorkspaceScopes(fold, e) {
      WorkspaceChannelMeansSight(fold, upper, p, e, scope);
    } else {
      CollectionChannelMeansSight(fold, upper, p, e, scope);
    }
  }

  /** Who may subscribe to a workspace or membership channel of a stored event is delivered some form of it. */
  lemma SubscribersAreServed(fold: Folding, upper: Folding, p: Principal, e: DomainEvent, scope: string)
    requires Stored(e) && scope in WorkspaceScopes(fold, e) + CollectionScopes(fold, e)
    requires CanSubscribe(fold, upper, p, scope)
    ensures EventForPrincipal(fold, upper, p, e).Some?
  {
    ChannelMeansSight(fold, upper, p, e, scope);
  }

  /** The project is, or was before, in a workspace in this principal's sight that has a feed of its own. */
  predicate InSightWithFeed(fold: Folding, p: Principal, e: DomainEvent) {
    (HasOwnFeed(fold, e.Workspace()) && CanView(fold, p, e.Workspace())) ||
    (HasOwnFeed(fold, e.WorkspaceBefore()) && CanView(fold, p, e.WorkspaceBefore()))
  }

  lemma OpenFeedIsInSight(fold: Folding, upper: Folding, p: Principal, e: DomainEvent, scope: string)
    requires !Unrestricted(p) && scope in CollectionScopes(fold, e) && MayOpen(fold, upper, p, scope)
    ensures InSightWithFeed(fold, p, e)
  {
    var now, before := e.Workspace(), e.WorkspaceBefore();
    if scope == "collection:all" {
      AllFeedOpens(fold, upper, p);
    } else if Named(now) && scope == CollectionScope(fold, now.value) {
      OwnFeedOpens(fold, upper, p, now);
    } else {
      OwnFeedOpens(fold, upper, p, before);
    }
  }

  lemma FeedInSightOpens(fold: Folding, upper: Folding, p: Principal, e: DomainEvent, ws: Option<string>)
    requires IsMembershipEvent(e) && !Unrestricted(p) && (ws == e.Workspace() || ws == e.WorkspaceBefore())
    requires HasOwnFeed(fold, ws) && CanView(fold, p, ws)
    ensures MayOpenCollection(fold, upper, p, e)
  {
    OwnFeedOpens(fold, upper, p, ws);
    assert CollectionScope(fold, ws.value) in CollectionScopes(fold, e);
  }

  /**
   * Exactly who may open a feed a change of membership travels on: a restricted principal may if and only if the
   * project is, or was before, in a workspace in their sight that has a feed of its own.
   */
  lemma ReachableExactlyWhenRoutable(fold: Folding, upper: Folding, p: Principal, e: DomainEvent)
    requires Stored(e) && IsMembershipEvent(e) && !Unrestricted(p)
    ensures MayOpenCollection(fold, upper, p, e) <==> InSightWithFeed(fold, p, e)
  {
    if MayOpenCollection(fold, upper, p, e) {
      var scope :| scope in CollectionScopes(fold, e) && MayOpen(fold, upper, p, scope);
      OpenFeedIsInSight(fold, upper, p, e, scope);
    } else if InSightWithFeed(fold, p, e) {
      var now := e.Workspace();
      FeedInSightOpens(fold, upper, p, e,
                       if HasOwnFeed(fold, now) && CanView(fold, p, now) then now else e.WorkspaceBefore());
      assert false;
    }
  }

  /** A workspace as a row may name it that was stored before names were made canonical. */
  const LEGACY_NAME: string := "All."

  /**
   * The one thing in the way is the reserved slug. A claim that lists such a name is no grant of all workspaces; who holds it
   * is owed the deletion of such a row and may open no feed of it.
   */
  lemma LegacyRowIsUnreachable(fold: Folding, upper: Folding, e: DomainEvent)
    requires fold(LEGACY_NAME) == "all."
    requires Stored(e) && e.eventType.ProjectDeleted? && e.Workspace() == Some(LEGACY_NAME) && e.WorkspaceBefore().None?
    ensures var p := Principal("7", None, Editor, Only([LEGACY_NAME]), []);
            EventForPrincipal(fold, upper, p, e) == Some(e) && !MayOpenCollection(fold, upper, p, e)
  {
    var p := Principal("7", None, Editor, Only([LEGACY_NAME]), []);
    var allowed := [LEGACY_NAME];
    assert Slugify(fold, allowed[0]) == Slugify(fold, LEGACY_NAME);
    LegacySlug();
    ReachableExactlyWhenRoutable(fold, upper, p, e);
  }

  lemma LegacySlug()
    ensures DropBack(DropFront(Collapse("all."))) == "all"
  {
    assert SkipOther(".") == "" && Collapse(".") == "-";
    assert "all."[1..] == "ll." && "ll."[1..] == "l." && "l."[1..] == ".";
    assert Collapse("l.") == "l-" && Collapse("ll.") == "ll-" && Collapse("all.") == "all-";
    assert DropBack("all-") == DropBack("all") by { assert "all-"[..3] == "all"; }
  }
}
