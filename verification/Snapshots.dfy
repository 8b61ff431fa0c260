/**
 * What a plain read made earlier is worth later in a run: one version of a row is one content, and ids are never given out
 * twice. The import and the automatic linking of reports rest on it.
 */
module Snapshots {
  import opened Wrappers
  import opened Store
  import opened Contracts
  import opened Permissions
  import opened Booking
  import opened Projects
  import opened Checklists
  import opened RegisterImport
  import opened ReportLinks
  import opened AutoLinks
  import opened Steps
  import opened Transactions
  import opened Commands
  import opened Transitions
  import opened Journal
  import opened Runs

  /** A later state against an earlier one. */
  ghost predicate Later(before: Tables, after: Tables) {
    && before.nextProject <= after.nextProject && before.audit <= after.audit
    && (forall id :: id in after.projects ==>
          if id in before.projects then
            && before.projects[id].version <= after.projects[id].version
            && (before.projects[id].version == after.projects[id].version ==> before.projects[id] == after.projects[id])
          else before.nextProject <= id)
    && (forall r :: r in before.reports ==>
          && r in after.reports && before.reports[r].version <= after.reports[r].version
          && (before.reports[r].version == after.reports[r].version ==> before.reports[r] == after.reports[r]))
  }

  ghost function Since(before: Tables): Tables -> bool {
    (db: Tables) => FreshIds(db) && Later(before, db)
  }

  lemma LaterAfterProjectStep(before: Tables, db: Tables, s: Step)
    requires FreshIds(before) && FreshIds(db) && Later(before, db) && Legal(db, s)
    requires s.CreateProject? || s.EditProject?
    ensures FreshIds(Next(db, s)) && Later(before, Next(db, s))
  {
  }

  lemma LaterAfterDeletion(before: Tables, db: Tables, p: Principal, id: int)
    requires FreshIds(before) && FreshIds(db) && Later(before, db) && id in db.projects
    ensures FreshIds(DeleteStep(db, p, id)) && Later(before, DeleteStep(db, p, id))
  {
  }

  lemma LaterAfterRelink(before: Tables, db: Tables, report: int, link: Option<int>, source: LinkSource)
    requires FreshIds(db) && Later(before, db) && report in db.reports
    ensures FreshIds(LinkStep(db, report, link, source)) && Later(before, LinkStep(db, report, link, source))
  {
  }

  lemma LaterAfterLink(before: Tables, db: Tables, c: Candidate)
    requires FreshIds(db) && Later(before, db) && Guarded(db, c)
    ensures var after := WithLink(db, c.report.id, LinkedRow(db.reports[c.report.id], c.projectId));
            FreshIds(after) && Later(before, after)
  {
  }

  /** A step that touches neither projects nor reports. */
  lemma LaterAfterOther(before: Tables, db: Tables, after: Tables)
    requires FreshIds(db) && Later(before, db) && db.audit <= after.audit
    requires after.projects == db.projects && after.reports == db.reports && after.nextProject == db.nextProject
    ensures FreshIds(after) && Later(before, after)
  {
  }

  lemma LaterAfterStep(before: Tables, db: Tables, s: Step)
    requires FreshIds(before) && FreshIds(db) && Later(before, db) && Legal(db, s)
    ensures FreshIds(Next(db, s)) && Later(before, Next(db, s))
  {
    if s.LinkReport? {
      LaterAfterLink(before, db, s.candidate);
    } else if s.Relink? {
      LaterAfterRelink(before, db, s.report, s.link, s.source);
    } else if s.RemoveProject? {
      LaterAfterDeletion(before, db, s.actor, s.projectId);
    } else if s.CreateProject? || s.EditProject? {
      LaterAfterProjectStep(before, db, s);
    } else {
      LaterAfterOther(before, db, Next(db, s));
    }
  }

  lemma SinceIsKept(before: Tables, call: Call)
    requires FreshIds(before)
    ensures LedgerBlind(Since(before)) && KeptBy(Since(before), call)
  {
    forall x, s, y | Allowed(call, s) && Since(before)(x) && Takes(Legally(), x, s, y) ensures Since(before)(y) {
      LaterAfterStep(before, x, s);
    }
  }

  /** Over any stretch of any run, a row that kept its version kept its content, and no project id came back. */
  lemma SnapshotsStayTrue(w: World, init: Tables, calls: seq<Call>, i: nat, j: nat)
    requires i <= j <= |calls| && FreshIds(Found(Services(w), init, calls, i))
    ensures FreshIds(Found(Services(w), init, calls, j))
    ensures Later(Found(Services(w), init, calls, i), Found(Services(w), init, calls, j))
  {
    var before := Found(Services(w), init, calls, i);
    if i < j {
      SinceIsKept(before, calls[i]);
      forall k | i <= k < j ensures KeptBy(Since(before), calls[k]) { SinceIsKept(before, calls[k]); }
      RunKeeps(w, Since(before), init, calls, i, j);
    }
  }

  /**
   * An import planned on any earlier state of the run replaces nothing unasked: the snapshot's rows of the same version are
   * the rows it locks.
   */
  lemma ImportOnSnapshotIsSafe(w: World, init: Tables, calls: seq<Call>, i: nat, j: nat, p: Principal, rows: seq<ApplyRow>,
                               plan: map<int, PlanRow>, seen: map<int, ProjectRow>, id: int, k: Key)
    requires i <= j <= |calls| && FreshIds(Found(Services(w), init, calls, i))
    requires forall x :: x in seen ==> x in Found(Services(w), init, calls, i).projects &&
                                       seen[x] == Found(Services(w), init, calls, i).projects[x]
    requires var db := Found(Services(w), init, calls, j);
             id in db.projects && ApplyWithin(w, db, p, rows, plan, seen).Success?
    ensures var db := Found(Services(w), init, calls, j);
            var after := ApplyWithin(w, db, p, rows, plan, seen).value.0;
            && id in after.projects
            && db.projects[id].version <= after.projects[id].version <= db.projects[id].version + 1
            && (Get(after.projects[id].cells, k) != Get(db.projects[id].cells, k) &&
                !Blank(k, Get(db.projects[id].cells, k)) ==>
                exists n :: 0 <= n < |rows| && rows[n].overwrite && WrittenBy(w, after.projects[id], rows[n], k) &&
                            TouchedBy(w, db.projects[id], after.projects[id], rows[n], seen, id))
  {
    SnapshotsStayTrue(w, init, calls, i, j);
    var db := Found(Services(w), init, calls, j);
    NothingReplacedUnasked(w, db, p, rows, plan, seen, id, k);
  }

  /**
   * An automatic linking planned on any earlier state of the run writes only reports that nobody has linked or detached, and
   * leaves everything but those reports and the audit log as it was.
   */
  lemma LinkingOnSnapshotIsSafe(w: World, init: Tables, calls: seq<Call>, i: nat, j: nat, plan: LinkPlan)
    returns (writes: seq<Write>)
    requires i <= j <= |calls| && FreshIds(Found(Services(w), init, calls, i))
    requires PlannedFrom(plan, Found(Services(w), init, calls, i))
    ensures var db := Found(Services(w), init, calls, j);
            var (after, result) := AutoLinkWith(Alone(), db, plan, false);
            && after == db.(reports := after.reports, audit := db.audit + AuditsOf(writes)) && result.linked == |writes|
            && (forall wr :: wr in writes ==> RightWrite(wr, plan))
            && (forall r :: r in db.reports && (db.reports[r].projectId.Some? || db.reports[r].source != Unset) ==>
                  r in after.reports && after.reports[r] == db.reports[r])
  {
    SnapshotsStayTrue(w, init, calls, i, j);
    writes := AloneOnlyLinks(Found(Services(w), init, calls, j), plan, Found(Services(w), init, calls, i));
  }

  /** What other transactions commit while `autoLink` runs, as long as they keep off its locks, is what it relies on. */
  lemma RunsAreReliable(before: Tables, after: Tables, held: set<int>, kept: set<int>)
    requires Later(before, after)
    requires forall r :: r in held && r in before.reports && r in after.reports ==> after.reports[r] == before.reports[r]
    requires forall id :: id in kept && id in before.projects ==> id in after.projects
    ensures Rely(before, after, held, kept)
  {
  }

  // ---- notifications ---------------------------------------------------------------------------------------------------

  /** Every notification event is the one of a (person, checklist, department), and no two of those share an id. */
  ghost predicate ToldOnce(db: Tables) {
    && (forall key :: key in db.notified ==> db.notified[key] < db.nextNotification)
    && (forall a, b :: a in db.notified && b in db.notified && db.notified[a] == db.notified[b] ==> a == b)
    && (forall i :: 0 <= i < |db.events| && db.events[i].agg.Notification? ==>
          exists key :: key in db.notified && db.notified[key] == db.events[i].agg.id && db.events[i].recipient == Some(key.user))
    && (forall i, j :: 0 <= i < j < |db.events| && db.events[i].agg.Notification? ==> db.events[i].agg != db.events[j].agg)
  }

  ghost function Telling(): Tables -> bool {
    (db: Tables) => ToldOnce(db)
  }

  lemma TellingOnce(db: Tables, p: Principal, key: NotificationKey, ws: Option<string>)
    requires ToldOnce(db) && key !in db.notified
    ensures ToldOnce(NotifyOne(db, p, key, ws))
  {
    var after := NotifyOne(db, p, key, ws);
    forall i | 0 <= i < |after.events| && after.events[i].agg.Notification?
      ensures exists k :: k in after.notified && after.notified[k] == after.events[i].agg.id &&
                          after.events[i].recipient == Some(k.user)
    {
      if i == |db.events| {
        assert key in after.notified && after.notified[key] == after.events[i].agg.id;
      } else {
        assert after.events[i] == db.events[i];
        var k :| k in db.notified && db.notified[k] == db.events[i].agg.id && db.events[i].recipient == Some(k.user);
        assert k in after.notified && after.notified[k] == after.events[i].agg.id;
      }
    }
  }

  lemma NoNotification(db: Tables, s: Step)
    requires Legal(db, s) && !s.Tell?
    ensures Next(db, s).notified == db.notified && Next(db, s).nextNotification == db.nextNotification
    ensures Next(db, s).events == db.events ||
            (|Next(db, s).events| == |db.events| + 1 && Next(db, s).events[..|db.events|] == db.events &&
             !Next(db, s).events[|db.events|].agg.Notification?)
  {
  }

  lemma NobodyTold(db: Tables, after: Tables)
    requires ToldOnce(db) && after.notified == db.notified && after.nextNotification == db.nextNotification
    requires |db.events| <= |after.events| && after.events[..|db.events|] == db.events
    requires forall i :: |db.events| <= i < |after.events| ==> !after.events[i].agg.Notification?
    ensures ToldOnce(after)
  {
    forall i | 0 <= i < |after.events| && after.events[i].agg.Notification?
      ensures exists k :: k in after.notified && after.notified[k] == after.events[i].agg.id &&
                          after.events[i].recipient == Some(k.user)
    {
      assert after.events[i] == db.events[i];
    }
  }

  lemma OtherStepsTellNobody(db: Tables, s: Step)
    requires ToldOnce(db) && Legal(db, s) && !s.Tell?
    ensures ToldOnce(Next(db, s))
  {
    NoNotification(db, s);
    NobodyTold(db, Next(db, s));
  }

  /** However often work comes up, a person hears of one checklist for one department once. */
  lemma EveryoneIsToldOnce(w: World, init: Tables, calls: seq<Call>, i: nat)
    requires ToldOnce(init) && i <= |calls|
    ensures ToldOnce(Found(Services(w), init, calls, i))
  {
    forall k | 0 <= k < i ensures KeptBy(Telling(), calls[k]) {
      forall x, s, y | Allowed(calls[k], s) && Telling()(x) && Takes(Legally(), x, s, y) ensures Telling()(y) {
        if s.Tell? { TellingOnce(x, s.actor, s.key, s.ws); } else { OtherStepsTellNobody(x, s); }
      }
    }
    RunKeeps(w, Telling(), init, calls, 0, i);
  }
}
