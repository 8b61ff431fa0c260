/** Registrations of the Übersichtsliste over whole runs of imports, edits and deletions. */
module Registrations {
  import opened Wrappers
  import opened Store
  import opened Contracts
  import opened Permissions
  import opened RegisterImport
  import opened Transactions
  import opened Commands
  import opened Transitions
  import opened Runs
  import opened References
  import opened Snapshots

  /** This call committed an import whose row m created project `id` for a registration, on an `add` plan. */
  ghost predicate Adds(call: Call, o: Outcome, m: nat, identity: string, id: int) {
    && Fresh(o) && call.request.ApplyRegister? && o.response.ImportResponse?
    && m < |call.request.rows| && m < |o.response.outcomes|
    && call.request.rows[m].record.identity == identity
    && AddsProject(call.request.rows[m], call.plan, o.response.outcomes[m])
    && o.response.outcomes[m].projectId == Some(id)
  }

  /** A row that adds a project found its key without an owner at the start of the import, and the import leaves it that owner. */
  lemma ClaimsWithin(w: World, db: Tables, p: Principal, rows: seq<ApplyRow>, plan: map<int, PlanRow>,
                     seen: map<int, ProjectRow>, m: nat)
    requires m < |rows| && FreshIds(db) && Rows(Stepper(w, p, plan, seen), db, rows).Success?
    requires m < |Rows(Stepper(w, p, plan, seen), db, rows).value.1|
    requires AddsProject(rows[m], plan, Rows(Stepper(w, p, plan, seen), db, rows).value.1[m])
    ensures var (after, outcomes) := Rows(Stepper(w, p, plan, seen), db, rows).value;
            var key := MatchKey(rows[m].record.identity);
            key !in db.sourceKeys && key in after.sourceKeys && after.sourceKeys[key] == outcomes[m].projectId
  {
    var step := Stepper(w, p, plan, seen);
    RowAt(step, db, rows, m);
    AddClaimsKey(w, Before(step, db, rows, m), p, rows[m], plan, seen);
    StepperIsEffective(w, p, plan, seen);
    assert rows[..0] == [] && rows[..|rows|] == rows;
    KeyPersists(w, step, db, rows, seen, 0, m);
    KeyPersists(w, step, db, rows, seen, m + 1, |rows|);
  }

  lemma AddClaims(w: World, db: Tables, call: Call, m: nat, identity: string, id: int)
    requires FreshIds(db) && Adds(call, Exec(Services(w), db, call).1, m, identity, id)
    ensures MatchKey(identity) !in db.sourceKeys
    ensures Owns(identity, id)(Exec(Services(w), db, call).0)
  {
    var mid := CommitIsLawful(w, db, call);
    var claimed := WithLedger(db, db.ledger[(call.actor.id, call.key) := LedgerRow(CanonicalRequest(w, call.request), None)]);
    assert Body(w, claimed, call) == ApplyBody(w, claimed, call.actor, call.request.rows, call.plan, call.seen);
    ClaimsWithin(w, claimed, call.actor, call.request.rows, call.plan, call.seen, m);
  }

  /**
   * Over any run, between two imports that each create a project for one registration on an `add` plan, the first of these
   * projects was deleted: nothing else makes a registration new again.
   */
  lemma OneProjectPerRegistration(w: World, init: Tables, calls: seq<Call>, i: nat, j: nat, m: nat, n: nat, identity: string,
                                  id: int, other: int)
    requires FreshIds(init) && i < j < |calls|
    requires Adds(calls[i], OutcomeAt(Services(w), init, calls, i), m, identity, id)
    requires Adds(calls[j], OutcomeAt(Services(w), init, calls, j), n, identity, other)
    ensures exists k :: i < k < j && calls[k].request.DeleteProject? && calls[k].request.delete.id == id &&
                        Fresh(OutcomeAt(Services(w), init, calls, k))
  {
    assert calls[..0] == [];
    SnapshotsStayTrue(w, init, calls, 0, i);
    SnapshotsStayTrue(w, init, calls, 0, j);
    NextFound(Services(w), init, calls, i);
    AddClaims(w, Found(Services(w), init, calls, i), calls[i], m, identity, id);
    AddClaims(w, Found(Services(w), init, calls, j), calls[j], n, identity, other);
    if forall k :: i < k < j && calls[k].request.DeleteProject? && calls[k].request.delete.id == id ==>
                   !Fresh(OutcomeAt(Services(w), init, calls, k)) {
      KeyStaysWithOwner(w, init, calls, i + 1, j, identity, id);
      assert false;
    }
  }
}
