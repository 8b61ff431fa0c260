/** What every run of calls keeps, from any starting state and under any interleaving of commits, failures and retries. */
module Runs {
  import opened Wrappers
  import opened Store
  import opened Contracts
  import opened Permissions
  import opened Booking
  import opened Steps
  import opened Transactions
  import opened Commands
  import opened Transitions
  import opened Journal

  // ---- from steps to runs ----------------------------------------------------------------------------------------------

  function WithLedger(db: Tables, ledger: map<(string, string), LedgerRow<Request, Response>>): Tables {
    db.(ledger := ledger)
  }

  /** A property that does not look at the idempotency ledger. */
  ghost predicate LedgerBlind(inv: Tables -> bool) {
    forall db, ledger :: inv(db) ==> inv(WithLedger(db, ledger))
  }

  /** A property every step of this call keeps. */
  ghost predicate KeptBy(inv: Tables -> bool, call: Call) {
    forall x, s, y :: Allowed(call, s) && inv(x) && Takes(Legally(), x, s, y) ==> inv(y)
  }

  lemma LawfulKeeps(inv: Tables -> bool, call: Call, db: Tables, after: Tables)
    requires Lawful(call, db, after) && KeptBy(inv, call) && inv(db)
    ensures inv(after)
  {
    var steps :| Chain(Legally(), db, steps, after) && AllAllowed(call, steps);
    ChainKeeps(Legally(), inv, db, steps, after);
  }

  /** A call that commits is a lawful chain between claim and completion. */
  lemma CommitIsLawful(w: World, db: Tables, call: Call) returns (mid: Tables)
    requires Fresh(Exec(Services(w), db, call).1)
    ensures var key, request := (call.actor.id, call.key), CanonicalRequest(w, call.request);
            var claimed := WithLedger(db, db.ledger[key := LedgerRow(request, None)]);
            var after := Exec(Services(w), db, call).0;
            && Body(w, claimed, call).Success? && mid == Body(w, claimed, call).value.0
            && Lawful(call, claimed, mid)
            && after == WithLedger(mid, after.ledger)
  {
    var claimed := Claimed(db, call.actor.id, call.key, CanonicalRequest(w, call.request));
    EveryCallIsLawful(w, claimed, call);
    mid := Body(w, claimed, call).value.0;
  }

  lemma CallKeeps(w: World, inv: Tables -> bool, db: Tables, call: Call)
    requires LedgerBlind(inv) && KeptBy(inv, call) && inv(db)
    ensures inv(Exec(Services(w), db, call).0)
  {
    ServicesKeepLedger(w);
    CommitsWithItsKey(Services(w), db, call);
    if Fresh(Exec(Services(w), db, call).1) {
      var mid := CommitIsLawful(w, db, call);
      var key, request := (call.actor.id, call.key), CanonicalRequest(w, call.request);
      LawfulKeeps(inv, call, WithLedger(db, db.ledger[key := LedgerRow(request, None)]), mid);
    }
  }

  lemma CallOfRunKeeps(w: World, inv: Tables -> bool, init: Tables, calls: seq<Call>, k: nat)
    requires k < |calls| && LedgerBlind(inv) && inv(Found(Services(w), init, calls, k))
    requires !Fresh(OutcomeAt(Services(w), init, calls, k)) || KeptBy(inv, calls[k])
    ensures inv(Found(Services(w), init, calls, k + 1))
  {
    NextFound(Services(w), init, calls, k);
    var db := Found(Services(w), init, calls, k);
    if Fresh(OutcomeAt(Services(w), init, calls, k)) {
      CallKeeps(w, inv, db, calls[k]);
    } else {
      ServicesKeepLedger(w);
      CommitsWithItsKey(Services(w), db, calls[k]);
    }
  }

  /** What every call between two points of a run keeps, the run keeps. */
  lemma {:induction false} RunKeeps(w: World, inv: Tables -> bool, init: Tables, calls: seq<Call>, i: nat, j: nat)
    requires i <= j <= |calls| && LedgerBlind(inv) && inv(Found(Services(w), init, calls, i))
    requires forall k :: i <= k < j ==> !Fresh(OutcomeAt(Services(w), init, calls, k)) || KeptBy(inv, calls[k])
    ensures inv(Found(Services(w), init, calls, j))
    decreases j
  {
    if i < j {
      RunKeeps(w, inv, init, calls, i, j - 1);
      CallOfRunKeeps(w, inv, init, calls, j - 1);
    }
  }

  // ---- the journal of every run ----------------------------------------------------------------------------------------

  ghost function KeepsJournal(init: Tables): Tables -> bool {
    (db: Tables) => Kept(init, db)
  }

  lemma JournalIsKept(init: Tables, call: Call)
    ensures LedgerBlind(KeepsJournal(init)) && KeptBy(KeepsJournal(init), call)
  {
    forall db, ledger | Kept(init, db) ensures Kept(init, WithLedger(db, ledger)) {
      SilenceKeeps(init, db, WithLedger(db, ledger));
    }
    forall x, s, y | Allowed(call, s) && Kept(init, x) && Takes(Legally(), x, s, y) ensures Kept(init, y) {
      StepKeeps(init, x, s);
    }
  }

  /** After any run the journal holds: gapless logs, truthful changes, rows rebuilt, audit rows for every event. */
  lemma EveryRunIsJournaled(w: World, init: Tables, calls: seq<Call>, i: nat)
    requires Start(init) && i <= |calls|
    ensures Kept(init, Found(Services(w), init, calls, i))
  {
    StartIsKept(init);
    forall k | 0 <= k < |calls| { JournalIsKept(init, calls[k]); }
    if i > 0 {
      JournalIsKept(init, calls[0]);
      RunKeeps(w, KeepsJournal(init), init, calls, 0, i);
    }
  }

  // ---- retries ---------------------------------------------------------------------------------------------------------

  /** A retry of a committed call is answered from the ledger and changes nothing, whatever came in between. */
  lemma RetriesChangeNothing(w: World, init: Tables, calls: seq<Call>, i: nat, j: nat)
    requires i < j < |calls| && SameKey(calls[i], calls[j]) && Fresh(OutcomeAt(Services(w), init, calls, i))
    ensures Found(Services(w), init, calls, j + 1) == Found(Services(w), init, calls, j)
    ensures OutcomeAt(Services(w), init, calls, j) ==
            if Precheck(w, calls[j].actor, calls[j].request).Some?
            then Failed(Precheck(w, calls[j].actor, calls[j].request).value)
            else if CanonicalRequest(w, calls[j].request) == CanonicalRequest(w, calls[i].request)
            then Done(OutcomeAt(Services(w), init, calls, i).response, true)
            else Failed(KeyReuse)
  {
    ServicesKeepLedger(w);
    AtMostOnce(Services(w), init, calls, i, j);
  }

  /** Leaving out everything that did not commit, and every retry, leaves the same store: one effect per key. */
  lemma OneEffectPerKey(w: World, init: Tables, calls: seq<Call>)
    ensures After(Services(w), init, Commits(Services(w), init, calls)) == After(Services(w), init, calls)
    ensures DistinctKeys(Commits(Services(w), init, calls))
  {
    ServicesKeepLedger(w);
    RunIsItsCommits(Services(w), init, calls);
  }
}
