/**
 * One call as one transaction under an idempotency key, and runs of such calls, repeated and interleaved at will: every
 * effect happens at most once (drizzle/schema.ts:433-448).
 */
module Transactions {
  import opened Wrappers
  import opened Store
  import opened Contracts

  /** What a service brings: refusals before the transaction, what the request hash covers, and the transition. */
  datatype Service = Service(
    refuse: Call -> Option<Error>,
    canonical: Call -> Request,
    body: (Tables, Call) -> Result<(Tables, Response), Error>)

  /** A call as one transaction: what is committed, and what the caller is told. */
  function Exec(s: Service, db: Tables, call: Call): (Tables, Outcome) {
    var refusal := s.refuse(call);
    if refusal.Some? then (db, Failed(refusal.value))
    else
      var request := s.canonical(call);
      match ClaimOf(db, call.actor.id, call.key, request)
      case Mismatch => (db, Failed(KeyReuse))
      case Replay(response) => (db, Done(response, true))
      case New =>
        match s.body(Claimed(db, call.actor.id, call.key, request), call)
        case Failure(e) => (db, Failed(e))
        case Success((after, response)) =>
          (Completed(after, call.actor.id, call.key, request, response), Done(response, false))
  }

  /** Only the claim and the completion write the ledger. */
  ghost predicate KeepsLedger(s: Service) {
    forall db, call :: s.body(db, call).Success? ==> s.body(db, call).value.0.ledger == db.ledger
  }

  /** The store after a run of calls; a failed call has rolled back. */
  function After(s: Service, db: Tables, calls: seq<Call>): Tables {
    if |calls| == 0 then db else Exec(s, After(s, db, calls[..|calls| - 1]), calls[|calls| - 1]).0
  }

  /** The store call i of a run finds. */
  function Found(s: Service, db: Tables, calls: seq<Call>, i: nat): Tables
    requires i <= |calls|
  {
    After(s, db, calls[..i])
  }

  function OutcomeAt(s: Service, db: Tables, calls: seq<Call>, i: nat): Outcome
    requires i < |calls|
  {
    Exec(s, Found(s, db, calls, i), calls[i]).1
  }

  /** This call committed a transition of its own. */
  predicate Fresh(o: Outcome) {
    o.Done? && !o.replayed
  }

  lemma NextFound(s: Service, db: Tables, calls: seq<Call>, i: nat)
    requires i < |calls|
    ensures Found(s, db, calls, i + 1) == Exec(s, Found(s, db, calls, i), calls[i]).0
  {
    assert calls[..i + 1][..i] == calls[..i];
  }

  // ---- one call and the ledger -----------------------------------------------------------------------------------------

  function Row(s: Service, call: Call, response: Response): LedgerRow<Request, Response> {
    LedgerRow(s.canonical(call), Some(response))
  }

  /** A call that commits leaves its key with the response; any other call leaves the store as it was. */
  lemma CommitsWithItsKey(s: Service, db: Tables, call: Call)
    requires KeepsLedger(s)
    ensures var (after, o) := Exec(s, db, call);
            && (!Fresh(o) ==> after == db)
            && (Fresh(o) ==> (call.actor.id, call.key) !in db.ledger &&
                             after.ledger == db.ledger[(call.actor.id, call.key) := Row(s, call, o.response)])
  {
    var key, request, o := (call.actor.id, call.key), s.canonical(call), Exec(s, db, call).1;
    if Fresh(o) {
      assert db.ledger[key := LedgerRow(request, None)][key := Row(s, call, o.response)] ==
             db.ledger[key := Row(s, call, o.response)];
    }
  }

  /** What the ledger says stays said. */
  lemma {:induction false} LedgerGrows(s: Service, db: Tables, calls: seq<Call>, i: nat, j: nat, key: (string, string))
    requires KeepsLedger(s) && i <= j <= |calls| && key in Found(s, db, calls, i).ledger
    ensures key in Found(s, db, calls, j).ledger
    ensures Found(s, db, calls, j).ledger[key] == Found(s, db, calls, i).ledger[key]
    decreases j
  {
    if i < j {
      LedgerGrows(s, db, calls, i, j - 1, key);
      NextFound(s, db, calls, j - 1);
      CommitsWithItsKey(s, Found(s, db, calls, j - 1), calls[j - 1]);
    }
  }

  predicate SameKey(a: Call, b: Call) {
    a.actor.id == b.actor.id && a.key == b.key
  }

  /** What a later call under a key that has committed is told. */
  function RetryAnswer(s: Service, first: Call, response: Response, retry: Call): Outcome {
    var refusal := s.refuse(retry);
    if refusal.Some? then Failed(refusal.value)
    else if s.canonical(retry) == s.canonical(first) then Done(response, true)
    else Failed(KeyReuse)
  }

  /**
   * Once a call has committed, every later call under its key changes nothing: the same request gets the stored response,
   * another request is rejected.
   */
  lemma AtMostOnce(s: Service, db: Tables, calls: seq<Call>, i: nat, j: nat)
    requires KeepsLedger(s) && i < j < |calls| && SameKey(calls[i], calls[j]) && Fresh(OutcomeAt(s, db, calls, i))
    ensures OutcomeAt(s, db, calls, j) == RetryAnswer(s, calls[i], OutcomeAt(s, db, calls, i).response, calls[j])
    ensures Found(s, db, calls, j + 1) == Found(s, db, calls, j)
  {
    var key := (calls[i].actor.id, calls[i].key);
    NextFound(s, db, calls, i);
    CommitsWithItsKey(s, Found(s, db, calls, i), calls[i]);
    LedgerGrows(s, db, calls, i + 1, j, key);
    NextFound(s, db, calls, j);
    CommitsWithItsKey(s, Found(s, db, calls, j), calls[j]);
  }

  /** A call that throws leaves no trace, not even its key: repeating it is a first attempt. */
  lemma FailureLeavesNoKey(s: Service, db: Tables, call: Call, retry: Call)
    requires KeepsLedger(s) && Exec(s, db, call).1.Failed?
    ensures Exec(s, Exec(s, db, call).0, retry) == Exec(s, db, retry)
  {
    CommitsWithItsKey(s, db, call);
  }

  // ---- a whole run -----------------------------------------------------------------------------------------------------

  /** The calls of a run that committed a transition of their own. */
  function Commits(s: Service, db: Tables, calls: seq<Call>): seq<Call> {
    if |calls| == 0 then []
    else
      var rest, last := calls[..|calls| - 1], calls[|calls| - 1];
      Commits(s, db, rest) + if Fresh(Exec(s, After(s, db, rest), last).1) then [last] else []
  }

  ghost predicate DistinctKeys(calls: seq<Call>) {
    forall i, j | 0 <= i < j < |calls| :: !SameKey(calls[i], calls[j])
  }

  ghost predicate KeysIn(calls: seq<Call>, ledger: map<(string, string), LedgerRow<Request, Response>>) {
    forall i | 0 <= i < |calls| :: (calls[i].actor.id, calls[i].key) in ledger
  }

  /** A commit behind the others is a fresh key behind theirs. */
  lemma OneMoreCommit(s: Service, db: Tables, commits: seq<Call>, last: Call)
    requires KeepsLedger(s) && DistinctKeys(commits) && KeysIn(commits, After(s, db, commits).ledger)
    requires Fresh(Exec(s, After(s, db, commits), last).1)
    ensures After(s, db, commits + [last]) == Exec(s, After(s, db, commits), last).0
    ensures DistinctKeys(commits + [last]) && KeysIn(commits + [last], After(s, db, commits + [last]).ledger)
  {
    assert (commits + [last])[..|commits|] == commits;
    CommitsWithItsKey(s, After(s, db, commits), last);
  }

  /**
   * Any run, with any repetitions and failures in it, has exactly the effects of its committed calls, and no two of those
   * share a key.
   */
  lemma {:induction false} RunIsItsCommits(s: Service, db: Tables, calls: seq<Call>)
    requires KeepsLedger(s)
    ensures After(s, db, Commits(s, db, calls)) == After(s, db, calls)
    ensures DistinctKeys(Commits(s, db, calls)) && KeysIn(Commits(s, db, calls), After(s, db, calls).ledger)
  {
    if |calls| > 0 {
      var rest, last := calls[..|calls| - 1], calls[|calls| - 1];
      RunIsItsCommits(s, db, rest);
      var commits := Commits(s, db, rest);
      if Fresh(Exec(s, After(s, db, rest), last).1) {
        OneMoreCommit(s, db, commits, last);
      } else {
        CommitsWithItsKey(s, After(s, db, rest), last);
        assert Commits(s, db, calls) == commits;
      }
    }
  }
}
