/** Slots over whole runs: no double booking, and one winner per expected version. */
module Calendar {
  import opened Wrappers
  import opened Store
  import opened Contracts
  import opened Permissions
  import opened Booking
  import opened Projects
  import opened Checklists
  import opened Steps
  import opened Transactions
  import opened Commands
  import opened Transitions
  import opened Runs

  /** This call asks for the slot, directly or inside a submission. */
  predicate Books(call: Call, id: int) {
    (call.request.Book? && call.request.book.id == id) ||
    (call.request.Submit? && call.request.submit.slot.Some? && call.request.submit.slot.value.id == id)
  }

  function ExpectedVersion(call: Call): int
    requires call.request.Book? || (call.request.Submit? && call.request.submit.slot.Some?)
  {
    if call.request.Book? then call.request.book.expectedVersion else call.request.submit.slot.value.expectedVersion
  }

  predicate Releases(call: Call, id: int) {
    call.request.Release? && call.request.release.id == id
  }

  /** What a booking does to its slot: from free to held, one version on, at the version the caller expected. */
  ghost predicate TakenBy(before: Tables, after: Tables, id: int, expected: int) {
    && id in before.slots && IsFree(before.slots[id]) && before.slots[id].version == expected
    && id in after.slots && !IsFree(after.slots[id]) && after.slots[id].version == expected + 1
  }

  lemma BookingTakes(w: World, db: Tables, p: Principal, input: BookInput)
    requires BookWithin(w, db, p, input).Success?
    ensures TakenBy(db, BookWithin(w, db, p, input).value, input.id, input.expectedVersion)
  {
    assert BookedCells(w, input)[STATUS] == Value.Text(input.status) != FREE;
  }

  lemma SubmissionTakes(w: World, db: Tables, call: Call)
    requires call.request.Submit? && call.request.submit.slot.Some?
    requires SubmitBody(w, db, call.actor, call.request.submit, call.recipients).Success?
    ensures TakenBy(db, SubmitBody(w, db, call.actor, call.request.submit, call.recipients).value.0,
                    call.request.submit.slot.value.id, call.request.submit.slot.value.expectedVersion)
  {
    var p, input := call.actor, call.request.submit;
    var cur := db.checklists[input.id];
    var created := CreateWithin(w, db, p, SubmittedCells(w, cur)).value;
    var booking := SlotBooking(cur, input.slot.value, db.nextProject);
    BookingTakes(w, created, p, booking);
    SlotsAfterSubmission(w, db, call, created, BookWithin(w, created, p, booking).value);
  }

  lemma SlotsAfterSubmission(w: World, db: Tables, call: Call, created: Tables, booked: Tables)
    requires call.request.Submit? && call.request.submit.slot.Some?
    requires SubmitBody(w, db, call.actor, call.request.submit, call.recipients).Success?
    requires var cur := db.checklists[call.request.submit.id];
             && CreateWithin(w, db, call.actor, SubmittedCells(w, cur)) == Success(created)
             && BookForSubmission(w, created, call.actor, cur, call.request.submit.slot, db.nextProject) == Success(booked)
    ensures created.slots == db.slots
    ensures SubmitBody(w, db, call.actor, call.request.submit, call.recipients).value.0.slots == booked.slots
  {
  }

  /** A booking that commits found the slot free at the expected version and leaves it held. */
  lemma CommittedBookingTakes(w: World, db: Tables, call: Call, id: int)
    requires Books(call, id) && Fresh(Exec(Services(w), db, call).1)
    ensures TakenBy(db, Exec(Services(w), db, call).0, id, ExpectedVersion(call))
  {
    var mid := CommitIsLawful(w, db, call);
    var claimed := Claimed(db, call.actor.id, call.key, CanonicalRequest(w, call.request));
    if call.request.Book? {
      BookingTakes(w, claimed, call.actor, call.request.book);
    } else {
      SubmissionTakes(w, claimed, call);
    }
  }

  // ---- over runs -------------------------------------------------------------------------------------------------------

  ghost function Held(id: int): Tables -> bool {
    (db: Tables) => id in db.slots && !IsFree(db.slots[id])
  }

  ghost function Beyond(id: int, version: int): Tables -> bool {
    (db: Tables) => id in db.slots && db.slots[id].version > version
  }

  /** What one step does to one slot. */
  lemma SlotAfterStep(db: Tables, s: Step, id: int)
    requires Legal(db, s) && id in db.slots
    ensures id in Next(db, s).slots && Next(db, s).slots[id].version >= db.slots[id].version
    ensures Next(db, s).slots[id] == db.slots[id] || (s.TakeSlot? && s.slot == id) || (s.FreeSlot? && s.slot == id)
  {
  }

  lemma HeldUntilReleased(id: int, call: Call)
    requires !Releases(call, id)
    ensures LedgerBlind(Held(id)) && KeptBy(Held(id), call)
  {
    forall x, s, y | Allowed(call, s) && Held(id)(x) && Takes(Legally(), x, s, y) ensures Held(id)(y) {
      SlotAfterStep(x, s, id);
    }
  }

  lemma VersionsOnlyRise(id: int, version: int, call: Call)
    ensures LedgerBlind(Beyond(id, version)) && KeptBy(Beyond(id, version), call)
  {
    forall x, s, y | Allowed(call, s) && Beyond(id, version)(x) && Takes(Legally(), x, s, y)
      ensures Beyond(id, version)(y)
    {
      SlotAfterStep(x, s, id);
    }
  }

  /** Between two committed bookings of one slot, direct or inside a submission, there is a committed release of it. */
  lemma NoDoubleBooking(w: World, init: Tables, calls: seq<Call>, i: nat, j: nat, id: int)
    requires i < j < |calls| && Books(calls[i], id) && Books(calls[j], id)
    requires Fresh(OutcomeAt(Services(w), init, calls, i)) && Fresh(OutcomeAt(Services(w), init, calls, j))
    ensures exists k :: i < k < j && Releases(calls[k], id) && Fresh(OutcomeAt(Services(w), init, calls, k))
  {
    var s := Services(w);
    CommittedBookingTakes(w, Found(s, init, calls, i), calls[i], id);
    CommittedBookingTakes(w, Found(s, init, calls, j), calls[j], id);
    NextFound(s, init, calls, i);
    if forall k :: i < k < j && Releases(calls[k], id) ==> !Fresh(OutcomeAt(s, init, calls, k)) {
      HeldUntilReleased(id, calls[i]);
      forall k | i + 1 <= k < j ensures !Fresh(OutcomeAt(s, init, calls, k)) || KeptBy(Held(id), calls[k]) {
        if !Releases(calls[k], id) { HeldUntilReleased(id, calls[k]); }
      }
      RunKeeps(w, Held(id), init, calls, i + 1, j);
      assert false;
    }
  }

  /** Of any number of bookings of a slot that expect one version, at most one ever commits. */
  lemma OneWinnerPerVersion(w: World, init: Tables, calls: seq<Call>, i: nat, j: nat, id: int)
    requires i < j < |calls| && Books(calls[i], id) && Books(calls[j], id)
    requires ExpectedVersion(calls[i]) == ExpectedVersion(calls[j]) && Fresh(OutcomeAt(Services(w), init, calls, i))
    ensures !Fresh(OutcomeAt(Services(w), init, calls, j))
  {
    var s, version := Services(w), ExpectedVersion(calls[i]);
    CommittedBookingTakes(w, Found(s, init, calls, i), calls[i], id);
    NextFound(s, init, calls, i);
    VersionsOnlyRise(id, version, calls[i]);
    forall k | i + 1 <= k < j ensures KeptBy(Beyond(id, version), calls[k]) { VersionsOnlyRise(id, version, calls[k]); }
    RunKeeps(w, Beyond(id, version), init, calls, i + 1, j);
    if Fresh(OutcomeAt(s, init, calls, j)) {
      CommittedBookingTakes(w, Found(s, init, calls, j), calls[j], id);
    }
  }

  /** A submission whose slot is gone changes nothing at all: no project, no reviews, no booking, no submitted checklist. */
  lemma LostSlotUndoesSubmission(w: World, db: Tables, call: Call)
    requires call.request.Submit? && call.request.submit.slot.Some?
    requires var slot := call.request.submit.slot.value;
             slot.id in db.slots ==> db.slots[slot.id].version != slot.expectedVersion || !IsFree(db.slots[slot.id])
    ensures Exec(Services(w), db, call).0 == db && !Fresh(Exec(Services(w), db, call).1)
  {
    ServicesKeepLedger(w);
    CommitsWithItsKey(Services(w), db, call);
    if Fresh(Exec(Services(w), db, call).1) { CommittedBookingTakes(w, db, call, call.request.submit.slot.value.id); }
  }
}
