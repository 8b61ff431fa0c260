/** One service call: idempotency claim, one transition, stored response; commit or roll back whole. */
module Commands {
  import opened Wrappers
  import opened Store
  import opened Contracts
  import opened Permissions
  import opened Booking
  import opened Projects
  import opened Checklists
  import opened RegisterImport
  import opened ReportLinks
  import opened AutoLinks
  import opened Transactions

  /** What the request hash covers. */
  function CanonicalRequest(w: World, request: Request): Request {
    match request
    case Book(input) => Book(Canonical(input))
    case UpdateProject(input) => UpdateProject(input.(cells := NormalizedCells(w, input.cells)))
    case _ => request
  }

  predicate DistinctRefs(rows: seq<ApplyRow>) {
    forall i, j | 0 <= i < j < |rows| :: rows[i].record.ref != rows[j].record.ref
  }

  /** What is refused before a transaction is opened. */
  function Precheck(w: World, p: Principal, request: Request): Option<Error> {
    match request
    case UpdateProject(input) => if Normalizable(w, input.cells) then None else Some(Invalid)
    case SetLink(_) => if CanLink(p) then None else Some(Forbidden)
    case ApplyRegister(rows) =>
      if !p.role.Admin? then Some(Forbidden) else if DistinctRefs(rows) then None else Some(Invalid)
    case LinkReports => if p.role.Admin? then None else Some(Forbidden)
    case _ => None
  }

  // ---- the transition of each call, with its response --------------------------------------------------------------------

  function BookBody(w: World, db: Tables, p: Principal, input: BookInput): Result<(Tables, Response), Error> {
    match BookWithin(w, db, p, input)
    case Failure(e) => Failure(e)
    case Success(after) => Success((after, SlotResponse(View(w, p, input.id, after.slots[input.id]), |db.events|)))
  }

  function ReleaseBody(w: World, db: Tables, p: Principal, input: ReleaseInput): Result<(Tables, Response), Error> {
    match ReleaseWithin(w, db, p, input)
    case Failure(e) => Failure(e)
    case Success(after) => Success((after, SlotResponse(View(w, p, input.id, after.slots[input.id]), |db.events|)))
  }

  function SaveBody(w: World, db: Tables, p: Principal, input: SaveInput): Result<(Tables, Response), Error> {
    match SaveWithin(w, db, p, input)
    case Failure(e) => Failure(e)
    case Success(after) =>
      var id := SavedId(db, input);
      Success((after, ChecklistResponse(ChecklistDTO(id, after.checklists[id]), |db.events|)))
  }

  /** The event of a submission comes after its project's and, with a slot, its booking's. */
  function SubmitEventId(db: Tables, input: SubmitInput): nat {
    |db.events| + if input.slot.Some? then 2 else 1
  }

  function SubmitBody(w: World, db: Tables, p: Principal, input: SubmitInput, recipients: seq<(string, string)>)
    : Result<(Tables, Response), Error>
  {
    match SubmitWithin(w, db, p, input, recipients)
    case Failure(e) => Failure(e)
    case Success(after) =>
      Success((after, SubmitResponse(ChecklistDTO(input.id, after.checklists[input.id]), db.nextProject,
                                     SubmitEventId(db, input))))
  }

  function UpdateBody(w: World, db: Tables, p: Principal, input: UpdateInput): Result<(Tables, Response), Error> {
    match EditWithin(w, db, p, input)
    case Failure(e) => Failure(e)
    case Success(after) => Success((after, ProjectResponse(input.id, after.projects[input.id].version)))
  }

  function DeleteBody(w: World, db: Tables, p: Principal, input: DeleteInput): Result<(Tables, Response), Error> {
    match DeleteWithin(w, db, p, input)
    case Failure(e) => Failure(e)
    case Success(after) => Success((after, DeleteResponse(|db.events|)))
  }

  function SetLinkBody(w: World, db: Tables, p: Principal, input: LinkInput): Result<(Tables, Response), Error> {
    match SetLinkWithin(w, db, p, input)
    case Failure(e) => Failure(e)
    case Success(after) => Success((after, LinkResponse(input.id, input.projectId, after.reports[input.id].version)))
  }

  function ApplyBody(w: World, db: Tables, p: Principal, rows: seq<ApplyRow>, plan: map<int, PlanRow>,
                     seen: map<int, ProjectRow>): Result<(Tables, Response), Error>
  {
    match ApplyWithin(w, db, p, rows, plan, seen)
    case Failure(e) => Failure(e)
    case Success((after, outcomes)) => Success((after, ImportResponse(outcomes, CountsOf(outcomes))))
  }

  /** A linking that writes, with no other transaction in between; a dry run claims no key and writes nothing. */
  function LinkingBody(db: Tables, plan: LinkPlan): Result<(Tables, Response), Error> {
    var (after, result) := AutoLinkWith(Alone(), db, plan, false);
    Success((after, LinkingResponse(result)))
  }

  /** Calls on slots and checklists. */
  predicate OfCalendar(request: Request) {
    request.Book? || request.Release? || request.Save? || request.Submit?
  }

  function CalendarBody(w: World, db: Tables, call: Call): Result<(Tables, Response), Error>
    requires OfCalendar(call.request)
  {
    match call.request
    case Book(input) => BookBody(w, db, call.actor, input)
    case Release(input) => ReleaseBody(w, db, call.actor, input)
    case Save(input) => SaveBody(w, db, call.actor, input)
    case Submit(input) => SubmitBody(w, db, call.actor, input, call.recipients)
  }

  /** Calls on projects, their reports and their import. */
  function ProjectBody(w: World, db: Tables, call: Call): Result<(Tables, Response), Error>
    requires !OfCalendar(call.request)
  {
    match call.request
    case UpdateProject(input) => UpdateBody(w, db, call.actor, input)
    case DeleteProject(input) => DeleteBody(w, db, call.actor, input)
    case SetLink(input) => SetLinkBody(w, db, call.actor, input)
    case ApplyRegister(rows) => ApplyBody(w, db, call.actor, rows, call.plan, call.seen)
    case LinkReports => LinkingBody(db, call.linking)
  }

  function Body(w: World, db: Tables, call: Call): Result<(Tables, Response), Error> {
    if OfCalendar(call.request) then CalendarBody(w, db, call) else ProjectBody(w, db, call)
  }

  /** The services of the write path. */
  function Services(w: World): Service {
    Service((call: Call) => Precheck(w, call.actor, call.request),
            (call: Call) => CanonicalRequest(w, call.request),
            (db: Tables, call: Call) => Body(w, db, call))
  }

  // ---- statement by statement ------------------------------------------------------------------------------------------

  /** A transition that went through left this state and gave this response; one that threw left anything. */
  ghost predicate Answers(spec: Result<(Tables, Response), Error>, after: Tables, r: Result<Response, Error>) {
    && (spec.Success? ==> after == spec.value.0 && r == Success(spec.value.1))
    && (spec.Failure? ==> r == Failure(spec.error))
  }

  method BookTransition(w: World, db: TxDatabase, p: Principal, input: BookInput) returns (r: Result<Response, Error>)
    modifies db
    ensures Answers(BookBody(w, old(db.state), p, input), db.state, r)
  {
    var eventId := |db.state.events|;
    var booked := BookInTransaction(w, db, p, input);
    if booked.Failure? { return Failure(booked.error); }
    return Success(SlotResponse(View(w, p, input.id, db.state.slots[input.id]), eventId));
  }

  method ReleaseTransition(w: World, db: TxDatabase, p: Principal, input: ReleaseInput) returns (r: Result<Response, Error>)
    modifies db
    ensures Answers(ReleaseBody(w, old(db.state), p, input), db.state, r)
  {
    var eventId := |db.state.events|;
    var released := ReleaseInTransaction(w, db, p, input);
    if released.Failure? { return Failure(released.error); }
    return Success(SlotResponse(View(w, p, input.id, db.state.slots[input.id]), eventId));
  }

  method SaveTransition(w: World, db: TxDatabase, p: Principal, input: SaveInput) returns (r: Result<Response, Error>)
    modifies db
    ensures Answers(SaveBody(w, old(db.state), p, input), db.state, r)
  {
    var eventId := |db.state.events|;
    var saved := SaveInTransaction(w, db, p, input);
    if saved.Failure? { return Failure(saved.error); }
    return Success(ChecklistResponse(ChecklistDTO(saved.value, db.state.checklists[saved.value]), eventId));
  }

  method SubmitTransition(w: World, db: TxDatabase, p: Principal, input: SubmitInput, recipients: seq<(string, string)>)
    returns (r: Result<Response, Error>)
    modifies db
    ensures Answers(SubmitBody(w, old(db.state), p, input, recipients), db.state, r)
  {
    var eventId := SubmitEventId(db.state, input);
    var submitted := SubmitInTransaction(w, db, p, input, recipients);
    if submitted.Failure? { return Failure(submitted.error); }
    return Success(SubmitResponse(ChecklistDTO(input.id, db.state.checklists[input.id]), submitted.value, eventId));
  }

  method UpdateTransition(w: World, db: TxDatabase, p: Principal, input: UpdateInput) returns (r: Result<Response, Error>)
    modifies db
    ensures Answers(UpdateBody(w, old(db.state), p, input), db.state, r)
  {
    var version := EditInTransaction(w, db, p, input);
    if version.Failure? { return Failure(version.error); }
    return Success(ProjectResponse(input.id, version.value));
  }

  method DeleteTransition(w: World, db: TxDatabase, p: Principal, input: DeleteInput) returns (r: Result<Response, Error>)
    modifies db
    ensures Answers(DeleteBody(w, old(db.state), p, input), db.state, r)
  {
    var eventId := |db.state.events|;
    var deleted := DeleteInTransaction(w, db, p, input);
    if deleted.Failure? { return Failure(deleted.error); }
    return Success(DeleteResponse(eventId));
  }

  method SetLinkTransition(w: World, db: TxDatabase, p: Principal, input: LinkInput) returns (r: Result<Response, Error>)
    modifies db
    ensures Answers(SetLinkBody(w, old(db.state), p, input), db.state, r)
  {
    var version := SetLinkInTransaction(w, db, p, input);
    if version.Failure? { return Failure(version.error); }
    return Success(LinkResponse(input.id, input.projectId, version.value));
  }

  method ApplyTransition(w: World, db: TxDatabase, p: Principal, rows: seq<ApplyRow>, plan: map<int, PlanRow>,
                         seen: map<int, ProjectRow>) returns (r: Result<Response, Error>)
    modifies db
    ensures Answers(ApplyBody(w, old(db.state), p, rows, plan, seen), db.state, r)
  {
    var applied := ApplyInTransaction(w, db, p, rows, plan, seen);
    if applied.Failure? { return Failure(applied.error); }
    return Success(ImportResponse(applied.value.0, applied.value.1));
  }

  method LinkingTransition(db: TxDatabase, plan: LinkPlan) returns (r: Result<Response, Error>)
    modifies db
    ensures Answers(LinkingBody(old(db.state), plan), db.state, r)
  {
    var result := AutoLink(db, Alone(), plan, false);
    return Success(LinkingResponse(result));
  }

  method CalendarTransition(w: World, db: TxDatabase, call: Call) returns (r: Result<Response, Error>)
    requires OfCalendar(call.request)
    modifies db
    ensures Answers(CalendarBody(w, old(db.state), call), db.state, r)
  {
    match call.request
    case Book(input) => r := BookTransition(w, db, call.actor, input);
    case Release(input) => r := ReleaseTransition(w, db, call.actor, input);
    case Save(input) => r := SaveTransition(w, db, call.actor, input);
    case Submit(input) => r := SubmitTransition(w, db, call.actor, input, call.recipients);
  }

  method ProjectTransition(w: World, db: TxDatabase, call: Call) returns (r: Result<Response, Error>)
    requires !OfCalendar(call.request)
    modifies db
    ensures Answers(ProjectBody(w, old(db.state), call), db.state, r)
  {
    match call.request
    case UpdateProject(input) => r := UpdateTransition(w, db, call.actor, input);
    case DeleteProject(input) => r := DeleteTransition(w, db, call.actor, input);
    case SetLink(input) => r := SetLinkTransition(w, db, call.actor, input);
    case ApplyRegister(rows) => r := ApplyTransition(w, db, call.actor, rows, call.plan, call.seen);
    case LinkReports => r := LinkingTransition(db, call.linking);
  }

  /** The discipline every service shares: claim, transition, complete, commit; anything thrown rolls everything back. */
  method Handle(w: World, db: TxDatabase, call: Call) returns (outcome: Outcome)
    modifies db
    ensures (db.state, outcome) == Exec(Services(w), old(db.state), call)
  {
    var refusal := Precheck(w, call.actor, call.request);
    if refusal.Some? { return Failed(refusal.value); }
    var before := db.state;
    var request := CanonicalRequest(w, call.request);
    var claim := db.ClaimIdempotency(call.actor.id, call.key, request);
    match claim
    case Mismatch => return Failed(KeyReuse);
    case Replay(response) => return Done(response, true);
    case New =>
      var result: Result<Response, Error>;
      if OfCalendar(call.request) {
        result := CalendarTransition(w, db, call);
      } else {
        result := ProjectTransition(w, db, call);
      }
      if result.Failure? {
        db.Rollback(before);
        return Failed(result.error);
      }
      db.CompleteIdempotency(call.actor.id, call.key, request, result.value);
      return Done(result.value, false);
  }
}
