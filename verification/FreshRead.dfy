/**
 * Shared loads of which none answers with a value from before the question (server/infra/freshRead.ts), as a machine of
 * asynchronous steps.
 *
 * Between two steps of the event loop exactly one of these runs: a caller reads, the clock advances, the load in flight
 * settles, the `clear` reaction of a settled load runs, or the queued continuation starts its load. The reactions may run
 * in any order, so everything proved here holds for the order JavaScript picks and for every other one.
 */
module FreshRead {
  import opened Wrappers

  datatype LoadStatus = InFlight | Loaded | Failed

  /** One call of `load`: the clock reading recorded for it, how it stands, and whether its `clear` reaction has run. */
  datatype Load = Load(startedAt: int, status: LoadStatus, cleared: bool)

  /** One promise stored in `queued`: still waiting, or settled by adopting the promise of load `load`. */
  datatype Ticket = Waiting(on: Option<nat>) | Started(load: nat)

  /** What a caller was handed: the promise of a running load, or the queued promise. */
  datatype Handle = OfLoad(load: nat) | OfTicket(ticket: nat)

  datatype Request = Request(after: int, handle: Handle)

  /** The object's fields (`running`, `queued`) with every promise it ever made and every read it ever answered. */
  datatype State = State(
    now: int, loads: seq<Load>, tickets: seq<Ticket>, requests: seq<Request>,
    running: Option<nat>, queued: Option<nat>)

  datatype Step = Read(after: int) | Tick(dt: nat) | Settle(ok: bool) | Clear(load: nat) | Fire(throws: bool)

  function Initial(now: int): State {
    State(now, [], [], [], None, None)
  }

  /** The load in flight, if `running` names one. */
  predicate Running(s: State) {
    s.running.Some? && s.running.value < |s.loads| && s.loads[s.running.value].status.InFlight?
  }

  /** The queued continuation may run once the promise it waits on has settled (at once when there was none). */
  predicate CanFire(s: State) {
    s.queued.Some? && s.queued.value < |s.tickets| && s.tickets[s.queued.value].Waiting? &&
    (s.tickets[s.queued.value].on.Some? ==>
       s.tickets[s.queued.value].on.value < |s.loads| && !s.loads[s.tickets[s.queued.value].on.value].status.InFlight?)
  }

  predicate Enabled(s: State, step: Step) {
    match step
    case Read(after) => after <= s.now
    case Tick(_) => true
    case Settle(_) => Running(s)
    case Clear(l) => l < |s.loads| && !s.loads[l].status.InFlight? && !s.loads[l].cleared
    case Fire(_) => CanFire(s)
  }

  /** The promise a read hands out. */
  function ReadHandle(s: State, after: int): Handle {
    if s.running.Some? && s.running.value < |s.loads| && s.loads[s.running.value].startedAt >= after then
      OfLoad(s.running.value)
    else if s.queued.Some? then OfTicket(s.queued.value)
    else OfTicket(|s.tickets|)
  }

  function Next(s: State, step: Step): State
    requires Enabled(s, step)
  {
    match step
    case Tick(dt) => s.(now := s.now + dt)
    case Read(after) =>
      var h := ReadHandle(s, after);
      var asked := s.(requests := s.requests + [Request(after, h)]);
      if h == OfTicket(|s.tickets|) && s.queued.None? then
        asked.(tickets := s.tickets + [Waiting(s.running)], queued := Some(|s.tickets|))
      else
        asked
    case Settle(ok) =>
      var l := s.running.value;
      s.(loads := s.loads[l := s.loads[l].(status := if ok then Loaded else Failed)])
    case Clear(l) =>
      s.(loads := s.loads[l := s.loads[l].(cleared := true)],
         running := if s.running == Some(l) then None else s.running)
    case Fire(throws) =>
      // `load` is called first and the clock read afterwards; a load that throws at once never becomes `running`
      var t := s.queued.value;
      var load := if throws then Load(s.now, Failed, true) else Load(s.now, InFlight, false);
      s.(loads := s.loads + [load], tickets := s.tickets[t := Started(|s.loads|)],
         running := if throws then s.running else Some(|s.loads|), queued := None)
  }

  predicate Allowed(s: State, steps: seq<Step>)
    decreases |steps|
  {
    |steps| == 0 || (Enabled(s, steps[0]) && Allowed(Next(s, steps[0]), steps[1..]))
  }

  function Run(s: State, steps: seq<Step>): State
    requires Allowed(s, steps)
    decreases |steps|
  {
    if |steps| == 0 then s else Run(Next(s, steps[0]), steps[1..])
  }

  // ---- what every reachable state keeps ------------------------------------------------------------------------------

  /** Every load that is not the one `running` names has settled; so at most one is in flight. */
  ghost predicate OneInFlight(s: State) {
    && (s.running.Some? ==> s.running.value < |s.loads|)
    && (forall l :: 0 <= l < |s.loads| && s.loads[l].status.InFlight? ==> s.running == Some(l) && !s.loads[l].cleared)
    && (s.running.Some? ==> !s.loads[s.running.value].cleared)
  }

  /** Every promise but the queued one has started its load, and the queued one waits on a load that exists. */
  ghost predicate OneQueued(s: State) {
    && (s.queued.Some? ==> s.queued.value < |s.tickets| && s.tickets[s.queued.value].Waiting?)
    && (forall t :: 0 <= t < |s.tickets| && s.tickets[t].Waiting? ==>
          s.queued == Some(t) &&
          (s.tickets[t].on.Some? ==> s.tickets[t].on.value < |s.loads|) &&
          (Running(s) ==> s.tickets[t].on == s.running))
    && (forall t :: 0 <= t < |s.tickets| && s.tickets[t].Started? ==> s.tickets[t].load < |s.loads|)
  }

  ghost predicate Fresh(s: State) {
    && (forall l :: 0 <= l < |s.loads| ==> s.loads[l].startedAt <= s.now)
    && (forall r :: 0 <= r < |s.requests| ==> FreshRequest(s, s.requests[r]))
  }

  /** A read was handed a load recorded no earlier than it asked for, or a promise whose load starts no earlier than now. */
  ghost predicate FreshRequest(s: State, r: Request) {
    r.after <= s.now &&
    match r.handle
    case OfLoad(l) => l < |s.loads| && s.loads[l].startedAt >= r.after
    case OfTicket(t) => t < |s.tickets| && (s.tickets[t].Started? ==>
                          s.tickets[t].load < |s.loads| && s.loads[s.tickets[t].load].startedAt >= r.after)
  }

  ghost predicate Invariant(s: State) {
    OneInFlight(s) && OneQueued(s) && Fresh(s)
  }

  lemma StepKeepsOneInFlight(s: State, step: Step)
    requires OneInFlight(s) && OneQueued(s) && Enabled(s, step)
    ensures OneInFlight(Next(s, step))
  {
  }

  lemma StepKeepsOneQueued(s: State, step: Step)
    requires OneInFlight(s) && OneQueued(s) && Enabled(s, step)
    ensures OneQueued(Next(s, step))
  {
  }

  lemma StepKeepsFresh(s: State, step: Step)
    requires Invariant(s) && Enabled(s, step)
    ensures Fresh(Next(s, step))
  {
    var n := Next(s, step);
    forall r | 0 <= r < |n.requests| ensures FreshRequest(n, n.requests[r]) {
      if r < |s.requests| { assert FreshRequest(s, s.requests[r]); }
    }
  }

  lemma StepKeepsInvariant(s: State, step: Step)
    requires Invariant(s) && Enabled(s, step)
    ensures Invariant(Next(s, step))
  {
    StepKeepsOneInFlight(s, step);
    StepKeepsOneQueued(s, step);
    StepKeepsFresh(s, step);
  }

  lemma {:induction false} RunKeepsInvariant(s: State, steps: seq<Step>)
    requires Invariant(s) && Allowed(s, steps)
    ensures Invariant(Run(s, steps))
    decreases |steps|
  {
    if |steps| > 0 {
      StepKeepsInvariant(s, steps[0]);
      RunKeepsInvariant(Next(s, steps[0]), steps[1..]);
    }
  }

  /** The load whose outcome a read receives, once there is one. */
  function AnsweringLoad(s: State, r: Request): Option<nat> {
    match r.handle
    case OfLoad(l) => Some(l)
    case OfTicket(t) => if t < |s.tickets| && s.tickets[t].Started? then Some(s.tickets[t].load) else None
  }

  predicate Answered(s: State, r: Request) {
    AnsweringLoad(s, r).Some? && AnsweringLoad(s, r).value < |s.loads| &&
    !s.loads[AnsweringLoad(s, r).value].status.InFlight?
  }

  /** The promise of the class: over every run, no read is answered by a load recorded before the read's `after`. */
  lemma NoStaleAnswer(start: int, steps: seq<Step>, r: nat)
    requires Allowed(Initial(start), steps)
    requires r < |Run(Initial(start), steps).requests|
    ensures var s := Run(Initial(start), steps);
            var load := AnsweringLoad(s, s.requests[r]);
            load.Some? ==> load.value < |s.loads| && s.loads[load.value].startedAt >= s.requests[r].after
  {
    RunKeepsInvariant(Initial(start), steps);
    var s := Run(Initial(start), steps);
    assert FreshRequest(s, s.requests[r]);
  }

  /** Over every run at most one load is in flight and at most one promise waits for its load to start. */
  lemma AtMostOneLoadAndOneQueued(start: int, steps: seq<Step>)
    requires Allowed(Initial(start), steps)
    ensures var s := Run(Initial(start), steps);
            && (forall i, j | 0 <= i < |s.loads| && 0 <= j < |s.loads| ::
                  s.loads[i].status.InFlight? && s.loads[j].status.InFlight? ==> i == j)
            && (forall i, j | 0 <= i < |s.tickets| && 0 <= j < |s.tickets| ::
                  s.tickets[i].Waiting? && s.tickets[j].Waiting? ==> i == j)
  {
    RunKeepsInvariant(Initial(start), steps);
  }

  // ---- a burst of reads shares two loads -----------------------------------------------------------------------------

  predicate OnlyReads(steps: seq<Step>) {
    forall i :: 0 <= i < |steps| ==> steps[i].Read?
  }

  /** The queued promise a burst starting in `s` shares: the one already there, or the one its first late read makes. */
  function SharedTicket(s: State): nat {
    if s.queued.Some? then s.queued.value else |s.tickets|
  }

  /**
   * Reads that arrive with nothing happening in between, however many and whatever they ask for, are all handed the running
   * load or one and the same queued promise, and start no load themselves.
   */
  lemma {:induction false} BurstSharesTwoLoads(s: State, burst: seq<Step>)
    requires Invariant(s) && Allowed(s, burst) && OnlyReads(burst)
    ensures var e := Run(s, burst);
            && |e.requests| == |s.requests| + |burst| && e.loads == s.loads && e.running == s.running
            && (e.queued == s.queued || e.queued == Some(SharedTicket(s)))
            && (forall r :: |s.requests| <= r < |e.requests| ==>
                  (s.running.Some? && e.requests[r].handle == OfLoad(s.running.value)) ||
                  e.requests[r].handle == OfTicket(SharedTicket(s)))
            && e.requests[..|s.requests|] == s.requests
    decreases |burst|
  {
    if |burst| > 0 {
      StepKeepsInvariant(s, burst[0]);
      var n := Next(s, burst[0]);
      BurstSharesTwoLoads(n, burst[1..]);
      var e := Run(n, burst[1..]);
      assert n.requests == e.requests[..|n.requests|];
      forall r | |s.requests| <= r < |e.requests|
        ensures (s.running.Some? && e.requests[r].handle == OfLoad(s.running.value)) ||
                e.requests[r].handle == OfTicket(SharedTicket(s))
      {
        if r == |s.requests| { assert e.requests[r] == n.requests[r]; }
      }
      assert e.requests[..|s.requests|] == n.requests[..|s.requests|];
    }
  }

  /** Loads cost what settles: the loads ever started are at most one more than the loads that have ended. */
  ghost function Ended(loads: seq<Load>): nat {
    if |loads| == 0 then 0 else Ended(loads[..|loads| - 1]) + if loads[|loads| - 1].status.InFlight? then 0 else 1
  }

  lemma {:induction false} EndedBelow(loads: seq<Load>, live: nat)
    requires forall l :: 0 <= l < |loads| && loads[l].status.InFlight? ==> l == live
    ensures |loads| <= Ended(loads) + 1
    ensures live >= |loads| ==> |loads| == Ended(loads)
  {
    if |loads| > 0 { EndedBelow(loads[..|loads| - 1], live); }
  }

  lemma StartedLoadsAreBounded(start: int, steps: seq<Step>)
    requires Allowed(Initial(start), steps)
    ensures var s := Run(Initial(start), steps); |s.loads| <= Ended(s.loads) + 1
  {
    RunKeepsInvariant(Initial(start), steps);
    var s := Run(Initial(start), steps);
    EndedBelow(s.loads, if s.running.Some? then s.running.value else 0);
  }

  // ---- every read is answered ----------------------------------------------------------------------------------------

  /** Steps the loader and the event loop take on their own, with no new read and no passing of time. */
  predicate Internal(step: Step) {
    step.Settle? || step.Clear? || step.Fire?
  }

  ghost function Uncleared(loads: seq<Load>): nat {
    if |loads| == 0 then 0 else Uncleared(loads[..|loads| - 1]) + if loads[|loads| - 1].cleared then 0 else 1
  }

  lemma {:induction false} UnclearedAfter(loads: seq<Load>, i: nat, l: Load)
    requires i < |loads|
    ensures Uncleared(loads[i := l]) + (if loads[i].cleared then 0 else 1) == Uncleared(loads) + (if l.cleared then 0 else 1)
  {
    var n := |loads| - 1;
    if i < n {
      assert loads[i := l][..n] == loads[..n][i := l];
      UnclearedAfter(loads[..n], i, l);
    } else {
      assert loads[i := l][..n] == loads[..n];
    }
  }

  /** What is still to be done: a settle, a clear per load, and two more of each for a load that is yet to start. */
  ghost function Pending(s: State): nat {
    (if s.queued.Some? then 3 else 0) + (if Running(s) then 1 else 0) + Uncleared(s.loads)
  }

  lemma InternalStepsRunOut(s: State, step: Step)
    requires Invariant(s) && Enabled(s, step) && Internal(step)
    ensures Pending(Next(s, step)) < Pending(s)
    ensures Next(s, step).requests == s.requests
  {
    var n := Next(s, step);
    match step
    case Settle(ok) =>
      var l := s.running.value;
      UnclearedAfter(s.loads, l, n.loads[l]);
    case Clear(l) =>
      UnclearedAfter(s.loads, l, n.loads[l]);
    case Fire(throws) =>
      assert n.loads[..|s.loads|] == s.loads;
  }

  ghost predicate Quiescent(s: State) {
    forall step :: Internal(step) ==> !Enabled(s, step)
  }

  lemma QuiescentAnswersAll(s: State, r: nat)
    requires Invariant(s) && Quiescent(s) && r < |s.requests|
    ensures Answered(s, s.requests[r])
  {
    assert FreshRequest(s, s.requests[r]);
    assert !Enabled(s, Settle(true)) && !Enabled(s, Fire(false));
  }

  /** A load settles, well or badly, or the queued continuation runs: what a read waits for. */
  predicate Turn(step: Step) {
    step.Settle? || step.Fire?
  }

  function Turns(steps: seq<Step>): nat
    decreases |steps|
  {
    if |steps| == 0 then 0 else (if Turn(steps[0]) then 1 else 0) + Turns(steps[1..])
  }

  /** How many turns a read may still have to wait for: its load, the start of that load, the load in flight before it. */
  function Owed(s: State, r: Request): nat {
    var load := AnsweringLoad(s, r);
    if load.Some? then if load.value < |s.loads| && s.loads[load.value].status.InFlight? then 1 else 0
    else if CanFire(s) then 2
    else 3
  }

  lemma OwedFalls(s: State, step: Step, r: nat)
    requires Invariant(s) && Enabled(s, step) && r < |s.requests|
    ensures var n, q := Next(s, step), s.requests[r];
            && r < |n.requests| && n.requests[r] == q
            && Owed(n, q) <= Owed(s, q) && (Turn(step) && Owed(s, q) > 0 ==> Owed(n, q) < Owed(s, q))
  {
    assert FreshRequest(s, s.requests[r]);
  }

  lemma OwedNothing(s: State, r: nat)
    requires Invariant(s) && r < |s.requests|
    ensures Owed(s, s.requests[r]) == 0 <==> Answered(s, s.requests[r])
  {
    assert FreshRequest(s, s.requests[r]);
  }

  lemma {:induction false} TurnsPayOff(s: State, steps: seq<Step>, r: nat)
    requires Invariant(s) && Allowed(s, steps) && r < |s.requests|
    ensures var e, q := Run(s, steps), s.requests[r];
            && r < |e.requests| && e.requests[r] == q
            && (Owed(e, q) == 0 || Owed(e, q) + Turns(steps) <= Owed(s, q))
    decreases |steps|
  {
    if |steps| > 0 {
      StepKeepsInvariant(s, steps[0]);
      OwedFalls(s, steps[0], r);
      TurnsPayOff(Next(s, steps[0]), steps[1..], r);
    }
  }

  /**
   * No read starves, however busy the loader is: after any run of steps, with new reads, passing time and reactions anywhere
   * in it, that holds three turns, every read made before it has its answer.
   */
  lemma EveryReadIsAnswered(s: State, steps: seq<Step>, r: nat)
    requires Invariant(s) && Allowed(s, steps) && Turns(steps) >= 3 && r < |s.requests|
    ensures var e := Run(s, steps);
            r < |e.requests| && e.requests[r] == s.requests[r] && Answered(e, e.requests[r])
  {
    TurnsPayOff(s, steps, r);
    RunKeepsInvariant(s, steps);
    OwedNothing(Run(s, steps), r);
  }

  /** And while a read waits, the turn it waits for can come: a load is in flight, or the queued continuation may run. */
  lemma WaitingMeansATurnIsDue(s: State, r: nat)
    requires Invariant(s) && r < |s.requests| && !Answered(s, s.requests[r])
    ensures Enabled(s, Settle(true)) || Enabled(s, Fire(false))
  {
    assert FreshRequest(s, s.requests[r]);
  }

  /**
   * When nothing new arrives, the machine stops after at most `Pending(s)` steps whatever order they run in, and where it
   * stops every read ever made has its answer.
   */
  lemma {:induction false} StopsWithEveryReadAnswered(s: State, steps: seq<Step>)
    requires Invariant(s) && Allowed(s, steps) && forall i :: 0 <= i < |steps| ==> Internal(steps[i])
    ensures |steps| <= Pending(s)
    ensures var e := Run(s, steps);
            e.requests == s.requests &&
            (Quiescent(e) ==> forall r :: 0 <= r < |e.requests| ==> Answered(e, e.requests[r]))
    decreases |steps|
  {
    if |steps| > 0 {
      StepKeepsInvariant(s, steps[0]);
      InternalStepsRunOut(s, steps[0]);
      StopsWithEveryReadAnswered(Next(s, steps[0]), steps[1..]);
    } else if Quiescent(s) {
      forall r | 0 <= r < |s.requests| ensures Answered(s, s.requests[r]) { QuiescentAnswersAll(s, r); }
    }
  }

  // ---- the class -----------------------------------------------------------------------------------------------------

  /** The object: its fields as the source reassigns them, with the promise table the event loop keeps for it. */
  class FreshReader {
    var now: int
    var loads: seq<Load>
    var tickets: seq<Ticket>
    var requests: seq<Request>
    var running: Option<nat>
    var queued: Option<nat>

    ghost function Abstract(): State reads this {
      State(now, loads, tickets, requests, running, queued)
    }

    constructor (start: int)
      ensures Abstract() == Initial(start)
    {
      now, loads, tickets, requests, running, queued := start, [], [], [], None, None;
    }

    method Read(after: int) returns (handle: Handle)
      requires Enabled(Abstract(), Step.Read(after)) && Invariant(Abstract())
      modifies this
      ensures Abstract() == Next(old(Abstract()), Step.Read(after)) && Invariant(Abstract())
      ensures requests == old(requests) + [Request(after, handle)]
    {
      StepKeepsInvariant(Abstract(), Step.Read(after));
      if running.Some? && loads[running.value].startedAt >= after {
        handle := OfLoad(running.value);
      } else {
        if queued.None? {
          tickets := tickets + [Waiting(running)];
          queued := Some(|tickets| - 1);
        }
        handle := OfTicket(queued.value);
      }
      requests := requests + [Request(after, handle)];
    }

    /** The queued continuation: forget the queued promise, then `start`. */
    method FireQueued(throws: bool)
      requires Enabled(Abstract(), Fire(throws)) && Invariant(Abstract())
      modifies this
      ensures Abstract() == Next(old(Abstract()), Fire(throws)) && Invariant(Abstract())
    {
      StepKeepsInvariant(Abstract(), Fire(throws));
      var t := queued.value;
      queued := None;
      tickets := tickets[t := Started(|loads|)];
      if throws {
        loads := loads + [Load(now, Failed, true)];
      } else {
        loads := loads + [Load(now, InFlight, false)];
        running := Some(|loads| - 1);
      }
    }

    /** The `clear` reaction: `running` is dropped only when it still is this load's entry. */
    method ClearLoad(load: nat)
      requires Enabled(Abstract(), Clear(load)) && Invariant(Abstract())
      modifies this
      ensures Abstract() == Next(old(Abstract()), Clear(load)) && Invariant(Abstract())
    {
      StepKeepsInvariant(Abstract(), Clear(load));
      loads := loads[load := loads[load].(cleared := true)];
      if running == Some(load) { running := None; }
    }
  }
}
