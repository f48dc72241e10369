/**
  The life of one board session of src/coordinator/session.ts: starting, stopping, destroying, and
  runtime servers joining and leaving while the session awaits an answer from one of them.

  What is done to the runtimes goes through one queue, one piece at a time (`serial`; see SerialWork).
  A piece is cut at its awaits. What the session asks of a server is written down in `asked`.
 */
module SessionLifecycle {

  type Id = string

  // A server's connection, and whether it said the runtime is still running there.
  datatype Server = Server(connection: nat, runtimeExists: bool)

  datatype Work = WorkStart | WorkJoin(id: Id, server: Server) | WorkStop | WorkDestroy

  datatype Op = Describe | Provision | SetState | Remove
  datatype Ask = Ask(op: Op, id: Id)

  // The await a piece of work is at. `rest` is what a start still goes through after this runtime.
  datatype Stage = PickingUp | Building | Describing | Capturing
  datatype Doing =
    | Idle
    | BringingUp(id: Id, server: Server, stage: Stage, rest: seq<Id>)
    | Removing(id: Id, residue: bool)
    | TearingDown(asked: set<Id>, unreleased: set<Id>, destroying: bool)

  datatype State = State(
    required: seq<Id>,            // the board's remote runtimes, in chain order
    connected: map<Id, Server>,   // what participants.get answers
    open: set<nat>,               // connections that have not closed, those that were replaced among them
    queue: seq<Work>,
    doing: Doing,
    stopped: bool,
    destroyed: bool,
    subscribed: bool,
    capture: bool,
    live: set<Id>,
    built: set<Id>,
    pendingRelease: set<Id>,
    residue: set<Id>,
    asked: multiset<Ask>,
    // History, kept for the statements below: what this run of the board holds (built since the last
    // start, or held over from before it), and what a stop since then failed to release.
    held: set<Id>,
    unreleased: set<Id>,
    past: Past)

  // More of it: which runtime each connection there ever was is for, which were asked to provision it, and
  // how many starts began.
  datatype Past = Past(met: map<nat, Id>, provisioned: multiset<nat>, begun: nat)

  ghost predicate Initial(s: State) {
    && s.queue == [] && s.doing == Idle && !s.destroyed && !s.subscribed && !s.capture
    && s.live == {} && s.built == {} && s.pendingRelease == {} && s.residue == {}
    && s.held == {} && s.unreleased == {} && s.asked == multiset{}
    && s.past.provisioned == multiset{} && s.past.begun == 0 && Known(s)
  }

  // A connection is one runtime's; a runtime's current one has not closed.
  ghost predicate Known(s: State) {
    && s.open <= s.past.met.Keys
    && (forall id :: id in s.connected ==> IsFor(s, s.connected[id], id) && s.connected[id].connection in s.open)
    && (forall i :: 0 <= i < |s.queue| && s.queue[i].WorkJoin? ==> IsFor(s, s.queue[i].server, s.queue[i].id))
    && (s.doing.BringingUp? ==> IsFor(s, s.doing.server, s.doing.id))
    && (forall c :: c in s.past.provisioned ==> c in s.past.met)
  }

  ghost predicate IsFor(s: State, server: Server, id: Id) {
    server.connection in s.past.met && s.past.met[server.connection] == id
  }

  // ---------------------------------------------------------------- pieces of work

  function Asking(s: State, op: Op, id: Id, doing: Doing): State {
    s.(asked := s.asked + multiset{Ask(op, id)}, doing := doing)
  }

  // A built runtime whose server says it runs is described, any other provisioned.
  function BringUp(s: State, id: Id, server: Server, rest: seq<Id>): State {
    if id in s.built && server.runtimeExists then
      Asking(s, Describe, id, BringingUp(id, server, PickingUp, rest))
    else
      Asking(s.(past := s.past.(provisioned := s.past.provisioned + multiset{server.connection})), Provision, id,
             BringingUp(id, server, Building, rest))
  }

  // The loop of start: the next required runtime somebody is connected for.
  function Continue(s: State, rest: seq<Id>): State
    decreases |rest|
  {
    if rest == [] then s.(doing := Idle)
    else if rest[0] in s.connected then BringUp(s, rest[0], s.connected[rest[0]], rest[1..])
    else Continue(s, rest[1..])
  }

  function GoesLive(s: State, id: Id, rest: seq<Id>): State {
    Continue(s.(live := s.live + {id}), rest)
  }

  function Fails(s: State, id: Id, rest: seq<Id>): State {
    Continue(s.(live := s.live - {id}), rest)
  }

  // An answer to what bringUp asked: whether it came, and whether it listed the services.
  function Answered(s: State, ok: bool, services: bool): State
    requires s.doing.BringingUp?
  {
    var BringingUp(id, server, stage, rest) := s.doing;
    match stage
    case PickingUp => if ok then GoesLive(s, id, rest) else Fails(s, id, rest)
    case Building =>
      if !ok then Fails(s, id, rest)
      else if services then Built(s, id, server, rest)
      else Asking(s, Describe, id, s.doing.(stage := Describing))
    case Describing => if ok then Built(s, id, server, rest) else Fails(s, id, rest)
    // A failure to turn capturing on again is swallowed.
    case Capturing => GoesLive(s, id, rest)
  }

  function HasBuilt(s: State, id: Id): State {
    s.(built := s.built + {id}, held := s.held + {id})
  }

  function Built(s: State, id: Id, server: Server, rest: seq<Id>): State {
    var b := HasBuilt(s, id);
    if s.capture then Asking(b, SetState, id, BringingUp(id, server, Capturing, rest)) else GoesLive(b, id, rest)
  }

  function Begun(s: State): State {
    s.(stopped := false, residue := {}, pendingRelease := {}, subscribed := true, held := s.built, unreleased := {},
       past := s.past.(begun := s.past.begun + 1))
  }

  function Starts(s: State): State {
    Continue(Begun(s), s.required)
  }

  // Releasing asks every connected runtime at once; one nobody is connected for cannot be released.
  function TearsDown(s: State, destroying: bool): State {
    var away := set id | id in s.built && id !in s.connected;
    Torn(ReleaseAsked(s, away, destroying), s.built - away, away, destroying)
  }

  function ReleaseAsked(s: State, away: set<Id>, destroying: bool): State {
    s.(destroyed := s.destroyed || destroying,
       subscribed := s.subscribed && !destroying,
       pendingRelease := s.pendingRelease + away,
       unreleased := s.unreleased + away,
       asked := s.asked + Asks(s.built - away))
  }

  // Each is asked for its removal, once.
  function Asks(ids: set<Id>): multiset<Ask> {
    multiset(set id | id in ids :: Ask(Remove, id))
  }

  // Once every removal was answered; a session that was destroyed is left reporting the run it was.
  function Torn(s: State, asked: set<Id>, unreleased: set<Id>, destroying: bool): State {
    if asked != {} then s.(doing := TearingDown(asked, unreleased, destroying))
    else if destroying then s.(doing := Idle)
    else s.(doing := Idle, live := {}, built := {}, residue := unreleased, stopped := true)
  }

  function Released(s: State, id: Id, ok: bool): State
    requires s.doing.TearingDown?
  {
    var TearingDown(asked, unreleased, destroying) := s.doing;
    if ok then
      Torn(s.(pendingRelease := s.pendingRelease - {id}), asked - {id}, unreleased, destroying)
    else
      Torn(s.(pendingRelease := s.pendingRelease + {id}, unreleased := s.unreleased + {id}),
           asked - {id}, unreleased + {id}, destroying)
  }

  function Joined(s: State, id: Id, server: Server): State {
    if s.destroyed then s
    else if id !in s.required then
      if server.runtimeExists then Asking(s, Remove, id, Removing(id, false)) else s
    else if s.stopped then
      if server.runtimeExists && id in s.pendingRelease then Asking(s, Remove, id, Removing(id, true)) else s
    else BringUp(s, id, server, [])
  }

  function Removed(s: State, ok: bool): State
    requires s.doing.Removing?
  {
    var Removing(id, residue) := s.doing;
    if ok && residue then
      s.(doing := Idle, pendingRelease := s.pendingRelease - {id}, residue := s.residue - {id})
    else s.(doing := Idle)
  }

  function Take(s: State): State
    requires s.queue != [] && s.doing.Idle?
  {
    var t := s.(queue := s.queue[1..]);
    match s.queue[0]
    case WorkStart => Starts(t)
    case WorkJoin(id, server) => Joined(t, id, server)
    case WorkStop => TearsDown(t, false)
    case WorkDestroy => TearsDown(t, true)
  }

  // ---------------------------------------------------------------- runs

  datatype Step =
    | AskStart | AskStop | AskDestroy
    | Joins(id: Id, server: Server)
    | Leaves(id: Id)
    | Closes(connection: nat)
    | Takes
    | Answers(ok: bool, services: bool)
    | Releases(id: Id, ok: bool)
    | Removes(ok: bool)
    | SwitchCapture(on: bool)

  // Asked to close by a newer connection, and not closed yet.
  function Replaced(s: State): set<nat> {
    s.open - set id | id in s.connected :: s.connected[id].connection
  }

  // Connections are new ones, and one answers what it was asked until it closes. A server that leaves is the
  // current one, whose connection closed.
  predicate Enabled(s: State, step: Step) {
    match step
    case Joins(_, server) => server.connection !in s.past.met
    case Leaves(id) => id in s.connected
    case Closes(c) => c in Replaced(s)
    case Takes => s.queue != [] && s.doing.Idle?
    case Answers(ok, _) => s.doing.BringingUp? && (ok ==> s.doing.server.connection in s.open)
    case Releases(id, _) => s.doing.TearingDown? && id in s.doing.asked
    case Removes(_) => s.doing.Removing?
    case _ => true
  }

  function Next(s: State, step: Step): State
    requires Enabled(s, step)
  {
    match step
    case AskStart => s.(queue := s.queue + [WorkStart])
    case AskStop => s.(queue := s.queue + [WorkStop])
    case AskDestroy => s.(queue := s.queue + [WorkDestroy])
    case Joins(id, server) =>
      s.(connected := s.connected[id := server], open := s.open + {server.connection},
         past := s.past.(met := s.past.met[server.connection := id]),
         queue := if s.subscribed then s.queue + [WorkJoin(id, server)] else s.queue)
    case Leaves(id) =>
      s.(connected := s.connected - {id}, open := s.open - {s.connected[id].connection}, live := if s.subscribed then s.live - {id} else s.live)
    case Closes(c) => s.(open := s.open - {c})
    case Takes => Take(s)
    case Answers(ok, services) => Answered(s, ok, services)
    case Releases(id, ok) => Released(s, id, ok)
    case Removes(ok) => Removed(s, ok)
    case SwitchCapture(on) => s.(capture := on)
  }

  ghost predicate IsRun(s: State, steps: seq<Step>)
    decreases |steps|
  {
    steps == [] || (Enabled(s, steps[0]) && IsRun(Next(s, steps[0]), steps[1..]))
  }

  ghost function After(s: State, steps: seq<Step>): State
    requires IsRun(s, steps)
    decreases |steps|
  {
    if steps == [] then s else After(Next(s, steps[0]), steps[1..])
  }

  // ---------------------------------------------------------------- what every state keeps

  ghost predicate Inv(s: State) {
    && s.live <= s.built <= s.held
    && s.pendingRelease <= s.unreleased <= s.held
    && (s.stopped ==> s.built == {})
    && (s.doing.BringingUp? ==> !s.stopped && (s.doing.stage.PickingUp? || s.doing.stage.Capturing? ==> s.doing.id in s.built))
    && (s.doing.TearingDown? ==>
          s.doing.asked <= s.built && s.doing.unreleased <= s.built && (s.doing.destroying ==> s.destroyed))
    && (s.doing.Removing? && s.doing.residue ==> s.doing.id in s.unreleased)
  }

  lemma {:induction false} ContinueKeeps(s: State, rest: seq<Id>)
    requires Inv(s.(doing := Idle)) && !s.stopped
    ensures Inv(Continue(s, rest))
    decreases |rest|
  {
    if rest != [] && rest[0] !in s.connected {
      ContinueKeeps(s, rest[1..]);
    }
  }

  lemma {:induction false} AnsweredKeeps(s: State, ok: bool, services: bool)
    requires Inv(s) && s.doing.BringingUp?
    ensures Inv(Answered(s, ok, services))
  {
    var BringingUp(id, server, stage, rest) := s.doing;
    match stage
    case PickingUp => if ok { GoesLiveKeeps(s, id, rest); } else { FailsKeeps(s, id, rest); }
    case Building => if !ok { FailsKeeps(s, id, rest); } else if services { BuiltKeeps(s, id, server, rest); }
    case Describing => if ok { BuiltKeeps(s, id, server, rest); } else { FailsKeeps(s, id, rest); }
    case Capturing => GoesLiveKeeps(s, id, rest);
  }

  lemma {:induction false} GoesLiveKeeps(s: State, id: Id, rest: seq<Id>)
    requires Inv(s) && !s.stopped && id in s.built
    ensures Inv(GoesLive(s, id, rest))
  {
    ContinueKeeps(s.(live := s.live + {id}), rest);
  }

  lemma {:induction false} FailsKeeps(s: State, id: Id, rest: seq<Id>)
    requires Inv(s) && !s.stopped
    ensures Inv(Fails(s, id, rest))
  {
    ContinueKeeps(s.(live := s.live - {id}), rest);
  }

  lemma {:induction false} BuiltKeeps(s: State, id: Id, server: Server, rest: seq<Id>)
    requires Inv(s) && s.doing.BringingUp? && id == s.doing.id
    ensures Inv(Built(s, id, server, rest))
  {
    var b := HasBuilt(s, id);
    ContinueKeeps(b.(live := b.live + {id}), rest);
  }

  lemma {:induction false} TakeKeeps(s: State)
    requires Inv(s) && s.queue != [] && s.doing.Idle?
    ensures Inv(Take(s))
  {
    var t := s.(queue := s.queue[1..]);
    match s.queue[0]
    case WorkStart =>
      ContinueKeeps(Begun(t), s.required);
    case WorkJoin(id, server) =>
    case WorkStop => TearsDownKeeps(t, false);
    case WorkDestroy => TearsDownKeeps(t, true);
  }

  lemma {:induction false} TearsDownKeeps(s: State, destroying: bool)
    requires Inv(s) && s.doing.Idle?
    ensures Inv(TearsDown(s, destroying))
  {
    var away := set id | id in s.built && id !in s.connected;
  }

  lemma {:induction false} ReleasedKeeps(s: State, id: Id, ok: bool)
    requires Inv(s) && s.doing.TearingDown? && id in s.doing.asked
    ensures Inv(Released(s, id, ok))
  {
    var TearingDown(asked, unreleased, destroying) := s.doing;
    if ok {
    } else {
    }
  }

  lemma {:induction false} StepKeeps(s: State, step: Step)
    requires Inv(s) && Enabled(s, step)
    ensures Inv(Next(s, step))
  {
    match step
    case Answers(ok, services) => AnsweredKeeps(s, ok, services);
    case Takes => TakeKeeps(s);
    case Releases(id, ok) => ReleasedKeeps(s, id, ok);
    case _ => EventKeeps(s, step);
  }

  // What is beside the work itself: calls, servers that come and go, and the end of a removal.
  predicate Event(step: Step) {
    !step.Takes? && !step.Answers? && !step.Releases?
  }

  lemma {:induction false} EventKeeps(s: State, step: Step)
    requires Inv(s) && Enabled(s, step) && Event(step)
    ensures Inv(Next(s, step))
  {
  }

  lemma {:induction false} RunKeeps(s: State, steps: seq<Step>)
    requires Inv(s) && IsRun(s, steps)
    ensures Inv(After(s, steps))
    decreases |steps|
  {
    if steps != [] {
      StepKeeps(s, steps[0]);
      RunKeeps(Next(s, steps[0]), steps[1..]);
    }
  }

  // In every run, what is live was built.
  lemma {:induction false} LiveIsBuilt(s: State, steps: seq<Step>)
    requires Initial(s) && IsRun(s, steps)
    ensures After(s, steps).live <= After(s, steps).built
  {
    RunKeeps(s, steps);
  }

  // ---------------------------------------------------------------- removals by a stopped session

  // A stopped session asks for the removal of a runtime its board lists only when that runtime's server
  // joins saying it is still running there, and a stop since the last start failed to release it.
  lemma {:induction false} RemovesOnlyItsOwn(s: State, steps: seq<Step>, step: Step, id: Id)
    requires Initial(s) && IsRun(s, steps) && Enabled(After(s, steps), step)
    requires After(s, steps).stopped && id in After(s, steps).required
    requires Next(After(s, steps), step).asked[Ask(Remove, id)] > After(s, steps).asked[Ask(Remove, id)]
    ensures var n := After(s, steps);
            && step.Takes? && n.queue[0].WorkJoin? && n.queue[0].id == id && n.queue[0].server.runtimeExists
            && id in n.unreleased && id in n.held
  {
    RunKeeps(s, steps);
    var n := After(s, steps);
    match step
    case Takes => TakeRemoves(n, id);
    case Releases(j, ok) => ReleasedAsksNothing(n, j, ok);
    case _ =>
  }

  lemma {:induction false} TakeRemoves(s: State, id: Id)
    requires Inv(s) && s.stopped && id in s.required && s.queue != [] && s.doing.Idle?
    requires Take(s).asked[Ask(Remove, id)] > s.asked[Ask(Remove, id)]
    ensures s.queue[0].WorkJoin? && s.queue[0].id == id && s.queue[0].server.runtimeExists && id in s.pendingRelease
  {
    var t := s.(queue := s.queue[1..]);
    match s.queue[0]
    case WorkStart => ContinueAsks(Begun(t), s.required, Ask(Remove, id));
    case WorkJoin(_, _) =>
    case WorkStop => NothingToRelease(t, false);
    case WorkDestroy => NothingToRelease(t, true);
  }

  lemma NothingToRelease(s: State, destroying: bool)
    requires s.built == {}
    ensures TearsDown(s, destroying).asked == s.asked
  {
    assert s.built - (set id | id in s.built && id !in s.connected) == {};
    assert Asks({}) == multiset{};
    assert (set id | id in s.built && id !in s.connected) == {};
  }

  lemma ReleasedAsksNothing(s: State, id: Id, ok: bool)
    requires s.doing.TearingDown?
    ensures Released(s, id, ok).asked == s.asked
  {
  }

  lemma {:induction false} ContinueAsks(s: State, rest: seq<Id>, a: Ask)
    requires a.op.Remove? || a.op.SetState?
    ensures Continue(s, rest).asked[a] == s.asked[a]
    decreases |rest|
  {
    if rest != [] && rest[0] !in s.connected {
      ContinueAsks(s, rest[1..], a);
    }
  }

  // What was built after the last start was taken up; `so` before the run.
  ghost function BuiltSince(s: State, steps: seq<Step>, so: set<Id>): set<Id>
    requires IsRun(s, steps)
    decreases |steps|
  {
    if steps == [] then so
    else BuiltSince(Next(s, steps[0]), steps[1..],
                    if steps[0].Takes? && s.queue[0].WorkStart? then {} else so + (Next(s, steps[0]).built - s.built))
  }

  // Every start is of a session that was stopped, or never built anything.
  ghost predicate StartsFresh(s: State, steps: seq<Step>)
    requires IsRun(s, steps)
    decreases |steps|
  {
    steps != [] ==>
      && (steps[0].Takes? && s.queue[0].WorkStart? ==> s.built == {})
      && StartsFresh(Next(s, steps[0]), steps[1..])
  }

  lemma {:induction false} ContinueHolds(s: State, rest: seq<Id>)
    ensures Continue(s, rest).built == s.built && Continue(s, rest).held == s.held
    ensures Continue(s, rest).unreleased == s.unreleased && Continue(s, rest).pendingRelease == s.pendingRelease
    decreases |rest|
  {
    if rest != [] && rest[0] !in s.connected {
      ContinueHolds(s, rest[1..]);
    }
  }

  lemma {:induction false} StepHolds(s: State, step: Step)
    requires Inv(s) && Enabled(s, step)
    ensures if step.Takes? && s.queue[0].WorkStart? then Next(s, step).held == s.built
            else Next(s, step).held <= s.held + (Next(s, step).built - s.built)
  {
    match step
    case Answers(ok, services) => AnsweredHolds(s, ok, services);
    case Takes => TakeHolds(s);
    case Releases(id, ok) => ReleasedHolds(s, id, ok);
    case _ =>
  }

  lemma {:induction false} AnsweredHolds(s: State, ok: bool, services: bool)
    requires s.doing.BringingUp? && s.built <= s.held
    ensures Answered(s, ok, services).held <= s.held + (Answered(s, ok, services).built - s.built)
  {
    var BringingUp(id, server, stage, rest) := s.doing;
    var b := HasBuilt(s, id);
    ContinueHolds(s.(live := s.live - {id}), rest);
    ContinueHolds(s.(live := s.live + {id}), rest);
    ContinueHolds(b.(live := b.live + {id}), rest);
  }

  lemma {:induction false} TakeHolds(s: State)
    requires s.queue != [] && s.doing.Idle?
    ensures Take(s).held == if s.queue[0].WorkStart? then s.built else s.held
  {
    ContinueHolds(Begun(s.(queue := s.queue[1..])), s.required);
  }

  lemma {:induction false} ReleasedHolds(s: State, id: Id, ok: bool)
    requires s.doing.TearingDown?
    ensures Released(s, id, ok).held == s.held
  {
  }

  // When every start is of a session that had been stopped, or never started, what this run of the
  // board holds was built since its last start: so a removal a stopped session asks for is of such a
  // runtime.
  lemma {:induction false} HoldsWhatItBuilt(s: State, steps: seq<Step>, so: set<Id>)
    requires Inv(s) && IsRun(s, steps) && StartsFresh(s, steps) && s.held <= so
    ensures After(s, steps).held <= BuiltSince(s, steps, so)
    decreases |steps|
  {
    if steps != [] {
      StepHolds(s, steps[0]);
      StepKeeps(s, steps[0]);
      HoldsWhatItBuilt(Next(s, steps[0]), steps[1..],
                       if steps[0].Takes? && s.queue[0].WorkStart? then {} else so + (Next(s, steps[0]).built - s.built));
    }
  }

  // ---------------------------------------------------------------- started once

  function Queued(queue: seq<Work>): nat {
    multiset(queue)[WorkStart]
  }

  // How many times the session was started, or is about to be.
  function Started(s: State): nat {
    s.past.begun + Queued(s.queue)
  }

  lemma QueueOf(queue: seq<Work>)
    requires queue != []
    ensures Queued(queue) == Queued(queue[1..]) + (if queue[0].WorkStart? then 1 else 0)
  {
    assert queue == [queue[0]] + queue[1..];
  }

  // Going on changes only what is under way, what was asked, and who was asked to provision.
  ghost predicate GoesOn(s: State, n: State) {
    n == s.(doing := n.doing, asked := n.asked, past := s.past.(provisioned := n.past.provisioned))
  }

  lemma {:induction false} ContinueGoesOn(s: State, rest: seq<Id>)
    ensures GoesOn(s, Continue(s, rest))
    decreases |rest|
  {
    if rest != [] && rest[0] !in s.connected {
      ContinueGoesOn(s, rest[1..]);
    }
  }

  // And an answer, moreover, what is live, built and held.
  lemma {:induction false} AnsweredGoesOn(s: State, ok: bool, services: bool)
    requires s.doing.BringingUp?
    ensures var n := Answered(s, ok, services);
            GoesOn(s.(live := n.live, built := n.built, held := n.held), n)
  {
    var BringingUp(id, server, stage, rest) := s.doing;
    if (stage.Building? && ok && services) || (stage.Describing? && ok) {
      BuiltGoesOn(s, id, server, rest);
    } else if !(stage.Building? && ok) {
      GoesLiveGoesOn(s, s, id, rest);
    }
  }

  lemma BuiltGoesOn(s: State, id: Id, server: Server, rest: seq<Id>)
    ensures var n := Built(s, id, server, rest); GoesOn(s.(live := n.live, built := n.built, held := n.held), n)
  {
    GoesLiveGoesOn(s, HasBuilt(s, id), id, rest);
  }

  lemma GoesLiveGoesOn(s: State, t: State, id: Id, rest: seq<Id>)
    requires t == s.(built := t.built, held := t.held)
    ensures var n := GoesLive(t, id, rest); GoesOn(s.(live := n.live, built := n.built, held := n.held), n)
    ensures var n := Fails(t, id, rest); GoesOn(s.(live := n.live, built := n.built, held := n.held), n)
  {
    ContinueGoesOn(t.(live := t.live - {id}), rest);
    ContinueGoesOn(t.(live := t.live + {id}), rest);
  }

  // Releasing changes nothing of whoever is connected or waits.
  ghost predicate LetsGo(s: State, n: State) {
    && n.queue == s.queue && n.connected == s.connected && n.open == s.open && n.past == s.past
    && n.live <= s.live && n.built <= s.built && (n.subscribed ==> s.subscribed) && !n.doing.BringingUp?
  }

  lemma TornGoesOn(s: State, asked: set<Id>, unreleased: set<Id>, destroying: bool)
    ensures LetsGo(s, Torn(s, asked, unreleased, destroying))
  {
  }

  lemma ReleasedGoesOn(s: State, id: Id, ok: bool)
    requires s.doing.TearingDown?
    ensures LetsGo(s, Released(s, id, ok))
  {
    var TearingDown(asked, unreleased, destroying) := s.doing;
    if ok {
      TornGoesOn(s.(pendingRelease := s.pendingRelease - {id}), asked - {id}, unreleased, destroying);
    } else {
      TornGoesOn(s.(pendingRelease := s.pendingRelease + {id}, unreleased := s.unreleased + {id}),
                 asked - {id}, unreleased + {id}, destroying);
    }
  }

  lemma TearsDownGoesOn(s: State, destroying: bool)
    ensures LetsGo(s, TearsDown(s, destroying))
  {
    var away := set id | id in s.built && id !in s.connected;
    TornGoesOn(ReleaseAsked(s, away, destroying), s.built - away, away, destroying);
  }

  // What taking up a piece of work does to whoever is connected or waits; `t` is the session without it.
  ghost predicate TakesUp(s: State, t: State, n: State) {
    && n.queue == t.queue && n.connected == s.connected && n.open == s.open && n.past.met == s.past.met
    && n.past.begun == s.past.begun + (if s.queue != [] && s.queue[0].WorkStart? then 1 else 0) && n.live <= s.live
  }

  lemma {:induction false} TakeBegins(s: State)
    requires s.queue != [] && s.doing.Idle?
    ensures TakesUp(s, s.(queue := s.queue[1..]), Take(s))
  {
    var t := s.(queue := s.queue[1..]);
    match s.queue[0]
    case WorkStart => StartsTakesUp(s, t);
    case WorkJoin(id, server) => JoinedTakesUp(s, t, id, server);
    case WorkStop => TearsDownTakesUp(s, t, false);
    case WorkDestroy => TearsDownTakesUp(s, t, true);
  }

  lemma StartsTakesUp(s: State, t: State)
    requires s.queue != [] && s.queue[0].WorkStart? && t == s.(queue := s.queue[1..])
    ensures TakesUp(s, t, Starts(t))
  {
    ContinueGoesOn(Begun(t), t.required);
  }

  lemma JoinedTakesUp(s: State, t: State, id: Id, server: Server)
    requires s.queue != [] && s.queue[0].WorkJoin? && t == s.(queue := s.queue[1..])
    ensures TakesUp(s, t, Joined(t, id, server))
  {
  }

  lemma TearsDownTakesUp(s: State, t: State, destroying: bool)
    requires s.queue != [] && !s.queue[0].WorkStart? && t == s.(queue := s.queue[1..])
    ensures TakesUp(s, t, TearsDown(t, destroying))
  {
    TearsDownGoesOn(t, destroying);
  }

  lemma {:induction false} StartsAdd(s: State, step: Step)
    requires Enabled(s, step)
    ensures Started(Next(s, step)) == Started(s) + (if step.AskStart? then 1 else 0)
  {
    match step
    case Answers(ok, services) => AnsweredStarts(s, ok, services);
    case Takes => TakeStarts(s);
    case Releases(id, ok) => ReleasedStarts(s, id, ok);
    case _ =>
  }

  lemma AnsweredStarts(s: State, ok: bool, services: bool)
    requires s.doing.BringingUp?
    ensures Started(Answered(s, ok, services)) == Started(s)
  {
    AnsweredGoesOn(s, ok, services);
  }

  lemma ReleasedStarts(s: State, id: Id, ok: bool)
    requires s.doing.TearingDown?
    ensures Started(Released(s, id, ok)) == Started(s)
  {
    ReleasedGoesOn(s, id, ok);
  }

  lemma TakeStarts(s: State)
    requires s.queue != [] && s.doing.Idle?
    ensures Started(Take(s)) == Started(s)
  {
    QueueOf(s.queue);
    TakeBegins(s);
  }

  lemma {:induction false} StartsGrow(s: State, steps: seq<Step>)
    requires IsRun(s, steps)
    ensures Started(s) <= Started(After(s, steps))
    decreases |steps|
  {
    if steps != [] {
      StartsAdd(s, steps[0]);
      StartsGrow(Next(s, steps[0]), steps[1..]);
    }
  }

  // Until it starts, a session hears of nobody and builds nothing.
  ghost predicate Unstarted(s: State) {
    s.past.begun == 0 ==>
      && !s.subscribed && s.built == {} && !s.doing.BringingUp?
      && forall i :: 0 <= i < |s.queue| ==> !s.queue[i].WorkJoin?
  }

  lemma {:induction false} UnstartedStays(s: State, step: Step)
    requires Unstarted(s) && Enabled(s, step)
    ensures Unstarted(Next(s, step))
  {
    match step
    case Answers(ok, services) => AnsweredGoesOn(s, ok, services);
    case Takes => TakeUnstarted(s);
    case Releases(id, ok) => ReleasedUnstarted(s, id, ok);
    case _ =>
  }

  lemma {:induction false} TakeUnstarted(s: State)
    requires Unstarted(s) && s.queue != [] && s.doing.Idle?
    ensures Unstarted(Take(s))
  {
    match s.queue[0]
    case WorkStart => ContinueGoesOn(Begun(s.(queue := s.queue[1..])), s.required);
    case WorkJoin(_, _) =>
    case _ =>
  }

  lemma {:induction false} ReleasedUnstarted(s: State, id: Id, ok: bool)
    requires Unstarted(s) && s.doing.TearingDown?
    ensures Unstarted(Released(s, id, ok))
  {
    if ok {
    } else {
    }
  }

  // A session that is started once is fresh when it is: the coordinator starts each session it makes no more
  // often than that.
  lemma {:induction false} OneStartIsFresh(s: State, steps: seq<Step>)
    requires Unstarted(s) && IsRun(s, steps) && Started(After(s, steps)) <= 1
    ensures StartsFresh(s, steps)
    decreases |steps|
  {
    if steps != [] {
      StartsGrow(s, steps);
      if steps[0].Takes? && s.queue[0].WorkStart? {
        QueueOf(s.queue);
      }
      UnstartedStays(s, steps[0]);
      OneStartIsFresh(Next(s, steps[0]), steps[1..]);
    }
  }

  // So in every run the coordinator makes of a session, what a stopped session asks to remove that its board
  // lists was built by it since it was started, and a stop failed to release it.
  lemma {:induction false} RemovesOnlyWhatItBuilt(s: State, steps: seq<Step>, step: Step, id: Id)
    requires Initial(s) && IsRun(s, steps) && Enabled(After(s, steps), step)
    requires Started(After(s, steps)) <= 1
    requires After(s, steps).stopped && id in After(s, steps).required
    requires Next(After(s, steps), step).asked[Ask(Remove, id)] > After(s, steps).asked[Ask(Remove, id)]
    ensures id in BuiltSince(s, steps, {}) && id in After(s, steps).unreleased
  {
    RemovesOnlyItsOwn(s, steps, step, id);
    OneStartIsFresh(s, steps);
    HoldsWhatItBuilt(s, steps, {});
  }

  // Stopping a stopped session forgets what it reported as left over, and still remembers what it has
  // to release: the two are not the same.
  lemma {:induction false} SecondStopForgetsResidue(s: State)
    requires Inv(s) && s.stopped && s.doing.Idle? && s.queue != [] && s.queue[0].WorkStop?
    ensures Next(s, Takes).residue == {} && Next(s, Takes).pendingRelease == s.pendingRelease
  {
    assert (set id | id in s.built && id !in s.connected) == {};
  }

  // ---------------------------------------------------------------- live and connected

  // What is known of connections is told from few of the fields.
  lemma SameKnown(s: State, n: State)
    requires Known(s) && n.past.met == s.past.met && n.open == s.open && n.connected == s.connected
    requires n.queue == s.queue || (s.queue != [] && n.queue == s.queue[1..])
    requires n.doing.BringingUp? ==> IsFor(s, n.doing.server, n.doing.id)
    requires forall c :: c in n.past.provisioned ==> c in s.past.provisioned || c in s.past.met
    ensures Known(n)
  {
    forall i | 0 <= i < |n.queue| && n.queue[i].WorkJoin? ensures IsFor(n, n.queue[i].server, n.queue[i].id) {
      assert n.queue[i] == s.queue[if n.queue == s.queue then i else i + 1];
    }
    assert forall x, j :: IsFor(s, x, j) ==> IsFor(n, x, j);
  }

  lemma {:induction false} StepKnown(s: State, step: Step)
    requires Known(s) && Enabled(s, step)
    ensures Known(Next(s, step))
  {
    match step
    case Answers(ok, services) => AnsweredKnown(s, ok, services);
    case Takes => TakeKnown(s);
    case Releases(id, ok) => ReleasedKnown(s, id, ok);
    case Leaves(id) => LeaveKnown(s, id);
    case Closes(c) =>
      assert forall j :: j in s.connected ==> s.connected[j].connection != c;
    case Joins(id, server) => JoinKnown(s, id, server);
    case _ =>
  }

  // Whoever is asked next is connected, and is asked to provision at most once more.
  ghost predicate AsksConnected(s: State, n: State) {
    if n.doing.BringingUp? then
      && n.doing.id in s.connected && n.doing.server == s.connected[n.doing.id]
      && n.past.provisioned <= s.past.provisioned + multiset{n.doing.server.connection}
    else n.past.provisioned == s.past.provisioned
  }

  lemma {:induction false} ContinueAsksConnected(s: State, rest: seq<Id>)
    ensures AsksConnected(s, Continue(s, rest))
    decreases |rest|
  {
    if rest != [] && rest[0] !in s.connected {
      ContinueAsksConnected(s, rest[1..]);
    }
  }

  lemma {:induction false} GoesLiveAsks(s: State, id: Id, rest: seq<Id>)
    ensures AsksConnected(s, GoesLive(s, id, rest)) && AsksConnected(s, Fails(s, id, rest))
  {
    ContinueAsksConnected(s.(live := s.live - {id}), rest);
    ContinueAsksConnected(s.(live := s.live + {id}), rest);
  }

  ghost predicate AsksAgain(s: State, n: State) {
    s.doing.BringingUp? && n.doing.BringingUp? && n.doing.id == s.doing.id && n.doing.server == s.doing.server && n.past == s.past
  }

  lemma {:induction false} BuiltAsks(s: State, id: Id, server: Server, rest: seq<Id>)
    requires s.doing.BringingUp? && id == s.doing.id && server == s.doing.server
    ensures AsksConnected(s, Built(s, id, server, rest)) || AsksAgain(s, Built(s, id, server, rest))
  {
    GoesLiveAsks(HasBuilt(s, id), id, rest);
  }

  lemma {:induction false} AnsweredAsks(s: State, ok: bool, services: bool)
    requires s.doing.BringingUp?
    ensures AsksConnected(s, Answered(s, ok, services)) || AsksAgain(s, Answered(s, ok, services))
  {
    var BringingUp(id, server, stage, rest) := s.doing;
    GoesLiveAsks(s, id, rest);
    BuiltAsks(s, id, server, rest);
  }

  lemma {:induction false} AnsweredKnown(s: State, ok: bool, services: bool)
    requires Known(s) && s.doing.BringingUp?
    ensures Known(Answered(s, ok, services))
  {
    AnsweredGoesOn(s, ok, services);
    AnsweredAsks(s, ok, services);
    AsksKnown(s, Answered(s, ok, services));
  }

  lemma AsksKnown(s: State, n: State)
    requires Known(s) && GoesOn(s.(live := n.live, built := n.built, held := n.held), n)
    requires AsksConnected(s, n) || AsksAgain(s, n)
    ensures Known(n)
  {
    SameKnown(s, n);
  }

  lemma {:induction false} ReleasedKnown(s: State, id: Id, ok: bool)
    requires Known(s) && s.doing.TearingDown?
    ensures Known(Released(s, id, ok))
  {
    ReleasedGoesOn(s, id, ok);
    SameKnown(s, Released(s, id, ok));
  }

  lemma LeaveKnown(s: State, id: Id)
    requires Known(s) && id in s.connected
    ensures Known(Next(s, Leaves(id)))
  {
    var n := Next(s, Leaves(id));
    assert forall x, j :: IsFor(s, x, j) ==> IsFor(n, x, j);
    forall j | j in n.connected ensures n.connected[j].connection in n.open {
      assert IsFor(s, s.connected[j], j) && IsFor(s, s.connected[id], id);
    }
  }

  lemma JoinKnown(s: State, id: Id, server: Server)
    requires Known(s) && server.connection !in s.past.met
    ensures Known(Next(s, Joins(id, server)))
  {
    var n := Next(s, Joins(id, server));
    assert forall x, j :: IsFor(s, x, j) ==> IsFor(n, x, j);
  }

  lemma {:induction false} TakeKnown(s: State)
    requires Known(s) && s.queue != [] && s.doing.Idle?
    ensures Known(Take(s))
  {
    var t := s.(queue := s.queue[1..]);
    match s.queue[0]
    case WorkStart => StartsKnown(s, t);
    case WorkJoin(id, server) => JoinedKnown(s, t, id, server);
    case WorkStop => TearsDownKnown(s, t, false);
    case WorkDestroy => TearsDownKnown(s, t, true);
  }

  lemma StartsKnown(s: State, t: State)
    requires Known(s) && s.queue != [] && t == s.(queue := s.queue[1..])
    ensures Known(Starts(t))
  {
    ContinueGoesOn(Begun(t), t.required);
    ContinueAsksConnected(Begun(t), t.required);
    SameKnown(s, Starts(t));
  }

  lemma JoinedKnown(s: State, t: State, id: Id, server: Server)
    requires Known(s) && s.queue != [] && t == s.(queue := s.queue[1..]) && s.doing.Idle? && s.queue[0] == WorkJoin(id, server)
    ensures Known(Joined(t, id, server))
  {
    assert IsFor(s, server, id);
    SameKnown(s, Joined(t, id, server));
  }

  lemma TearsDownKnown(s: State, t: State, destroying: bool)
    requires Known(s) && s.queue != [] && t == s.(queue := s.queue[1..])
    ensures Known(TearsDown(t, destroying))
  {
    TearsDownGoesOn(t, destroying);
    SameKnown(s, TearsDown(t, destroying));
  }

  // The answer that makes a runtime live.
  predicate Completes(s: State, ok: bool, services: bool) {
    s.doing.BringingUp? &&
    match s.doing.stage
    case PickingUp => ok
    case Building => ok && services && !s.capture
    case Describing => ok && !s.capture
    case Capturing => true
  }

  // A replaced connection answers after its successor left.
  predicate AnswersLate(s: State, step: Step) {
    step.Answers? && Completes(s, step.ok, step.services)
    && s.doing.server.connection in Replaced(s) && s.doing.id !in s.connected
  }

  // Turning capturing on again fails, which is swallowed, with nobody connected.
  predicate FailsUnheard(s: State, step: Step) {
    step.Answers? && !step.ok && s.doing.BringingUp? && s.doing.stage.Capturing? && s.doing.id !in s.connected
  }

  // A server leaves a session that was destroyed, which no longer listens.
  predicate LeavesUnheard(s: State, step: Step) {
    step.Leaves? && step.id in s.live && !s.subscribed
  }

  predicate Strays(s: State, step: Step) {
    AnswersLate(s, step) || FailsUnheard(s, step) || LeavesUnheard(s, step)
  }

  ghost predicate NoneStrays(s: State, steps: seq<Step>)
    requires IsRun(s, steps)
    decreases |steps|
  {
    steps != [] ==> !Strays(s, steps[0]) && NoneStrays(Next(s, steps[0]), steps[1..])
  }

  ghost predicate NoneLate(s: State, steps: seq<Step>)
    requires IsRun(s, steps)
    decreases |steps|
  {
    steps != [] ==> !AnswersLate(s, steps[0]) && NoneLate(Next(s, steps[0]), steps[1..])
  }

  // At every moment, what is live is connected.
  ghost predicate AlwaysConnected(s: State, steps: seq<Step>)
    requires IsRun(s, steps)
    decreases |steps|
  {
    s.live <= s.connected.Keys && (steps != [] ==> AlwaysConnected(Next(s, steps[0]), steps[1..]))
  }

  lemma {:induction false} AnsweredLive(s: State, ok: bool, services: bool)
    requires Enabled(s, Answers(ok, services))
    ensures var n := Answered(s, ok, services);
            n.live <= s.live + {s.doing.id} && (s.doing.id in n.live && s.doing.id !in s.live ==> Completes(s, ok, services))
    ensures Completes(s, ok, services) ==> s.doing.id in Answered(s, ok, services).live
    ensures Answered(s, ok, services).connected == s.connected
  {
    var BringingUp(id, server, stage, rest) := s.doing;
    ContinueGoesOn(s.(live := s.live - {id}), rest);
    ContinueGoesOn(s.(live := s.live + {id}), rest);
    ContinueGoesOn(HasBuilt(s, id).(live := s.live + {id}), rest);
  }

  lemma {:induction false} StrayStep(s: State, step: Step)
    requires Known(s) && Enabled(s, step) && s.live <= s.connected.Keys
    ensures Next(s, step).live <= Next(s, step).connected.Keys <==> !Strays(s, step)
  {
    match step
    case Answers(ok, services) => StrayAnswer(s, ok, services);
    case Takes => TakeBegins(s);
    case Releases(id, ok) => ReleasedLive(s, id, ok);
    case _ => StrayEvent(s, step);
  }

  lemma StrayEvent(s: State, step: Step)
    requires Enabled(s, step) && s.live <= s.connected.Keys && Event(step)
    ensures Next(s, step).live <= Next(s, step).connected.Keys <==> !Strays(s, step)
  {
  }

  lemma {:induction false} StrayAnswer(s: State, ok: bool, services: bool)
    requires Known(s) && Enabled(s, Answers(ok, services)) && s.live <= s.connected.Keys
    ensures Answered(s, ok, services).live <= Answered(s, ok, services).connected.Keys <==> !Strays(s, Answers(ok, services))
  {
    AnsweredLive(s, ok, services);
    if s.doing.id !in s.connected && ok {
      assert forall j :: j in s.connected ==> IsFor(s, s.connected[j], j);
      assert s.doing.server.connection in Replaced(s);
    }
  }

  lemma {:induction false} ReleasedLive(s: State, id: Id, ok: bool)
    requires s.doing.TearingDown?
    ensures Released(s, id, ok).live <= s.live && Released(s, id, ok).connected == s.connected
  {
  }

  // What is live is connected at every moment of a run, exactly unless one of three things happens in it:
  // a replaced connection completes what it was asked after its successor left, turning capturing on again
  // fails with nobody connected, or a server leaves a session that was destroyed.
  lemma {:induction false} LiveMeansConnectedExactly(s: State, steps: seq<Step>)
    requires Known(s) && s.live <= s.connected.Keys && IsRun(s, steps)
    ensures AlwaysConnected(s, steps) <==> NoneStrays(s, steps)
    decreases |steps|
  {
    if steps != [] {
      var n := Next(s, steps[0]);
      StrayStep(s, steps[0]);
      StepKnown(s, steps[0]);
      if n.live <= n.connected.Keys {
        LiveMeansConnectedExactly(n, steps[1..]);
      } else {
        assert !AlwaysConnected(n, steps[1..]);
      }
    }
  }

  // Capturing stays off, and the session is not destroyed.
  predicate Calm(steps: seq<Step>) {
    forall i :: 0 <= i < |steps| ==> steps[i] != SwitchCapture(true) && !steps[i].AskDestroy?
  }

  ghost predicate Listens(s: State) {
    && !s.capture && !(s.doing.BringingUp? && s.doing.stage.Capturing?)
    && !(s.doing.TearingDown? && s.doing.destroying) && WorkDestroy !in s.queue
    && (s.subscribed || (s.live == {} && !s.doing.BringingUp? && forall w :: w in s.queue ==> !w.WorkJoin?))
  }

  lemma {:induction false} ContinueListens(s: State, rest: seq<Id>)
    requires Listens(s.(doing := Idle)) && s.subscribed
    ensures Listens(Continue(s, rest))
    decreases |rest|
  {
    if rest != [] && rest[0] !in s.connected {
      ContinueListens(s, rest[1..]);
    }
  }

  lemma {:induction false} StepListens(s: State, step: Step)
    requires Listens(s) && Enabled(s, step)
    requires step != SwitchCapture(true) && !step.AskDestroy?
    ensures Listens(Next(s, step)) && (Strays(s, step) <==> AnswersLate(s, step))
  {
    match step
    case Answers(ok, services) => AnsweredListens(s, ok, services);
    case Takes => TakeListens(s);
    case Releases(id, ok) => ReleasedListens(s, id, ok);
    case _ =>
  }

  lemma {:induction false} AnsweredListens(s: State, ok: bool, services: bool)
    requires Listens(s) && s.doing.BringingUp?
    ensures Listens(Answered(s, ok, services))
  {
    var BringingUp(id, server, stage, rest) := s.doing;
    ContinueListens(s.(live := s.live - {id}), rest);
    ContinueListens(s.(live := s.live + {id}), rest);
    ContinueListens(HasBuilt(s, id).(live := s.live + {id}), rest);
  }

  lemma {:induction false} TakeListens(s: State)
    requires Listens(s) && s.queue != [] && s.doing.Idle?
    ensures Listens(Take(s))
  {
    var t := s.(queue := s.queue[1..]);
    assert s.queue == [s.queue[0]] + t.queue;
    assert Listens(t);
    match s.queue[0]
    case WorkStart => ContinueListens(Begun(t), t.required);
    case _ =>
  }

  lemma {:induction false} ReleasedListens(s: State, id: Id, ok: bool)
    requires Listens(s) && s.doing.TearingDown?
    ensures Listens(Released(s, id, ok))
  {
  }

  // With capturing off, what is live is connected, exactly unless a replaced connection completes what it was
  // asked after its successor left.
  lemma {:induction false} LiveMeansConnected(s: State, steps: seq<Step>)
    requires Initial(s) && IsRun(s, steps) && Calm(steps)
    ensures AlwaysConnected(s, steps) <==> NoneLate(s, steps)
  {
    LiveMeansConnectedExactly(s, steps);
    OnlyLateStrays(s, steps);
  }

  lemma {:induction false} OnlyLateStrays(s: State, steps: seq<Step>)
    requires Listens(s) && IsRun(s, steps) && Calm(steps)
    ensures NoneStrays(s, steps) <==> NoneLate(s, steps)
    decreases |steps|
  {
    if steps != [] {
      assert Calm(steps[1..]);
      StepListens(s, steps[0]);
      OnlyLateStrays(Next(s, steps[0]), steps[1..]);
    }
  }

  // A server asked to build is replaced, its successor leaves, and then it answers: the runtime is live with
  // nobody connected, and nobody says it left when the connection closes.
  lemma {:induction false} ReplacedMayAnswer(s: State, id: Id, successor: Server)
    requires Known(s) && s.subscribed && !s.capture && successor.connection !in s.past.met
    requires s.doing.BringingUp? && s.doing.id == id && s.doing.stage.Building? && s.doing.rest == []
    requires s.doing.server.connection in s.open
    ensures var steps := [Joins(id, successor), Leaves(id), Answers(true, true), Closes(s.doing.server.connection)];
            IsRun(s, steps) && id in After(s, steps).live && id !in After(s, steps).connected
  {
    var asked := s.doing.server.connection;
    var s1 := Next(s, Joins(id, successor));
    var s2 := Next(s1, Leaves(id));
    JoinKnown(s, id, successor);
    LeaveKnown(s1, id);
    var s3 := Next(s2, Answers(true, true));
    AnsweredLate(s2, id);
    var s4 := Next(s3, Closes(asked));
    assert IsRun(s4, []) && [Closes(asked)][1..] == [];
    assert IsRun(s3, [Closes(asked)]) && After(s3, [Closes(asked)]) == After(s4, []) == s4;
    assert IsRun(s2, [Answers(true, true), Closes(asked)]) && After(s2, [Answers(true, true), Closes(asked)]) == s4;
    assert IsRun(s1, [Leaves(id), Answers(true, true), Closes(asked)])
           && After(s1, [Leaves(id), Answers(true, true), Closes(asked)]) == s4;
  }

  // Answered with nobody connected: live, and the connection is one of those replaced.
  lemma AnsweredLate(s: State, id: Id)
    requires Known(s) && id !in s.connected && !s.capture
    requires s.doing.BringingUp? && s.doing.id == id && s.doing.stage.Building? && s.doing.rest == []
    requires s.doing.server.connection in s.open
    ensures var n := Answered(s, true, true);
            id in n.live && n.connected == s.connected && s.doing.server.connection in Replaced(n) && n.doing.Idle?
  {
    assert forall j :: j in s.connected ==> IsFor(s, s.connected[j], j);
  }

  // A server that leaves while it is told to capture again goes live.
  lemma {:induction false} CapturedMayBeGone(s: State, id: Id)
    requires s.subscribed && s.doing.BringingUp? && s.doing.id == id && s.doing.rest == [] && id in s.connected
    requires s.capture && s.doing.stage.Building? && s.doing.server.connection in s.open
    ensures var steps := [Answers(true, true), Leaves(id), Answers(false, false)];
            IsRun(s, steps) && id in After(s, steps).live && id !in After(s, steps).connected
  {
    var s1 := Next(s, Answers(true, true));
    var s2 := Next(s1, Leaves(id));
    var s3 := Next(s2, Answers(false, false));
    assert IsRun(s2, [Answers(false, false)]) && After(s2, [Answers(false, false)]) == s3;
    assert IsRun(s1, [Leaves(id), Answers(false, false)]) && After(s1, [Leaves(id), Answers(false, false)]) == s3;
  }
}
