/**
  What a board session of src/coordinator/session.ts has become, told from its run: each fact about it from the last
  step that made it so or ended it, and what it asks of the runtime servers from those facts. So a stopped session
  removes a runtime that joins exactly when it still owes it its release.
 */
module SessionHistory {
  import opened Marks
  import opened SessionLifecycle

  // ---------------------------------------------------------------- moments

  predicate StartBegins(s: State, step: Step)
    requires Enabled(s, step)
  {
    step.Takes? && s.queue[0].WorkStart?
  }

  // A stop or the end of the session takes up releasing what was built.
  predicate ReleaseBegins(s: State, step: Step)
    requires Enabled(s, step)
  {
    step.Takes? && (s.queue[0].WorkStop? || s.queue[0].WorkDestroy?)
  }

  // A stop is over: the last runtime answered, or there was none to ask.
  predicate StopEnds(s: State, step: Step)
    requires Enabled(s, step)
  {
    || (step.Takes? && s.queue[0].WorkStop? && s.built !! s.connected.Keys)
    || (step.Releases? && s.doing.asked == {step.id} && !s.doing.destroying)
  }

  // A server says what it built runs.
  predicate BuildingEnds(s: State, step: Step, id: Id)
    requires Enabled(s, step)
  {
    step.Answers? && step.ok && s.doing.id == id && ((s.doing.stage.Building? && step.services) || s.doing.stage.Describing?)
  }

  // Nobody is connected for it when it is to be released, or the server that is fails.
  predicate NotReleased(s: State, step: Step, id: Id)
    requires Enabled(s, step)
  {
    (ReleaseBegins(s, step) && id in s.built && id !in s.connected) || step == Releases(id, false)
  }

  // Released after all, or removed for that when its server was back; a start forgets what was owed.
  predicate NoLongerOwed(s: State, step: Step, id: Id)
    requires Enabled(s, step)
  {
    StartBegins(s, step) || step == Releases(id, true) || (step == Removes(true) && s.doing == Removing(id, true))
  }

  // ---------------------------------------------------------------- facts

  datatype Fact =
    | IsStopped
    | IsDestroyed
    | IsSubscribed
    | Captures
    | Serves(id: Id, server: Server)
    | IsBuilt(id: Id)
    | IsLive(id: Id)
    | IsOwed(id: Id)

  predicate Holds(f: Fact, s: State) {
    match f
    case IsStopped => s.stopped
    case IsDestroyed => s.destroyed
    case IsSubscribed => s.subscribed
    case Captures => s.capture
    case Serves(id, server) => id in s.connected && s.connected[id] == server
    case IsBuilt(id) => id in s.built
    case IsLive(id) => id in s.live
    case IsOwed(id) => id in s.pendingRelease
  }

  predicate Comes(f: Fact, s: State, step: Step)
    requires Enabled(s, step)
  {
    match f
    case IsStopped => StopEnds(s, step)
    case IsDestroyed => step.Takes? && s.queue[0].WorkDestroy?
    case IsSubscribed => StartBegins(s, step)
    case Captures => step == SwitchCapture(true)
    case Serves(id, server) => step == Joins(id, server)
    case IsBuilt(id) => BuildingEnds(s, step, id)
    case IsLive(id) => step.Answers? && s.doing.id == id && Completes(s, step.ok, step.services)
    case IsOwed(id) => NotReleased(s, step, id)
  }

  predicate Goes(f: Fact, s: State, step: Step)
    requires Enabled(s, step)
  {
    match f
    case IsStopped => StartBegins(s, step)
    case IsDestroyed => false
    case IsSubscribed => step.Takes? && s.queue[0].WorkDestroy?
    case Captures => step == SwitchCapture(false)
    case Serves(id, _) => (step.Joins? && step.id == id) || step == Leaves(id)
    case IsBuilt(_) => StopEnds(s, step)
    case IsLive(id) =>
      || StopEnds(s, step)
      || (step == Leaves(id) && s.subscribed)
      || (step.Answers? && !step.ok && s.doing.id == id && !s.doing.stage.Capturing?)
    case IsOwed(id) => NoLongerOwed(s, step, id)
  }

  // A fact holds after a step when the step makes it so, or it held and the step does not end it.
  lemma {:induction false} FactStep(f: Fact, s: State, step: Step)
    requires Inv(s) && Enabled(s, step)
    ensures Holds(f, Next(s, step)) <==> Comes(f, s, step) || (Holds(f, s) && !Goes(f, s, step))
  {
    match step
    case Takes => FactTaken(f, s);
    case Answers(ok, services) => FactAnswered(f, s, ok, services);
    case Releases(id, ok) => FactReleased(f, s, id, ok);
    case _ => FactEvent(f, s, step);
  }

  lemma FactEvent(f: Fact, s: State, step: Step)
    requires Enabled(s, step) && Event(step)
    ensures Holds(f, Next(s, step)) <==> Comes(f, s, step) || (Holds(f, s) && !Goes(f, s, step))
  {
  }

  lemma FactAnswered(f: Fact, s: State, ok: bool, services: bool)
    requires Inv(s) && Enabled(s, Answers(ok, services))
    ensures var step := Answers(ok, services);
            Holds(f, Next(s, step)) <==> Comes(f, s, step) || (Holds(f, s) && !Goes(f, s, step))
  {
    AnsweredGoesOn(s, ok, services);
    AnsweredFor(s, ok, services);
  }

  lemma AnsweredFor(s: State, ok: bool, services: bool)
    requires s.doing.BringingUp?
    ensures var n, id, stage := Answered(s, ok, services), s.doing.id, s.doing.stage;
            && n.built == (if ok && ((stage.Building? && services) || stage.Describing?) then s.built + {id} else s.built)
            && n.live == (if Completes(s, ok, services) then s.live + {id}
                          else if !ok && !stage.Capturing? then s.live - {id} else s.live)
  {
    var BringingUp(id, server, stage, rest) := s.doing;
    ContinueGoesOn(s.(live := s.live - {id}), rest);
    ContinueGoesOn(s.(live := s.live + {id}), rest);
    ContinueGoesOn(HasBuilt(s, id).(live := s.live + {id}), rest);
  }

  lemma FactTaken(f: Fact, s: State)
    requires Inv(s) && Enabled(s, Takes)
    ensures Holds(f, Next(s, Takes)) <==> Comes(f, s, Takes) || (Holds(f, s) && !Goes(f, s, Takes))
  {
    var t := s.(queue := s.queue[1..]);
    match s.queue[0]
    case WorkStart => FactStarted(f, s, t);
    case WorkJoin(id, server) => JoinedGoesOn(t, id, server);
    case WorkStop => FactTorn(f, s, t, false);
    case WorkDestroy => FactTorn(f, s, t, true);
  }

  lemma FactStarted(f: Fact, s: State, t: State)
    requires Enabled(s, Takes) && t == s.(queue := s.queue[1..]) && s.queue[0].WorkStart?
    ensures Holds(f, Starts(t)) <==> Comes(f, s, Takes) || (Holds(f, s) && !Goes(f, s, Takes))
  {
    ContinueGoesOn(Begun(t), t.required);
  }

  lemma JoinedGoesOn(s: State, id: Id, server: Server)
    ensures GoesOn(s, Joined(s, id, server))
  {
  }

  lemma FactTorn(f: Fact, s: State, t: State, destroying: bool)
    requires Inv(s) && Enabled(s, Takes) && t == s.(queue := s.queue[1..])
    requires s.queue[0] == if destroying then WorkDestroy else WorkStop
    ensures Holds(f, TearsDown(t, destroying)) <==> Comes(f, s, Takes) || (Holds(f, s) && !Goes(f, s, Takes))
  {
    TearsDownFields(t, destroying);
  }

  lemma TearsDownFields(t: State, destroying: bool)
    ensures var n := TearsDown(t, destroying);
            && n.destroyed == (t.destroyed || destroying) && n.subscribed == (t.subscribed && !destroying)
            && n.capture == t.capture && n.connected == t.connected
            && n.pendingRelease == t.pendingRelease + (t.built - t.connected.Keys)
            && if !destroying && t.built !! t.connected.Keys
               then n.stopped && n.live == {} && n.built == {} && n.residue == t.built
               else n.stopped == t.stopped && n.live == t.live && n.built == t.built && n.residue == t.residue
  {
    var away := set id | id in t.built && id !in t.connected;
    var s := ReleaseAsked(t, away, destroying);
    assert away == t.built - t.connected.Keys;
    assert t.built - away == t.built * t.connected.Keys;
    TornFields(s, t.built - away, away, destroying);
  }

  lemma TornFields(s: State, asked: set<Id>, unreleased: set<Id>, destroying: bool)
    ensures var n := Torn(s, asked, unreleased, destroying);
            if asked == {} && !destroying
            then n == s.(doing := Idle, stopped := true, live := {}, built := {}, residue := unreleased)
            else n == s.(doing := n.doing)
  {
  }

  lemma FactReleased(f: Fact, s: State, id: Id, ok: bool)
    requires Inv(s) && Enabled(s, Releases(id, ok))
    ensures var step := Releases(id, ok);
            Holds(f, Next(s, step)) <==> Comes(f, s, step) || (Holds(f, s) && !Goes(f, s, step))
  {
    assert s.doing.asked - {id} == {} <==> s.doing.asked == {id};
  }

  // ---------------------------------------------------------------- runs

  // Of each step of a run, whether it makes a fact so and whether it ends it.
  ghost function Told(f: Fact, s: State, steps: seq<Step>): seq<Mark>
    requires IsRun(s, steps)
    decreases |steps|
  {
    if steps == [] then []
    else [Mark(Comes(f, s, steps[0]), Goes(f, s, steps[0]))] + Told(f, Next(s, steps[0]), steps[1..])
  }

  // After any run a fact holds exactly when some step made it so and none since ended it, or it held from the start
  // and none did.
  lemma {:induction false} FactsExactly(f: Fact, s: State, steps: seq<Step>)
    requires Inv(s) && IsRun(s, steps)
    ensures Holds(f, After(s, steps)) <==> Stands(Told(f, s, steps), Holds(f, s))
    decreases |steps|
  {
    if steps != [] {
      FactStep(f, s, steps[0]);
      StepKeeps(s, steps[0]);
      FactsExactly(f, Next(s, steps[0]), steps[1..]);
      StandsAfter(Mark(Comes(f, s, steps[0]), Goes(f, s, steps[0])), Told(f, Next(s, steps[0]), steps[1..]), Holds(f, s));
    }
  }

  // ---------------------------------------------------------------- what is asked

  // Somebody who joins, or whom a start comes to: described when it was built and is still there, else provisioned.
  function Greeting(built: set<Id>, id: Id, server: Server): Ask {
    if id in built && server.runtimeExists then Ask(Describe, id) else Ask(Provision, id)
  }

  // Where the next runtime somebody is connected for is in a list, if there is one.
  function Soonest(connected: map<Id, Server>, list: seq<Id>): (i: nat)
    ensures i <= |list| && (i < |list| ==> list[i] in connected)
    ensures forall j :: 0 <= j < i ==> list[j] !in connected
  {
    if list == [] || list[0] in connected then 0 else 1 + Soonest(connected, list[1..])
  }

  function AsksSoonest(s: State, built: set<Id>, list: seq<Id>): multiset<Ask> {
    var i := Soonest(s.connected, list);
    if i == |list| then multiset{} else multiset{Greeting(built, list[i], s.connected[list[i]])}
  }

  function AskedBy(s: State, step: Step): multiset<Ask>
    requires Enabled(s, step)
  {
    match step
    case Takes => AskedByWork(s, s.queue[0])
    case Answers(ok, services) => AskedNext(s, ok, services)
    case _ => multiset{}
  }

  function AskedByWork(s: State, work: Work): multiset<Ask> {
    match work
    case WorkStart => AsksSoonest(s, s.built, s.required)
    case WorkStop => Asks(s.built * s.connected.Keys)
    case WorkDestroy => Asks(s.built * s.connected.Keys)
    case WorkJoin(id, server) =>
      if s.destroyed then multiset{}
      else if id in s.required && !s.stopped then multiset{Greeting(s.built, id, server)}
      else if server.runtimeExists && (id in s.required ==> id in s.pendingRelease) then multiset{Ask(Remove, id)}
      else multiset{}
  }

  function AskedNext(s: State, ok: bool, services: bool): multiset<Ask>
    requires s.doing.BringingUp?
  {
    var BringingUp(id, server, stage, rest) := s.doing;
    var built := ok && ((stage.Building? && services) || stage.Describing?);
    if stage.Building? && ok && !services then multiset{Ask(Describe, id)}
    else if built && s.capture then multiset{Ask(SetState, id)}
    else AsksSoonest(s, if built then s.built + {id} else s.built, rest)
  }

  // What a session that is at something waits to be answered.
  function Awaited(doing: Doing): multiset<Ask> {
    match doing
    case Idle => multiset{}
    case BringingUp(id, _, PickingUp, _) => multiset{Ask(Describe, id)}
    case BringingUp(id, _, Building, _) => multiset{Ask(Provision, id)}
    case BringingUp(id, _, Describing, _) => multiset{Ask(Describe, id)}
    case BringingUp(id, _, Capturing, _) => multiset{Ask(SetState, id)}
    case Removing(id, _) => multiset{Ask(Remove, id)}
    case TearingDown(asked, _, _) => Asks(asked)
  }

  // It asks exactly that, and awaits the answers.
  ghost predicate AsksFor(s: State, n: State, asks: multiset<Ask>) {
    n.asked == s.asked + asks && Awaited(n.doing) == asks
  }

  // Every step asks exactly that, and the session awaits the answer to what it asked last.
  lemma {:induction false} AsksExactly(s: State, step: Step)
    requires Inv(s) && Enabled(s, step)
    ensures Next(s, step).asked == s.asked + AskedBy(s, step)
    ensures step.Takes? || step.Answers? ==> Awaited(Next(s, step).doing) == AskedBy(s, step)
  {
    match step
    case Takes => TakenAsks(s);
    case Answers(ok, services) => AnsweredAsksNext(s, ok, services);
    case Releases(id, ok) => ReleasedAsksNothing(s, id, ok);
    case _ =>
  }

  lemma BringUpAsks(s: State, id: Id, server: Server, rest: seq<Id>)
    ensures AsksFor(s, BringUp(s, id, server, rest), multiset{Greeting(s.built, id, server)})
  {
  }

  lemma {:induction false} ContinueAsksSoonest(s: State, rest: seq<Id>)
    ensures AsksFor(s, Continue(s, rest), AsksSoonest(s, s.built, rest))
    decreases |rest|
  {
    if rest != [] {
      if rest[0] in s.connected {
        BringUpAsks(s, rest[0], s.connected[rest[0]], rest[1..]);
      } else {
        ContinueAsksSoonest(s, rest[1..]);
      }
    }
  }

  // And of whom: the server that is connected, with what follows still to come.
  lemma {:induction false} GoesOnWithSoonest(s: State, rest: seq<Id>)
    ensures var i := Soonest(s.connected, rest);
            i < |rest| ==>
              var doing := Continue(s, rest).doing;
              doing.BringingUp? && doing.id == rest[i] && doing.server == s.connected[rest[i]] && doing.rest == rest[i + 1..]
    decreases |rest|
  {
    if rest != [] && rest[0] !in s.connected {
      GoesOnWithSoonest(s, rest[1..]);
      var i := Soonest(s.connected, rest[1..]);
      if i < |rest[1..]| {
        assert rest[1..][i + 1..] == rest[i + 2..];
      }
    }
  }

  lemma TakenAsks(s: State)
    requires Enabled(s, Takes)
    ensures AsksFor(s, Next(s, Takes), AskedBy(s, Takes))
  {
    var t := s.(queue := s.queue[1..]);
    match s.queue[0]
    case WorkStart => StartsAsks(t);
    case WorkJoin(id, server) => JoinedAsks(t, id, server);
    case WorkStop => TearsDownAsks(t, false);
    case WorkDestroy => TearsDownAsks(t, true);
  }

  lemma StartsAsks(s: State)
    ensures AsksFor(s, Starts(s), AsksSoonest(s, s.built, s.required))
  {
    ContinueAsksSoonest(Begun(s), s.required);
  }

  lemma JoinedAsks(s: State, id: Id, server: Server)
    requires s.doing.Idle?
    ensures AsksFor(s, Joined(s, id, server), AskedByWork(s, WorkJoin(id, server)))
  {
    BringUpAsks(s, id, server, []);
  }

  lemma TearsDownAsks(s: State, destroying: bool)
    ensures AsksFor(s, TearsDown(s, destroying), Asks(s.built * s.connected.Keys))
  {
    var away := set id | id in s.built && id !in s.connected;
    var asked := s.built - away;
    assert asked == s.built * s.connected.Keys;
    TornAwaits(ReleaseAsked(s, away, destroying), asked, away, destroying);
  }

  lemma TornAwaits(s: State, asked: set<Id>, unreleased: set<Id>, destroying: bool)
    ensures Torn(s, asked, unreleased, destroying).asked == s.asked
    ensures Awaited(Torn(s, asked, unreleased, destroying).doing) == Asks(asked)
  {
    assert Asks({}) == multiset{};
  }

  lemma AnsweredAsksNext(s: State, ok: bool, services: bool)
    requires Enabled(s, Answers(ok, services))
    ensures AsksFor(s, Answered(s, ok, services), AskedNext(s, ok, services))
  {
    var BringingUp(id, server, stage, rest) := s.doing;
    match stage
    case PickingUp => GoesLiveAsksNext(s, id, rest);
    case Building =>
      if ok && services {
        BuiltAsksNext(s, id, server, rest);
      } else if !ok {
        GoesLiveAsksNext(s, id, rest);
      }
    case Describing =>
      if ok {
        BuiltAsksNext(s, id, server, rest);
      } else {
        GoesLiveAsksNext(s, id, rest);
      }
    case Capturing => GoesLiveAsksNext(s, id, rest);
  }

  lemma GoesLiveAsksNext(s: State, id: Id, rest: seq<Id>)
    ensures AsksFor(s, GoesLive(s, id, rest), AsksSoonest(s, s.built, rest))
    ensures AsksFor(s, Fails(s, id, rest), AsksSoonest(s, s.built, rest))
  {
    ContinueAsksSoonest(s.(live := s.live - {id}), rest);
    ContinueAsksSoonest(s.(live := s.live + {id}), rest);
  }

  lemma BuiltAsksNext(s: State, id: Id, server: Server, rest: seq<Id>)
    ensures AsksFor(s, Built(s, id, server, rest),
                    if s.capture then multiset{Ask(SetState, id)} else AsksSoonest(s, s.built + {id}, rest))
  {
    ContinueAsksSoonest(HasBuilt(s, id).(live := s.live + {id}), rest);
  }

  // A stop, and the end of a session, ask each built runtime somebody is connected for to be removed, once, and
  // nothing else.
  lemma {:induction false} ReleasesEachOnce(s: State, a: Ask)
    requires Inv(s) && Enabled(s, Takes) && ReleaseBegins(s, Takes)
    ensures Next(s, Takes).asked[a] == s.asked[a] + if a.op.Remove? && a.id in s.built && a.id in s.connected then 1 else 0
  {
    TakenAsks(s);
    var ids := s.built * s.connected.Keys;
    assert a in (set id | id in ids :: Ask(Remove, id)) <==> a.op.Remove? && a.id in ids;
  }

  // A stopped session that takes up a join of a runtime its board lists asks for its removal exactly when the server
  // says it still runs there and the session owes its release: some stop since the last start found it built and
  // nobody connected for it, or was answered with a failure, and none has released or removed it since.
  lemma {:induction false} RemovesExactlyWhatItOwes(s: State, steps: seq<Step>, id: Id, server: Server)
    requires Initial(s) && IsRun(s, steps)
    requires var n := After(s, steps);
             && n.queue != [] && n.queue[0] == WorkJoin(id, server) && n.doing.Idle?
             && n.stopped && !n.destroyed && id in n.required
    ensures var n := After(s, steps);
            Next(n, Takes).asked
            == n.asked + if server.runtimeExists && Stayed(Told(IsOwed(id), s, steps)) then multiset{Ask(Remove, id)} else multiset{}
  {
    RunKeeps(s, steps);
    FactsExactly(IsOwed(id), s, steps);
    TakenAsks(After(s, steps));
  }

  // ---------------------------------------------------------------- what is reported as left over

  // While it releases: who was not let go of is who is owed it, of those that answered.
  ghost predicate TearingOk(s: State) {
    s.doing.TearingDown? ==>
      && s.doing.unreleased !! s.doing.asked
      && forall id :: id in s.built && id !in s.doing.asked ==> (id in s.doing.unreleased <==> id in s.pendingRelease)
  }

  lemma {:induction false} TearingKeeps(s: State, step: Step)
    requires Inv(s) && TearingOk(s) && Enabled(s, step)
    ensures TearingOk(Next(s, step))
  {
    match step
    case Takes => TakenTears(s);
    case Answers(ok, services) => AnsweredTearsNothing(s, ok, services);
    case Releases(id, ok) => ReleasedTears(s, id, ok);
    case _ => EventTears(s, step);
  }

  lemma EventTears(s: State, step: Step)
    requires TearingOk(s) && Enabled(s, step) && Event(step)
    ensures TearingOk(Next(s, step))
  {
  }

  lemma ReleasedTears(s: State, id: Id, ok: bool)
    requires Inv(s) && TearingOk(s) && Enabled(s, Releases(id, ok))
    ensures TearingOk(Released(s, id, ok))
  {
  }

  lemma {:induction false} ContinueTearsNothing(s: State, rest: seq<Id>)
    ensures !Continue(s, rest).doing.TearingDown?
    decreases |rest|
  {
    if rest != [] && rest[0] !in s.connected {
      ContinueTearsNothing(s, rest[1..]);
    }
  }

  lemma AnsweredTearsNothing(s: State, ok: bool, services: bool)
    requires s.doing.BringingUp?
    ensures !Answered(s, ok, services).doing.TearingDown?
  {
    var BringingUp(id, server, stage, rest) := s.doing;
    ContinueTearsNothing(s.(live := s.live - {id}), rest);
    ContinueTearsNothing(s.(live := s.live + {id}), rest);
    ContinueTearsNothing(HasBuilt(s, id).(live := s.live + {id}), rest);
  }

  lemma TakenTears(s: State)
    requires Inv(s) && Enabled(s, Takes)
    ensures TearingOk(Next(s, Takes))
  {
    var t := s.(queue := s.queue[1..]);
    match s.queue[0]
    case WorkStart => ContinueTearsNothing(Begun(t), t.required);
    case WorkJoin(id, server) =>
    case WorkStop => TearsDownTears(t, false);
    case WorkDestroy => TearsDownTears(t, true);
  }

  lemma TearsDownTears(s: State, destroying: bool)
    ensures TearingOk(TearsDown(s, destroying))
  {
  }

  lemma {:induction false} RunTears(s: State, steps: seq<Step>)
    requires Inv(s) && TearingOk(s) && IsRun(s, steps)
    ensures TearingOk(After(s, steps))
    decreases |steps|
  {
    if steps != [] {
      TearingKeeps(s, steps[0]);
      StepKeeps(s, steps[0]);
      RunTears(Next(s, steps[0]), steps[1..]);
    }
  }

  // In every run: what a stop that is over reports is what was built and is owed its release; a start reports nothing,
  // and a runtime that is removed after all is reported no longer.
  lemma {:induction false} ReportsWhatItOwes(s: State, steps: seq<Step>, step: Step)
    requires Initial(s) && IsRun(s, steps) && Enabled(After(s, steps), step)
    ensures var m, n := After(s, steps), Next(After(s, steps), step);
            n.residue ==
            if StopEnds(m, step) then m.built * n.pendingRelease
            else if StartBegins(m, step) then {}
            else if step == Removes(true) && m.doing.residue then m.residue - {m.doing.id}
            else m.residue
  {
    RunKeeps(s, steps);
    RunTears(s, steps);
    var m := After(s, steps);
    match step
    case Takes => TakenReports(m);
    case Answers(ok, services) => AnsweredGoesOn(m, ok, services);
    case Releases(id, ok) => ReleasedReports(m, id, ok);
    case _ =>
  }

  lemma TakenReports(s: State)
    requires Inv(s) && Enabled(s, Takes)
    ensures var n := Next(s, Takes);
            n.residue ==
            if StopEnds(s, Takes) then s.built * n.pendingRelease else if StartBegins(s, Takes) then {} else s.residue
  {
    var t := s.(queue := s.queue[1..]);
    match s.queue[0]
    case WorkStart => ContinueGoesOn(Begun(t), t.required);
    case WorkJoin(id, server) => JoinedGoesOn(t, id, server);
    case WorkStop => TearsDownReports(t, false);
    case WorkDestroy => TearsDownReports(t, true);
  }

  lemma TearsDownReports(s: State, destroying: bool)
    ensures var n := TearsDown(s, destroying);
            n.residue == if !destroying && s.built !! s.connected.Keys then s.built * n.pendingRelease else s.residue
  {
    TearsDownFields(s, destroying);
    if s.built !! s.connected.Keys {
      assert s.built * (s.pendingRelease + (s.built - s.connected.Keys)) == s.built;
    }
  }

  lemma ReleasedReports(s: State, id: Id, ok: bool)
    requires Inv(s) && TearingOk(s) && Enabled(s, Releases(id, ok))
    ensures var n := Released(s, id, ok);
            n.residue == if StopEnds(s, Releases(id, ok)) then s.built * n.pendingRelease else s.residue
  {
    if s.doing.asked == {id} && !s.doing.destroying {
      var n := Released(s, id, ok);
      assert s.doing.asked - {id} == {};
      assert forall j :: j in n.residue <==> j in s.built * n.pendingRelease;
    }
  }

  // ---------------------------------------------------------------- the queue

  // The work a step brings: a server that joins is met only by a session that listens.
  function Brings(s: State, step: Step): seq<Work> {
    match step
    case AskStart => [WorkStart]
    case AskStop => [WorkStop]
    case AskDestroy => [WorkDestroy]
    case Joins(id, server) => if s.subscribed then [WorkJoin(id, server)] else []
    case _ => []
  }

  ghost function Brought(s: State, steps: seq<Step>): seq<Work>
    requires IsRun(s, steps)
    decreases |steps|
  {
    if steps == [] then [] else Brings(s, steps[0]) + Brought(Next(s, steps[0]), steps[1..])
  }

  function Taken(steps: seq<Step>): nat
    decreases |steps|
  {
    if steps == [] then 0 else (if steps[0].Takes? then 1 else 0) + Taken(steps[1..])
  }

  lemma QueueStep(s: State, step: Step)
    requires Enabled(s, step)
    ensures Next(s, step).queue == if step.Takes? then s.queue[1..] else s.queue + Brings(s, step)
    ensures step.Takes? ==> Brings(s, step) == []
  {
    match step
    case Takes => TakeBegins(s);
    case Answers(ok, services) => AnsweredGoesOn(s, ok, services);
    case Releases(id, ok) => ReleasedGoesOn(s, id, ok);
    case _ =>
  }

  // What is taken of a queue and what is put behind it, from its front.
  lemma OneTaken(queue: seq<Work>, more: seq<Work>, rest: seq<Work>, taken: nat)
    ensures taken <= |queue + more + rest| ==> queue + (more + rest) == queue + more + rest
    ensures queue != [] && more == [] && taken <= |queue[1..] + rest| ==>
              (queue + (more + rest))[taken + 1..] == (queue[1..] + rest)[taken..]
  {
    if queue != [] {
      assert (queue + rest)[1..] == queue[1..] + rest;
    }
  }

  // Each piece of work is taken up once, in the order it came.
  lemma {:induction false} TakenInOrder(s: State, steps: seq<Step>)
    requires IsRun(s, steps)
    ensures var all := s.queue + Brought(s, steps);
            Taken(steps) <= |all| && After(s, steps).queue == all[Taken(steps)..]
    decreases |steps|
  {
    if steps != [] {
      var n := Next(s, steps[0]);
      QueueStep(s, steps[0]);
      TakenInOrder(n, steps[1..]);
      OneTaken(s.queue, Brings(s, steps[0]), Brought(n, steps[1..]), Taken(steps[1..]));
    }
  }
}
