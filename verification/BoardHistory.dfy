/**
  What a board has become, told from the steps of its run: which session is registered, with which config, whether it
  was stopped, who the board is shared with, and so what the store holds once it is done (src/coordinator/coordinator.ts).
  Nothing here asks what a step does to the board; each is read off the last step that has to do with it.
 */
module BoardHistory {
  import opened BoardPersistence

  // ---------------------------------------------------------------- read off the steps

  // How many sessions there are: those there were, and one for every registration that settled its tickets.
  function Made(s: State, steps: seq<Step>): nat {
    if steps == [] then |s.sessions|
    else Made(s, steps[..|steps| - 1]) + if steps[|steps| - 1].RegisterSettlesTickets? then 1 else 0
  }

  // The config a registration was last begun with by a call, and the session it made.
  function BegunWith(steps: seq<Step>, c: CallId): Option<Config> {
    if steps == [] then None
    else match steps[|steps| - 1]
      case RegisterBegins(d, config) => if d == c then Some(config) else BegunWith(steps[..|steps| - 1], c)
      case _ => BegunWith(steps[..|steps| - 1], c)
  }

  function MadeBy(s: State, steps: seq<Step>, c: CallId): Option<SessionId> {
    if steps == [] then None
    else
      var before := steps[..|steps| - 1];
      match steps[|steps| - 1]
      case RegisterSettlesTickets(d, _, _) => if d == c then Some(Made(s, before)) else MadeBy(s, before, c)
      case _ => MadeBy(s, before, c)
  }

  // The session of the last registration that went through, unless the board was removed since.
  function Registered(s: State, steps: seq<Step>): Option<SessionId> {
    if steps == [] then s.registered
    else
      var before := steps[..|steps| - 1];
      match steps[|steps| - 1]
      case RegisterPublishes(c) => MadeBy(s, before, c)
      case RemoveEnds(_) => None
      case _ => Registered(s, before)
  }

  // The session a call that stops the board found registered.
  function FoundBy(s: State, steps: seq<Step>, c: CallId): Option<SessionId> {
    if steps == [] then None
    else
      var before := steps[..|steps| - 1];
      match steps[|steps| - 1]
      case StopBegins(d) => if d == c then Registered(s, before) else FoundBy(s, before, c)
      case _ => FoundBy(s, before, c)
  }

  // Some call that found it registered has seen it stop.
  ghost predicate WasStopped(s: State, steps: seq<Step>, id: SessionId) {
    || (id < |s.sessions| && s.sessions[id].stopped)
    || exists i :: 0 <= i < |steps| && StopsIt(s, steps, i, id)
  }

  predicate StopsIt(s: State, steps: seq<Step>, i: nat, id: SessionId)
    requires i < |steps|
  {
    steps[i].StopEnds? && FoundBy(s, steps[..i], steps[i].call) == Some(id)
  }

  // The last config it was given while it was registered, or else the one its registration began with.
  function ConfigOf(s: State, steps: seq<Step>, id: SessionId): Option<Config> {
    if steps == [] then if id < |s.sessions| then Some(s.sessions[id].config) else None
    else
      var before := steps[..|steps| - 1];
      match steps[|steps| - 1]
      case LoggingBegins(_, config) => if Registered(s, before) == Some(id) then Some(config) else ConfigOf(s, before, id)
      case RegisterSettlesTickets(c, _, _) => if id == Made(s, before) then BegunWith(before, c) else ConfigOf(s, before, id)
      case _ => ConfigOf(s, before, id)
  }

  function CreatedAt(s: State, steps: seq<Step>, id: SessionId): Option<nat> {
    if steps == [] then if id < |s.sessions| then Some(s.sessions[id].createdAt) else None
    else
      var before := steps[..|steps| - 1];
      match steps[|steps| - 1]
      case RegisterSettlesTickets(_, _, at) => if id == Made(s, before) then Some(at) else CreatedAt(s, before, id)
      case _ => CreatedAt(s, before, id)
  }

  // What the tickets last were said to be; a board that is removed has none.
  function TicketsOf(s: State, steps: seq<Step>): Tickets {
    if steps == [] then s.tickets
    else match steps[|steps| - 1]
      case RegisterSettlesTickets(_, tickets, _) => tickets
      case TicketsChange(tickets) => tickets
      case TicketsRevoked => {}
      case RemoveEnds(_) => {}
      case _ => TicketsOf(s, steps[..|steps| - 1])
  }

  // Who an address is listed as: as it was last shared with, unless it was taken off or the board removed since.
  ghost predicate ListedAs(s: State, steps: seq<Step>, m: Member) {
    if steps == [] then m in s.members
    else match steps[|steps| - 1]
      case Shares(n, _) => if n.email == m.email then n == m else ListedAs(s, steps[..|steps| - 1], m)
      case Unshares(email) => email != m.email && ListedAs(s, steps[..|steps| - 1], m)
      case RemoveEnds(_) => false
      case _ => ListedAs(s, steps[..|steps| - 1], m)
  }

  // What was asked of the store, in order, and how much of it was answered.
  function AskedOf(s: State, steps: seq<Step>): seq<Work> {
    if steps == [] then s.line
    else
      var before := steps[..|steps| - 1];
      AskedOf(s, before) +
      match steps[|steps| - 1]
      case RegisterPublishes(_) => [Write]
      case StopPersists(_) => [Write]
      case LoggingPersists(_) => [Write]
      case Shares(_, _) => [Write]
      case Unshares(_) => [Write]
      case TicketsChange(_) => if Registered(s, before).Some? then [Write] else []
      case RemoveEnds(_) => [Remove]
      case _ => []
  }

  function Answered(steps: seq<Step>): nat {
    if steps == [] then 0
    else Answered(steps[..|steps| - 1]) + if steps[|steps| - 1].StoreAnswers? then 1 else 0
  }

  // The store failed, and nothing has landed since.
  predicate Failed(steps: seq<Step>) {
    steps != [] &&
    match steps[|steps| - 1]
    case StoreAnswers(ok) => !ok || Failed(steps[..|steps| - 1])
    case StoreLands => false
    case _ => Failed(steps[..|steps| - 1])
  }

  predicate Begins(step: Step, c: CallId) {
    match step
    case RegisterBegins(d, _) => d == c
    case StopBegins(d) => d == c
    case LoggingBegins(d, _) => d == c
    case RemoveBegins(d) => d == c
    case _ => false
  }

  predicate Ends(step: Step, c: CallId) {
    match step
    case RegisterPublishes(d) => d == c
    case StopPersists(d) => d == c
    case LoggingPersists(d) => d == c
    case RemoveEnds(d) => d == c
    case _ => false
  }

  // Begun, and not ended since.
  predicate InFlight(steps: seq<Step>, c: CallId) {
    steps != [] && !Ends(steps[|steps| - 1], c) && (Begins(steps[|steps| - 1], c) || InFlight(steps[..|steps| - 1], c))
  }

  // ---------------------------------------------------------------- and so it is

  ghost predicate SessionTold(s: State, steps: seq<Step>, n: State, id: SessionId) {
    if id < |n.sessions| then
      && ConfigOf(s, steps, id) == Some(n.sessions[id].config)
      && CreatedAt(s, steps, id) == Some(n.sessions[id].createdAt)
      && (n.sessions[id].stopped <==> WasStopped(s, steps, id))
    else !WasStopped(s, steps, id)
  }

  ghost predicate CallTold(s: State, steps: seq<Step>, n: State, c: CallId) {
    && (c in n.calls <==> InFlight(steps, c))
    && (c in n.calls ==>
          match n.calls[c]
          case Destroying(config) => BegunWith(steps, c) == Some(config)
          case Starting(id) => MadeBy(s, steps, c) == Some(id)
          case Stopping(id) => FoundBy(s, steps, c) == Some(id)
          case _ => true)
  }

  ghost predicate Told(s: State, steps: seq<Step>, n: State) {
    && |n.sessions| == Made(s, steps)
    && n.registered == Registered(s, steps)
    && n.tickets == TicketsOf(s, steps)
    && (n.lost <==> Failed(steps))
    && Answered(steps) <= |AskedOf(s, steps)| && n.line == AskedOf(s, steps)[Answered(steps)..]
    && (forall m: Member :: m in n.members <==> ListedAs(s, steps, m))
    && (OnePerEmail(s.members) ==> OnePerEmail(n.members))
    && (forall id: SessionId :: SessionTold(s, steps, n, id))
    && (forall c: CallId :: CallTold(s, steps, n, c))
  }

  // A run that goes one step further.
  lemma {:induction false} OneMore(s: State, steps: seq<Step>, step: Step)
    ensures IsRun(s, steps + [step]) <==> IsRun(s, steps) && Enabled(After(s, steps), step)
    ensures IsRun(s, steps + [step]) ==> After(s, steps + [step]) == Next(After(s, steps), step)
    decreases |steps|
  {
    if steps == [] {
      assert steps + [step] == [step] && [step][1..] == [];
    } else {
      assert (steps + [step])[1..] == steps[1..] + [step];
      if Enabled(s, steps[0]) {
        OneMore(Next(s, steps[0]), steps[1..], step);
      }
    }
  }

  lemma {:induction false} StopsOnce(s: State, steps: seq<Step>, step: Step, id: SessionId)
    ensures WasStopped(s, steps + [step], id) <==>
              WasStopped(s, steps, id) || (step.StopEnds? && FoundBy(s, steps, step.call) == Some(id))
  {
    var more := steps + [step];
    assert forall i :: 0 <= i < |steps| ==> more[..i] == steps[..i] && more[i] == steps[i];
    assert more[..|steps|] == steps && more[|steps|] == step;
    if WasStopped(s, steps, id) && !(id < |s.sessions| && s.sessions[id].stopped) {
      var i :| 0 <= i < |steps| && StopsIt(s, steps, i, id);
      assert StopsIt(s, more, i, id);
    }
    if step.StopEnds? && FoundBy(s, steps, step.call) == Some(id) {
      assert StopsIt(s, more, |steps|, id);
    }
    if i :| 0 <= i < |more| && StopsIt(s, more, i, id) {
      assert i < |steps| ==> StopsIt(s, steps, i, id);
    }
  }

  lemma {:induction false} SessionStep(s: State, steps: seq<Step>, n: State, step: Step, id: SessionId)
    requires Inv(n) && Told(s, steps, n) && Enabled(n, step)
    ensures SessionTold(s, steps + [step], Next(n, step), id)
  {
    assert (steps + [step])[..|steps|] == steps;
    StopsOnce(s, steps, step, id);
    assert SessionTold(s, steps, n, id);
    match step
    case RegisterSettlesTickets(c, _, _) => assert CallTold(s, steps, n, c);
    case StopEnds(c) => assert CallTold(s, steps, n, c);
    case _ =>
  }

  lemma {:induction false} CallStep(s: State, steps: seq<Step>, n: State, step: Step, c: CallId)
    requires Inv(n) && Told(s, steps, n) && Enabled(n, step)
    ensures CallTold(s, steps + [step], Next(n, step), c)
  {
    assert (steps + [step])[..|steps|] == steps;
    assert CallTold(s, steps, n, c);
  }

  lemma {:induction false} MembersStep(s: State, steps: seq<Step>, n: State, step: Step, m: Member)
    requires Inv(n) && Told(s, steps, n) && Enabled(n, step)
    ensures OnePerEmail(s.members) ==> OnePerEmail(Next(n, step).members)
    ensures m in Next(n, step).members <==> ListedAs(s, steps + [step], m)
  {
    assert (steps + [step])[..|steps|] == steps;
    assert m in n.members <==> ListedAs(s, steps, m);
    match step
    case Shares(x, limit) =>
      SharedTells(n.members, x, limit, m);
      if OnePerEmail(s.members) {
        ShareLists(n.members, x, limit, m);
      }
    case Unshares(email) => WithoutLists(n.members, email);
    case _ =>
  }

  // Of the address it is shared with, one person is listed.
  lemma SharedTells(list: seq<Member>, x: Member, limit: nat, m: Member)
    requires Share(list, x, limit).Listed?
    ensures m in Share(list, x, limit).members <==> if m.email == x.email then m == x else m in list
  {
    if exists e :: e in list && e.email == x.email {
      ReplacedLists(list, x, m);
      assert forall i :: 0 <= i < |list| && list[i].email == x.email ==> Replaced(list, x)[i] == x;
    }
  }

  // The line is served from its front, and grows at its end.
  lemma {:induction false} LineStep(s: State, steps: seq<Step>, n: State, step: Step)
    requires Inv(n) && Told(s, steps, n) && Enabled(n, step)
    ensures var more := steps + [step];
            Answered(more) <= |AskedOf(s, more)| && Next(n, step).line == AskedOf(s, more)[Answered(more)..]
  {
    assert (steps + [step])[..|steps|] == steps;
  }

  lemma {:induction false} StepTells(s: State, steps: seq<Step>, n: State, step: Step)
    requires Inv(n) && Told(s, steps, n) && Enabled(n, step)
    ensures Told(s, steps + [step], Next(n, step))
  {
    assert (steps + [step])[..|steps|] == steps;
    LineStep(s, steps, n, step);
    forall id: SessionId { SessionStep(s, steps, n, step, id); }
    forall c: CallId { CallStep(s, steps, n, step, c); }
    forall m: Member { MembersStep(s, steps, n, step, m); }
    match step
    case RegisterPublishes(c) => assert CallTold(s, steps, n, c);
    case _ => MembersStep(s, steps, n, step, Member("", ""));
  }

  // After any run from a coordinator's start the board is as its steps tell, and nothing else.
  lemma {:induction false} RunTells(s: State, steps: seq<Step>)
    requires Initial(s) && IsRun(s, steps)
    ensures Told(s, steps, After(s, steps))
    decreases |steps|
  {
    if steps != [] {
      var before, last := steps[..|steps| - 1], steps[|steps| - 1];
      assert steps == before + [last];
      OneMore(s, before, last);
      RunTells(s, before);
      InitialOk(s);
      RunKeeps(s, before);
      StepTells(s, before, After(s, before), last);
    }
  }

  // A session made in the run is stopped exactly when a call that stops the board found it registered and has seen
  // it stop; and its config is the last it was given while registered, or the one its registration began with.
  lemma {:induction false} StoppedExactly(s: State, steps: seq<Step>, id: SessionId)
    requires Initial(s) && IsRun(s, steps) && |s.sessions| <= id < |After(s, steps).sessions|
    ensures var session := After(s, steps).sessions[id];
            && (session.stopped <==> exists i :: 0 <= i < |steps| && StopsIt(s, steps, i, id))
            && ConfigOf(s, steps, id) == Some(session.config)
            && CreatedAt(s, steps, id) == Some(session.createdAt)
  {
    RunTells(s, steps);
    assert SessionTold(s, steps, After(s, steps), id);
  }

  // Every piece of work is asked of the store once, in order, and leaves its line when the store answered: so the
  // line drains. A call is in flight exactly when it began and has not ended.
  lemma {:induction false} LineIsWhatWasAsked(s: State, steps: seq<Step>, c: CallId)
    requires Initial(s) && IsRun(s, steps)
    ensures var n := After(s, steps);
            && Answered(steps) <= |AskedOf(s, steps)| && n.line == AskedOf(s, steps)[Answered(steps)..]
            && (c in n.calls <==> InFlight(steps, c))
            && (n.lost <==> Failed(steps))
  {
    RunTells(s, steps);
    assert CallTold(s, steps, After(s, steps), c);
  }

  // Once all that was asked of the store was answered, nothing is in flight and no failure is outstanding, the store
  // has the board exactly if a registration went through since it was last removed; stopped exactly if the session of
  // that registration was, with the config it was last given, when it was made, the tickets that count and whom it is
  // shared with, all as the steps tell.
  lemma {:induction false} StoredAsToldBySteps(s: State, steps: seq<Step>)
    requires Initial(s) && IsRun(s, steps)
    requires Answered(steps) == |AskedOf(s, steps)| && !Failed(steps) && forall c: CallId :: !InFlight(steps, c)
    ensures var n := After(s, steps);
            && (n.store.Some? <==> Registered(s, steps).Some?)
            && (n.store.Some? ==>
                  var id, image := Registered(s, steps).value, n.store.value;
                  && (image.stopped <==> WasStopped(s, steps, id))
                  && ConfigOf(s, steps, id) == Some(image.config) && CreatedAt(s, steps, id) == Some(image.createdAt)
                  && image.tickets == TicketsOf(s, steps)
                  && (forall m: Member :: m in image.members <==> ListedAs(s, steps, m))
                  && (OnePerEmail(s.members) ==> OnePerEmail(image.members)))
  {
    var n := After(s, steps);
    RunTells(s, steps);
    InitialOk(s);
    RunKeeps(s, steps);
    forall c: CallId ensures c !in n.calls { assert CallTold(s, steps, n, c); }
    assert n.line == [] && !Owed(n);
    if n.registered.Some? {
      assert SessionTold(s, steps, n, n.registered.value);
    }
  }
}
