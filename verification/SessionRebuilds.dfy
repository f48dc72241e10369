/**
  How often a session asks one connection to provision its runtime (start, onJoin and bringUp of
  src/coordinator/session.ts). A server that connects while a start has yet to reach its runtime is
  brought up by the start, and again by its own join, which waits behind it.
 */
module SessionRebuilds {
  import opened SessionLifecycle

  // A start is under way that has yet to reach the runtime.
  predicate Awaits(s: State, id: Id) {
    s.doing.BringingUp? && id in s.doing.rest
  }

  predicate Ends(w: Work) {
    w.WorkStop? || w.WorkDestroy?
  }

  // What waits, waits for a session that is running when it is met.
  predicate GoesOnRunning(s: State) {
    !s.destroyed && forall w :: w in s.queue ==> !Ends(w)
  }

  predicate Distinct(ids: seq<Id>) {
    forall i, j :: 0 <= i < j < |ids| ==> ids[i] != ids[j]
  }

  // ---------------------------------------------------------------- what a session started once keeps

  // What a start has yet to reach it reaches once; none of it is built, and the session hears of who joins.
  ghost predicate Ahead(s: State) {
    && Distinct(s.required)
    && (s.doing.BringingUp? ==> Distinct(s.doing.rest) && forall id :: id in s.doing.rest ==> IsAhead(s, s.doing.id, id))
  }

  ghost predicate IsAhead(s: State, at: Id, id: Id) {
    id !in s.built && id != at && id in s.required && s.subscribed
  }

  ghost predicate Kept(s: State) {
    Inv(s) && Known(s) && Unstarted(s) && Ahead(s)
  }

  lemma DistinctTail(ids: seq<Id>)
    requires Distinct(ids) && ids != []
    ensures Distinct(ids[1..]) && ids[0] !in ids[1..] && forall id :: id in ids[1..] ==> id in ids
  {
    forall i, j | 0 <= i < j < |ids[1..]| ensures ids[1..][i] != ids[1..][j] {
      assert ids[1..][i] == ids[i + 1] && ids[1..][j] == ids[j + 1];
    }
  }

  lemma {:induction false} ContinueAhead(s: State, rest: seq<Id>)
    requires Distinct(s.required) && Distinct(rest)
    requires forall id :: id in rest ==> id !in s.built && id in s.required && s.subscribed
    ensures Ahead(Continue(s, rest))
    decreases |rest|
  {
    if rest != [] {
      DistinctTail(rest);
      if rest[0] !in s.connected {
        ContinueAhead(s, rest[1..]);
      }
    }
  }

  lemma {:induction false} AnsweredAhead(s: State, ok: bool, services: bool)
    requires Ahead(s) && s.doing.BringingUp?
    ensures Ahead(Answered(s, ok, services))
  {
    var BringingUp(id, server, stage, rest) := s.doing;
    ContinueAhead(s.(live := s.live - {id}), rest);
    ContinueAhead(s.(live := s.live + {id}), rest);
    ContinueAhead(HasBuilt(s, id).(live := s.live + {id}), rest);
  }

  lemma {:induction false} TakeAhead(s: State)
    requires Ahead(s) && Unstarted(s) && s.queue != [] && s.doing.Idle? && Started(s) <= 1
    ensures Ahead(Take(s))
  {
    var t := s.(queue := s.queue[1..]);
    match s.queue[0]
    case WorkStart => StartAheadOk(s, t);
    case WorkJoin(j, server) => JoinedAhead(t, j, server);
    case WorkStop => TearsDownAhead(t, false);
    case WorkDestroy => TearsDownAhead(t, true);
  }

  lemma StartAheadOk(s: State, t: State)
    requires Distinct(s.required) && Unstarted(s) && s.queue != [] && s.queue[0].WorkStart? && Started(s) <= 1
    requires t == s.(queue := s.queue[1..])
    ensures Ahead(Starts(t))
  {
    QueueOf(s.queue);
    ContinueAhead(Begun(t), s.required);
  }

  lemma JoinedAhead(s: State, j: Id, server: Server)
    requires Distinct(s.required) && s.doing.Idle?
    ensures Ahead(Joined(s, j, server))
  {
  }

  lemma TearsDownAhead(s: State, destroying: bool)
    requires Distinct(s.required)
    ensures Ahead(TearsDown(s, destroying))
  {
    var away := set id | id in s.built && id !in s.connected;
    assert TearsDown(s, destroying).required == s.required;
    TearsDownGoesOn(s, destroying);
  }

  lemma {:induction false} StepKept(s: State, step: Step)
    requires Kept(s) && Enabled(s, step) && Started(Next(s, step)) <= 1
    ensures Kept(Next(s, step))
  {
    StepKeeps(s, step);
    StepKnown(s, step);
    UnstartedStays(s, step);
    StartsAdd(s, step);
    StepAhead(s, step);
  }

  lemma {:induction false} StepAhead(s: State, step: Step)
    requires Ahead(s) && Unstarted(s) && Enabled(s, step) && Started(s) <= 1
    ensures Ahead(Next(s, step))
  {
    match step
    case Answers(ok, services) => AnsweredAhead(s, ok, services);
    case Takes => TakeAhead(s);
    case Releases(id, ok) => ReleasedAhead(s, id, ok);
    case _ =>
  }

  lemma ReleasedAhead(s: State, id: Id, ok: bool)
    requires Distinct(s.required) && s.doing.TearingDown?
    ensures Ahead(Released(s, id, ok))
  {
    ReleasedGoesOn(s, id, ok);
  }

  lemma {:induction false} RunKept(s: State, steps: seq<Step>)
    requires Kept(s) && IsRun(s, steps) && Started(After(s, steps)) <= 1
    ensures Kept(After(s, steps))
    decreases |steps|
  {
    if steps != [] {
      StartsGrow(Next(s, steps[0]), steps[1..]);
      StepKept(s, steps[0]);
      RunKept(Next(s, steps[0]), steps[1..]);
    }
  }

  // ---------------------------------------------------------------- at most so often

  // The connection's own join waits, and nothing before it ends the session.
  ghost predicate Waits(s: State, c: nat) {
    && !s.stopped && !s.destroyed && !s.doing.TearingDown?
    && exists i :: 0 <= i < |s.queue| && IsJoinOf(s.queue[i], c) && forall j :: 0 <= j < i ==> !Ends(s.queue[j])
  }

  predicate IsJoinOf(w: Work, c: nat) {
    w.WorkJoin? && w.server.connection == c
  }

  // It is current, and a start that reaches its runtime would bring it up.
  ghost predicate Reachable(s: State, id: Id, c: nat) {
    id in s.connected && s.connected[id].connection == c && (s.past.begun == 0 || Awaits(s, id))
  }

  ghost function Yet(s: State, id: Id, c: nat): nat {
    (if Reachable(s, id, c) then 1 else 0) + (if Waits(s, c) then 1 else 0)
  }

  ghost predicate OneJoin(s: State, c: nat) {
    forall i, j :: 0 <= i < j < |s.queue| ==> !(IsJoinOf(s.queue[i], c) && IsJoinOf(s.queue[j], c))
  }

  // The connection is the runtime's, its join is heard of once, and it was asked, and may be asked yet, so often.
  ghost predicate AtMost(s: State, id: Id, c: nat, n: nat) {
    c in s.past.met && s.past.met[c] == id && OneJoin(s, c) && s.past.provisioned[c] + Yet(s, id, c) <= n
  }

  ghost predicate Theirs(s: State) {
    forall id :: id in s.connected ==> IsFor(s, s.connected[id], id)
  }

  lemma {:induction false} ContinueAtMost(s: State, rest: seq<Id>, id: Id, c: nat)
    requires Theirs(s) && Distinct(rest) && c in s.past.met && s.past.met[c] == id
    ensures var n, here := Continue(s, rest), id in s.connected && s.connected[id].connection == c;
            n.past.provisioned[c] + (if here && Awaits(n, id) then 1 else 0)
            <= s.past.provisioned[c] + (if here && id in rest then 1 else 0)
    decreases |rest|
  {
    if rest != [] {
      assert rest == [rest[0]] + rest[1..];
      DistinctTail(rest);
      if rest[0] in s.connected {
        assert IsFor(s, s.connected[rest[0]], rest[0]);
      } else {
        ContinueAtMost(s, rest[1..], id, c);
      }
    }
  }

  // It was asked no more often than the start that is under way had yet to come to it.
  ghost predicate NoMore(s: State, n: State, id: Id, c: nat) {
    var here := id in s.connected && s.connected[id].connection == c;
    n.past.provisioned[c] + (if here && Awaits(n, id) then 1 else 0) <= s.past.provisioned[c] + (if here && Awaits(s, id) then 1 else 0)
  }

  lemma {:induction false} OnwardAtMost(s: State, t: State, id: Id, c: nat)
    requires Theirs(s) && Ahead(s) && s.doing.BringingUp? && c in s.past.met && s.past.met[c] == id
    requires t.connected == s.connected && t.past == s.past
    ensures NoMore(s, Continue(t, s.doing.rest), id, c)
  {
    assert forall x, j :: IsFor(s, x, j) ==> IsFor(t, x, j);
    ContinueAtMost(t, s.doing.rest, id, c);
  }

  lemma {:induction false} GoesLiveAtMost(s: State, t: State, j: Id, id: Id, c: nat)
    requires Theirs(s) && Ahead(s) && s.doing.BringingUp? && c in s.past.met && s.past.met[c] == id
    requires t.connected == s.connected && t.past == s.past
    ensures NoMore(s, GoesLive(t, j, s.doing.rest), id, c) && NoMore(s, Fails(t, j, s.doing.rest), id, c)
  {
    OnwardAtMost(s, t.(live := t.live - {j}), id, c);
    OnwardAtMost(s, t.(live := t.live + {j}), id, c);
  }

  lemma {:induction false} AnsweredAtMost(s: State, ok: bool, services: bool, id: Id, c: nat)
    requires Theirs(s) && Ahead(s) && s.doing.BringingUp? && c in s.past.met && s.past.met[c] == id
    ensures NoMore(s, Answered(s, ok, services), id, c)
  {
    GoesLiveAtMost(s, s, s.doing.id, id, c);
    GoesLiveAtMost(s, HasBuilt(s, s.doing.id), s.doing.id, id, c);
  }

  lemma {:induction false} TakeAtMost(s: State, id: Id, c: nat, n: nat)
    requires Kept(s) && AtMost(s, id, c, n) && s.queue != [] && s.doing.Idle? && Started(s) <= 1
    ensures AtMost(Take(s), id, c, n)
  {
    var t := s.(queue := s.queue[1..]);
    TakeBegins(s);
    OneJoinLeft(s, t.queue, c);
    match s.queue[0]
    case WorkStart => StartAtMost(s, t, id, c, n);
    case WorkJoin(j, server) => JoinedAtMost(s, t, j, server, id, c, n);
    case WorkStop => EndAtMost(s, t, false, id, c);
    case WorkDestroy => EndAtMost(s, t, true, id, c);
  }

  lemma OneJoinLeft(s: State, queue: seq<Work>, c: nat)
    requires OneJoin(s, c) && s.queue != [] && queue == s.queue[1..]
    ensures forall i, j :: 0 <= i < j < |queue| ==> !(IsJoinOf(queue[i], c) && IsJoinOf(queue[j], c))
    ensures IsJoinOf(s.queue[0], c) ==> forall i :: 0 <= i < |queue| ==> !IsJoinOf(queue[i], c)
  {
    forall i, j | 0 <= i < j < |queue| ensures !(IsJoinOf(queue[i], c) && IsJoinOf(queue[j], c)) {
      assert queue[i] == s.queue[i + 1] && queue[j] == s.queue[j + 1];
    }
  }

  // What waits once the first piece was taken waited before.
  lemma WaitedBefore(s: State, n: State, c: nat)
    requires s.queue != [] && n.queue == s.queue[1..] && !Ends(s.queue[0]) && Waits(n, c)
    requires !s.stopped && !s.destroyed && s.doing.Idle?
    ensures Waits(s, c)
  {
    var i :| 0 <= i < |n.queue| && IsJoinOf(n.queue[i], c) && forall j :: 0 <= j < i ==> !Ends(n.queue[j]);
    assert s.queue[i + 1] == n.queue[i];
    forall j | 0 <= j < i + 1 ensures !Ends(s.queue[j]) {
      if j > 0 {
        assert s.queue[j] == n.queue[j - 1];
      }
    }
  }

  lemma StartAtMost(s: State, t: State, id: Id, c: nat, n: nat)
    requires Kept(s) && AtMost(s, id, c, n) && s.queue != [] && s.doing.Idle? && Started(s) <= 1
    requires t == s.(queue := s.queue[1..]) && s.queue[0].WorkStart?
    ensures var m := Starts(t); m.past.provisioned[c] + Yet(m, id, c) <= n
  {
    QueueOf(s.queue);
    ContinueGoesOn(Begun(t), s.required);
    ContinueAtMost(Begun(t), s.required, id, c);
    assert forall i :: 0 <= i < |t.queue| ==> t.queue[i] == s.queue[i + 1];
  }

  lemma JoinedAtMost(s: State, t: State, j: Id, server: Server, id: Id, c: nat, n: nat)
    requires Kept(s) && AtMost(s, id, c, n) && s.queue != [] && s.doing.Idle?
    requires t == s.(queue := s.queue[1..]) && s.queue[0] == WorkJoin(j, server)
    requires IsJoinOf(s.queue[0], c) ==> forall i :: 0 <= i < |t.queue| ==> !IsJoinOf(t.queue[i], c)
    ensures var m := Joined(t, j, server); m.past.provisioned[c] + Yet(m, id, c) <= n
  {
    var m := Joined(t, j, server);
    assert !Awaits(m, id) && s.past.begun > 0;
    if Waits(m, c) {
      WaitedBefore(s, m, c);
    } else if m.past.provisioned[c] > s.past.provisioned[c] {
      assert IsJoinOf(s.queue[0], c) && Waits(s, c);
    }
  }

  lemma EndAtMost(s: State, t: State, destroying: bool, id: Id, c: nat)
    requires s.queue != [] && t == s.(queue := s.queue[1..]) && s.doing.Idle?
    ensures var m := TearsDown(t, destroying);
            m.past == s.past && !Waits(m, c) && (Reachable(m, id, c) ==> Reachable(s, id, c))
  {
    TearsDownGoesOn(t, destroying);
    TearsDownEnds(t, destroying);
  }

  lemma TearsDownEnds(s: State, destroying: bool)
    ensures var m := TearsDown(s, destroying); m.doing.TearingDown? || m.stopped || m.destroyed
  {
  }

  lemma ReleasedEnds(s: State, j: Id, ok: bool)
    requires Inv(s) && s.doing.TearingDown?
    ensures var m := Released(s, j, ok); m.doing.TearingDown? || m.stopped || m.destroyed
  {
  }

  // More behind what waits changes nothing of it, but for the connection's own join.
  lemma WaitsBehind(s: State, n: State, w: Work, c: nat)
    requires n.queue == s.queue + [w] && !IsJoinOf(w, c)
    requires n.stopped == s.stopped && n.destroyed == s.destroyed && n.doing == s.doing
    ensures Waits(n, c) ==> Waits(s, c)
    ensures OneJoin(s, c) ==> OneJoin(n, c)
  {
    if Waits(n, c) {
      var i :| 0 <= i < |n.queue| && IsJoinOf(n.queue[i], c) && forall j :: 0 <= j < i ==> !Ends(n.queue[j]);
      assert s.queue[i] == n.queue[i];
      forall j | 0 <= j < i ensures !Ends(s.queue[j]) {
        assert s.queue[j] == n.queue[j];
      }
    }
  }

  lemma {:induction false} StepAtMost(s: State, step: Step, id: Id, c: nat, n: nat)
    requires Kept(s) && AtMost(s, id, c, n) && Enabled(s, step) && Started(Next(s, step)) <= 1
    ensures AtMost(Next(s, step), id, c, n)
  {
    StartsAdd(s, step);
    match step
    case Takes => TakeAtMost(s, id, c, n);
    case Answers(ok, services) => AnswerAtMost(s, ok, services, id, c, n);
    case Releases(j, ok) => ReleaseAtMost(s, j, ok, id, c, n);
    case _ => EventAtMost(s, step, id, c, n);
  }

  // What happens beside the work: calls, servers that come and go.
  lemma {:induction false} EventAtMost(s: State, step: Step, id: Id, c: nat, n: nat)
    requires AtMost(s, id, c, n) && Enabled(s, step) && Event(step)
    ensures AtMost(Next(s, step), id, c, n)
  {
    match step
    case Joins(j, server) => JoinAtMost(s, j, server, id, c, n);
    case Leaves(j) => LeaveAtMost(s, j, id, c, n);
    case AskStart => AskAtMost(s, WorkStart, id, c, n);
    case AskStop => AskAtMost(s, WorkStop, id, c, n);
    case AskDestroy => AskAtMost(s, WorkDestroy, id, c, n);
    case Closes(_) => SameAtMost(s, Next(s, step), id, c, n);
    case Removes(_) => SameAtMost(s, Next(s, step), id, c, n);
    case SwitchCapture(_) => SameAtMost(s, Next(s, step), id, c, n);
  }

  lemma AskAtMost(s: State, w: Work, id: Id, c: nat, n: nat)
    requires AtMost(s, id, c, n) && !w.WorkJoin?
    ensures AtMost(s.(queue := s.queue + [w]), id, c, n)
  {
    WaitsBehind(s, s.(queue := s.queue + [w]), w, c);
  }

  // Nothing that is told from changes, or the session ends.
  lemma SameAtMost(s: State, m: State, id: Id, c: nat, n: nat)
    requires AtMost(s, id, c, n) && m.queue == s.queue && m.connected == s.connected && m.past == s.past
    requires Awaits(m, id) ==> Awaits(s, id)
    requires m.stopped || m.destroyed || m.doing.TearingDown?
             || (m.stopped == s.stopped && m.destroyed == s.destroyed && !s.doing.TearingDown?)
    ensures AtMost(m, id, c, n)
  {
  }

  lemma {:induction false} ReleaseAtMost(s: State, j: Id, ok: bool, id: Id, c: nat, n: nat)
    requires Inv(s) && AtMost(s, id, c, n) && s.doing.TearingDown?
    ensures AtMost(Released(s, j, ok), id, c, n)
  {
    ReleasedGoesOn(s, j, ok);
    ReleasedEnds(s, j, ok);
    SameAtMost(s, Released(s, j, ok), id, c, n);
  }

  lemma {:induction false} AnswerAtMost(s: State, ok: bool, services: bool, id: Id, c: nat, n: nat)
    requires Kept(s) && AtMost(s, id, c, n) && s.doing.BringingUp?
    ensures AtMost(Answered(s, ok, services), id, c, n)
  {
    AnsweredGoesOn(s, ok, services);
    AnsweredAtMost(s, ok, services, id, c);
    AnsweredWaits(s, ok, services, c);
  }

  lemma {:induction false} JoinAtMost(s: State, j: Id, server: Server, id: Id, c: nat, n: nat)
    requires AtMost(s, id, c, n) && server.connection !in s.past.met
    ensures AtMost(Next(s, Joins(j, server)), id, c, n)
  {
    var m := Next(s, Joins(j, server));
    assert Reachable(m, id, c) ==> Reachable(s, id, c);
    if s.subscribed {
      WaitsBehind(s, m, WorkJoin(j, server), c);
    }
  }

  lemma {:induction false} LeaveAtMost(s: State, j: Id, id: Id, c: nat, n: nat)
    requires AtMost(s, id, c, n) && j in s.connected
    ensures AtMost(Next(s, Leaves(j)), id, c, n)
  {
    var m := Next(s, Leaves(j));
    assert Reachable(m, id, c) ==> Reachable(s, id, c);
    assert Waits(m, c) ==> Waits(s, c);
  }

  lemma {:induction false} AnsweredWaits(s: State, ok: bool, services: bool, c: nat)
    requires s.doing.BringingUp?
    ensures Waits(Answered(s, ok, services), c) ==> Waits(s, c)
  {
    AnsweredGoesOn(s, ok, services);
  }

  lemma {:induction false} RunAtMost(s: State, steps: seq<Step>, id: Id, c: nat, n: nat)
    requires Kept(s) && AtMost(s, id, c, n) && IsRun(s, steps) && Started(After(s, steps)) <= 1
    ensures After(s, steps).past.provisioned[c] <= n
    decreases |steps|
  {
    if steps != [] {
      StartsGrow(Next(s, steps[0]), steps[1..]);
      StepKept(s, steps[0]);
      StepAtMost(s, steps[0], id, c, n);
      RunAtMost(Next(s, steps[0]), steps[1..], id, c, n);
    }
  }

  // ---------------------------------------------------------------- and as often

  // What is under way fails, and so does everything after it, until nothing is under way.
  lemma {:induction false} Finishes(s: State, id: Id, c: nat) returns (steps: seq<Step>)
    requires s.doing.BringingUp? && forall j :: j in s.doing.rest ==> j !in s.built
    ensures IsRun(s, steps) && After(s, steps).doing.Idle?
    ensures var n := After(s, steps);
            && n.built == s.built && n.queue == s.queue && n.stopped == s.stopped && n.destroyed == s.destroyed
            && n.past.begun == s.past.begun && n.required == s.required
            && n.past.provisioned[c] >= s.past.provisioned[c]
                 + (if Awaits(s, id) && id in s.connected && s.connected[id].connection == c then 1 else 0)
    decreases |s.doing.rest|
  {
    var n := Answered(s, false, false);
    FailsOn(s, id, c);
    steps := [Answers(false, false)];
    if n.doing.BringingUp? {
      var more := Finishes(n, id, c);
      steps := [Answers(false, false)] + more;
      assert steps[1..] == more;
    } else {
      assert steps[1..] == [] && IsRun(n, []);
    }
  }

  lemma {:induction false} ContinueReaches(s: State, rest: seq<Id>, id: Id, c: nat)
    requires forall j :: j in rest ==> j !in s.built
    ensures var n := Continue(s, rest);
            && n.built == s.built
            && (n.doing.Idle? || (n.doing.BringingUp? && |n.doing.rest| < |rest| && forall j :: j in n.doing.rest ==> j in rest))
            && (id in rest && id in s.connected && s.connected[id].connection == c ==>
                  n.past.provisioned[c] + (if Awaits(n, id) then 1 else 0) >= s.past.provisioned[c] + 1)
            && n.past.provisioned[c] >= s.past.provisioned[c]
    decreases |rest|
  {
    if rest != [] {
      assert rest == [rest[0]] + rest[1..];
      if rest[0] !in s.connected {
        ContinueReaches(s, rest[1..], id, c);
      }
    }
  }

  lemma {:induction false} FailsOn(s: State, id: Id, c: nat)
    requires s.doing.BringingUp? && forall j :: j in s.doing.rest ==> j !in s.built
    ensures var n := Answered(s, false, false);
            && GoesOn(s.(live := n.live), n)
            && (n.doing.Idle? || (n.doing.BringingUp? && |n.doing.rest| < |s.doing.rest| && forall j :: j in n.doing.rest ==> j !in n.built))
            && n.past.provisioned[c] + (if Awaits(n, id) && id in n.connected && n.connected[id].connection == c then 1 else 0)
               >= s.past.provisioned[c] + (if Awaits(s, id) && id in s.connected && s.connected[id].connection == c then 1 else 0)
  {
    var BringingUp(j, server, stage, rest) := s.doing;
    var t := if stage.Capturing? then s.(live := s.live + {j}) else s.(live := s.live - {j});
    ContinueReaches(t, rest, id, c);
    ContinueGoesOn(t, rest);
  }

  // And so does everything that waits before the connection's join, which is then met.
  lemma {:induction false} MeetsItsJoin(s: State, id: Id, server: Server) returns (steps: seq<Step>)
    requires s.doing.Idle? && GoesOnRunning(s) && !s.stopped && id !in s.built && id in s.required
    requires WorkJoin(id, server) in s.queue && WorkStart !in s.queue
    ensures IsRun(s, steps) && Started(After(s, steps)) == Started(s)
    ensures After(s, steps).past.provisioned[server.connection] > s.past.provisioned[server.connection]
    decreases |s.queue|
  {
    var w, t := s.queue[0], s.(queue := s.queue[1..]);
    assert s.queue == [w] + t.queue;
    var n := Take(s);
    QueueOf(s.queue);
    if w == WorkJoin(id, server) {
      steps := [Takes];
      assert IsRun(n, []) && steps[1..] == [];
    } else {
      assert w in s.queue && !Ends(w);
      var answer := Passes(s);
      var m := if n.doing.Idle? then n else Next(n, answer);
      var more := MeetsItsJoin(m, id, server);
      if n.doing.Idle? {
        steps := [Takes] + more;
        assert steps[1..] == more;
      } else {
        steps := [Takes] + ([answer] + more);
        assert steps[1..] == [answer] + more && steps[1..][1..] == more;
        assert IsRun(n, [answer] + more) && After(n, [answer] + more) == After(m, more);
      }
    }
  }

  // A join that is met and fails leaves the session as it was, but for the queue and what was asked.
  ghost predicate Passed(s: State, m: State) {
    && m.doing.Idle? && m.built == s.built && m.queue == s.queue && m.required == s.required
    && m.stopped == s.stopped && m.destroyed == s.destroyed && m.past.begun == s.past.begun
    && m.past.provisioned >= s.past.provisioned
  }

  lemma {:induction false} Passes(s: State) returns (answer: Step)
    requires s.queue != [] && s.doing.Idle? && s.queue[0].WorkJoin? && !s.destroyed
    ensures var n := Take(s);
            && (!n.doing.Idle? ==> Enabled(n, answer))
            && Passed(s.(queue := s.queue[1..]), if n.doing.Idle? then n else Next(n, answer))
  {
    var t := s.(queue := s.queue[1..]);
    var WorkJoin(id, server) := s.queue[0];
    var n := Joined(t, id, server);
    if n.doing.BringingUp? {
      answer := Answers(false, false);
      BroughtUpPasses(t, id, server);
    } else {
      answer := Removes(false);
    }
  }

  lemma BroughtUpPasses(s: State, id: Id, server: Server)
    requires s.doing.Idle?
    ensures Passed(s, Answered(BringUp(s, id, server, []), false, false))
  {
    var u := BringUp(s, id, server, []);
    assert Answered(u, false, false) == Fails(u, id, []);
    assert Fails(u, id, []) == u.(live := u.live - {id}, doing := Idle);
  }

  // A run, of a session that is started no more than once, by whose end the connection was asked twice.
  ghost predicate Twice(s: State, steps: seq<Step>, c: nat) {
    IsRun(s, steps) && Started(After(s, steps)) <= 1 && After(s, steps).past.provisioned[c] >= 2
  }

  lemma {:induction false} RunsOn(s: State, a: seq<Step>, b: seq<Step>)
    requires IsRun(s, a) && IsRun(After(s, a), b)
    ensures IsRun(s, a + b) && After(s, a + b) == After(After(s, a), b)
    decreases |a|
  {
    if a == [] {
      assert a + b == b;
    } else {
      assert (a + b)[0] == a[0] && (a + b)[1..] == a[1..] + b;
      RunsOn(Next(s, a[0]), a[1..], b);
    }
  }

  lemma {:induction false} AskedTwice(s: State, id: Id, server: Server) returns (steps: seq<Step>)
    requires Kept(s) && Started(s) <= 1 && Enabled(s, Joins(id, server))
    requires Awaits(s, id) && GoesOnRunning(s)
    ensures Twice(Next(s, Joins(id, server)), steps, server.connection)
  {
    var t := Next(s, Joins(id, server));
    var a := Finishes(t, id, server.connection);
    var m := After(t, a);
    assert t.queue[|s.queue|] == WorkJoin(id, server);
    NoStartWaits(t);
    var b := MeetsItsJoin(m, id, server);
    RunsOn(t, a, b);
    steps := a + b;
  }

  lemma NoStartWaits(s: State)
    requires Started(s) <= 1 && s.past.begun > 0
    ensures WorkStart !in s.queue
  {
  }

  // ---------------------------------------------------------------- exactly when

  // A server that connects now may be asked to provision its runtime twice, exactly if a start that is under
  // way has yet to reach the runtime and nothing that waits ends the session.
  lemma {:induction false} ProvisionedTwiceExactly(s: State, before: seq<Step>, id: Id, server: Server)
    requires Initial(s) && Distinct(s.required) && IsRun(s, before) && Started(After(s, before)) <= 1
    requires Enabled(After(s, before), Joins(id, server))
    ensures var n := After(s, before);
            (exists steps :: Twice(Next(n, Joins(id, server)), steps, server.connection))
            <==> Awaits(n, id) && GoesOnRunning(n)
  {
    RunKept(s, before);
    var n, c := After(s, before), server.connection;
    var t := Next(n, Joins(id, server));
    StepKept(n, Joins(id, server));
    if Awaits(n, id) && GoesOnRunning(n) {
      var steps := AskedTwice(n, id, server);
    } else {
      JoinsOnce(n, id, server);
      forall steps | Twice(t, steps, c) ensures false {
        RunAtMost(t, steps, id, c, 1);
      }
    }
  }

  lemma {:induction false} JoinsOnce(s: State, id: Id, server: Server)
    requires Kept(s) && Enabled(s, Joins(id, server)) && !(Awaits(s, id) && GoesOnRunning(s))
    ensures AtMost(Next(s, Joins(id, server)), id, server.connection, 1)
  {
    var t, c := Next(s, Joins(id, server)), server.connection;
    forall i | 0 <= i < |s.queue| ensures !IsJoinOf(s.queue[i], c) {
      if s.queue[i].WorkJoin? {
        assert IsFor(s, s.queue[i].server, s.queue[i].id);
      }
    }
    assert s.past.provisioned[c] == 0;
    if Awaits(s, id) && Waits(t, c) {
      var i :| 0 <= i < |t.queue| && IsJoinOf(t.queue[i], c) && forall j :: 0 <= j < i ==> !Ends(t.queue[j]);
      assert i == |s.queue|;
      forall w | w in s.queue ensures !Ends(w) {
        var j :| 0 <= j < |s.queue| && s.queue[j] == w;
        assert t.queue[j] == w;
      }
    }
  }

  // The connection joins at no such moment.
  ghost predicate JoinsClear(s: State, steps: seq<Step>, c: nat)
    requires IsRun(s, steps)
    decreases |steps|
  {
    steps != [] ==>
      && (steps[0].Joins? && steps[0].server.connection == c ==> !(Awaits(s, steps[0].id) && GoesOnRunning(s)))
      && JoinsClear(Next(s, steps[0]), steps[1..], c)
  }

  // So a connection that joins at another moment, or was there before, is asked at most once in any run.
  lemma {:induction false} ProvisionedOnce(s: State, steps: seq<Step>, c: nat)
    requires Initial(s) && Distinct(s.required) && IsRun(s, steps) && Started(After(s, steps)) <= 1
    requires JoinsClear(s, steps, c)
    ensures After(s, steps).past.provisioned[c] <= 1
  {
    if c in s.past.met {
      RunAtMost(s, steps, s.past.met[c], c, 1);
    } else {
      OnceFrom(s, steps, c);
    }
  }

  lemma {:induction false} OnceFrom(s: State, steps: seq<Step>, c: nat)
    requires Kept(s) && IsRun(s, steps) && Started(After(s, steps)) <= 1
    requires JoinsClear(s, steps, c) && c !in s.past.met
    ensures After(s, steps).past.provisioned[c] <= 1
    decreases |steps|
  {
    if steps == [] {
      assert s.past.provisioned[c] == 0;
    } else {
      var n, step := Next(s, steps[0]), steps[0];
      StartsGrow(n, steps[1..]);
      StepKept(s, step);
      if step.Joins? && step.server.connection == c {
        JoinsOnce(s, step.id, step.server);
        RunAtMost(n, steps[1..], step.id, c, 1);
      } else {
        MetOnlyByJoining(s, step);
        OnceFrom(n, steps[1..], c);
      }
    }
  }

  lemma {:induction false} MetOnlyByJoining(s: State, step: Step)
    requires Enabled(s, step)
    ensures Next(s, step).past.met == if step.Joins? then s.past.met[step.server.connection := step.id] else s.past.met
  {
    match step
    case Answers(ok, services) => AnsweredMeets(s, ok, services);
    case Takes => TakeBegins(s);
    case Releases(id, ok) => ReleasedGoesOn(s, id, ok);
    case _ =>
  }

  lemma AnsweredMeets(s: State, ok: bool, services: bool)
    requires s.doing.BringingUp?
    ensures Answered(s, ok, services).past.met == s.past.met
  {
    AnsweredGoesOn(s, ok, services);
  }

  // A board of two runtimes is started with the first one's server there. The second one's connects while the
  // first is built, saying its runtime is not there: the start builds it, and its join builds it again.
  lemma {:induction false} BuiltTwice(s: State, a: Id, b: Id)
    requires Initial(s) && a != b && s.required == [a, b] && s.connected.Keys == {a} && 1 !in s.past.met
    ensures var steps := [AskStart, Takes, Joins(b, Server(1, false)), Answers(true, true), Answers(true, true), Takes];
            && IsRun(s, steps)
            && var n := After(s, steps);
               && n.past.provisioned[1] == 2 && n.asked[Ask(Provision, b)] == 2
               && b in n.built && b in n.live && b in n.connected && n.connected[b].connection == 1
  {
    var first, rest := [AskStart, Takes, Joins(b, Server(1, false))], [Answers(true, true), Answers(true, true), Takes];
    JoinsMeanwhile(s, a, b);
    BuildsBoth(After(s, first), a, b);
    RunsOn(s, first, rest);
    assert first + rest == [AskStart, Takes, Joins(b, Server(1, false)), Answers(true, true), Answers(true, true), Takes];
  }

  // The first runtime is being built, the second one's server there and its join waiting.
  ghost predicate Meanwhile(s: State, a: Id, b: Id) {
    && s.queue == [WorkJoin(b, Server(1, false))] && b in s.connected && s.connected[b] == Server(1, false) && 1 in s.open
    && s.doing.BringingUp? && s.doing.id == a && s.doing.stage.Building? && s.doing.rest == [b] && s.doing.server.connection in s.open
    && s.built == {} && !s.capture && !s.stopped && !s.destroyed && s.required == [a, b]
    && s.asked[Ask(Provision, b)] == 0 && s.past.provisioned[1] == 0
  }

  lemma {:induction false} JoinsMeanwhile(s: State, a: Id, b: Id)
    requires Initial(s) && a != b && s.required == [a, b] && s.connected.Keys == {a} && 1 !in s.past.met
    ensures var steps := [AskStart, Takes, Joins(b, Server(1, false))];
            IsRun(s, steps) && Meanwhile(After(s, steps), a, b)
  {
    var s1 := Next(s, AskStart);
    assert s1.queue == [WorkStart];
    StartsWithFirst(s1, a, b);
    var s2 := Next(s1, Takes);
    assert s.connected[a].connection in s.past.met;
    Thrice(s, AskStart, s1, Takes, s2, Joins(b, Server(1, false)), Next(s2, Joins(b, Server(1, false))));
  }

  lemma {:induction false} BuildsBoth(s: State, a: Id, b: Id)
    requires a != b && Meanwhile(s, a, b)
    ensures var steps := [Answers(true, true), Answers(true, true), Takes];
            && IsRun(s, steps)
            && var n := After(s, steps);
               && n.past.provisioned[1] == 2 && n.asked[Ask(Provision, b)] == 2
               && b in n.built && b in n.live && b in n.connected && n.connected[b].connection == 1
  {
    SecondIsReached(s, a, b, Server(1, false));
    var s4 := Next(s, Answers(true, true));
    var s5 := Next(s4, Answers(true, true));
    JoinBuildsAgain(s5, b, Server(1, false));
    Thrice(s, Answers(true, true), s4, Answers(true, true), s5, Takes, Next(s5, Takes));
  }

  lemma Thrice(s: State, a: Step, s1: State, b: Step, s2: State, c: Step, s3: State)
    requires Enabled(s, a) && Next(s, a) == s1 && Enabled(s1, b) && Next(s1, b) == s2 && Enabled(s2, c) && Next(s2, c) == s3
    ensures IsRun(s, [a, b, c]) && After(s, [a, b, c]) == s3
  {
    RunOfOne(s2, c, s3, []);
    RunOfOne(s1, b, s2, [c] + []);
    RunOfOne(s, a, s1, [b] + ([c] + []));
    assert [a] + ([b] + ([c] + [])) == [a, b, c];
  }

  // One step and then the rest.
  lemma RunOfOne(s: State, step: Step, n: State, rest: seq<Step>)
    requires Enabled(s, step) && Next(s, step) == n && IsRun(n, rest)
    ensures IsRun(s, [step] + rest) && After(s, [step] + rest) == After(n, rest)
  {
    assert ([step] + rest)[1..] == rest;
  }

  // Its join is met by a session that built it, is running, and hears that it is not there.
  lemma JoinBuildsAgain(s: State, b: Id, server: Server)
    requires s.queue == [WorkJoin(b, server)] && s.doing.Idle? && !s.destroyed && !s.stopped && b in s.required
    requires !server.runtimeExists
    ensures Take(s).asked == s.asked + multiset{Ask(Provision, b)} && Take(s).built == s.built && Take(s).live == s.live
    ensures Take(s).connected == s.connected
    ensures Take(s).past.provisioned == s.past.provisioned + multiset{server.connection}
  {
  }

  lemma StartsWithFirst(s: State, a: Id, b: Id)
    requires s.queue == [WorkStart] && s.doing.Idle? && s.required == [a, b] && a in s.connected && b !in s.connected
    requires s.built == {}
    ensures var n := Take(s);
            && n.doing == BringingUp(a, s.connected[a], Building, [b]) && n.queue == [] && n.built == {} && n.subscribed
            && n.connected == s.connected && n.open == s.open && n.capture == s.capture && !n.stopped && n.destroyed == s.destroyed
            && n.required == s.required && n.asked == s.asked + multiset{Ask(Provision, a)}
            && n.past.met == s.past.met && n.past.provisioned == s.past.provisioned + multiset{s.connected[a].connection}
  {
    assert [WorkStart][1..] == [] && [a, b][0] == a && [a, b][1..] == [b];
  }

  lemma SecondIsReached(s: State, a: Id, b: Id, server: Server)
    requires a != b && b in s.connected && s.connected[b] == server && !server.runtimeExists && !s.capture
    requires s.doing.BringingUp? && s.doing.id == a && s.doing.stage.Building? && s.doing.rest == [b]
    requires b !in s.built
    ensures var n := Answered(Answered(s, true, true), true, true);
            && Answered(s, true, true).doing == BringingUp(b, server, Building, [])
            && n.doing.Idle? && n.queue == s.queue && n.connected == s.connected && n.open == s.open && n.built == s.built + {a, b}
            && b in n.live && n.stopped == s.stopped && n.destroyed == s.destroyed && n.required == s.required
            && n.asked == s.asked + multiset{Ask(Provision, b)}
            && n.past.provisioned == s.past.provisioned + multiset{server.connection}
            && Answered(s, true, true).open == s.open
  {
    assert [b][1..] == [];
  }

  // ---------------------------------------------------------------- picked up, never rebuilt

  // A start is still to come to the runtime.
  predicate StartAhead(s: State, id: Id) {
    WorkStart in s.queue || Awaits(s, id)
  }

  predicate Picks(w: Work, id: Id) {
    !w.WorkStop? && (w.WorkJoin? && w.id == id ==> w.server.runtimeExists)
  }

  // The session built the runtime; every join for it that waits in the queue said it is still running there,
  // and so did the server connected if a start is still to come to it.
  ghost predicate StillRunning(s: State, id: Id) {
    && id in s.built
    && (StartAhead(s, id) && id in s.connected ==> s.connected[id].runtimeExists)
    && (forall w :: w in s.queue ==> Picks(w, id))
    && (s.doing.TearingDown? ==> s.doing.destroying)
  }

  // Servers that join for the runtime say it is still running, the session is not stopped, and it is started
  // only with nobody there for the runtime, or with a server that said so.
  ghost predicate Reconnects(s: State, steps: seq<Step>, id: Id)
    requires IsRun(s, steps)
    decreases |steps|
  {
    steps != [] ==> ReconnectsBy(s, steps[0], id) && Reconnects(Next(s, steps[0]), steps[1..], id)
  }

  predicate ReconnectsBy(s: State, step: Step, id: Id) {
    && !step.AskStop? && (step.Joins? && step.id == id ==> step.server.runtimeExists)
    && (step.AskStart? && id in s.connected ==> s.connected[id].runtimeExists)
  }

  // Going on through a start asks nobody to provision it.
  lemma {:induction false} ContinueNoRebuild(s: State, rest: seq<Id>, id: Id)
    requires id in s.built && (id in rest && id in s.connected ==> s.connected[id].runtimeExists)
    ensures var n := Continue(s, rest);
            n.built == s.built && (Awaits(n, id) ==> id in rest) && !n.doing.TearingDown? && n.asked[Ask(Provision, id)] == s.asked[Ask(Provision, id)]
    decreases |rest|
  {
    if rest != [] {
      assert rest == [rest[0]] + rest[1..];
      if rest[0] in s.connected {
        NextNoRebuild(s, rest[0], s.connected[rest[0]], rest[1..], id);
      } else {
        ContinueNoRebuild(s, rest[1..], id);
      }
    }
  }

  lemma NextNoRebuild(s: State, j: Id, server: Server, rest: seq<Id>, id: Id)
    requires id in s.built && (j == id ==> server.runtimeExists)
    ensures var n := BringUp(s, j, server, rest);
            n.built == s.built && n.doing.BringingUp? && n.doing.rest == rest && n.asked[Ask(Provision, id)] == s.asked[Ask(Provision, id)]
  {
  }

  lemma {:induction false} AnsweredNoRebuild(s: State, ok: bool, services: bool, id: Id)
    requires StillRunning(s, id) && s.doing.BringingUp?
    ensures StillRunning(Answered(s, ok, services), id)
    ensures Answered(s, ok, services).asked[Ask(Provision, id)] == s.asked[Ask(Provision, id)]
  {
    var BringingUp(j, server, stage, rest) := s.doing;
    if (stage.Building? && ok && services) || (stage.Describing? && ok) {
      BuiltNoRebuild(s, j, server, rest, id);
    } else if !(stage.Building? && ok) {
      GoesLiveNoRebuild(s, s, j, id);
    }
  }

  lemma BuiltNoRebuild(s: State, j: Id, server: Server, rest: seq<Id>, id: Id)
    requires StillRunning(s, id) && s.doing.BringingUp? && s.doing.id == j && s.doing.server == server && s.doing.rest == rest
    ensures StillRunning(Built(s, j, server, rest), id)
    ensures Built(s, j, server, rest).asked[Ask(Provision, id)] == s.asked[Ask(Provision, id)]
  {
    GoesLiveNoRebuild(s, HasBuilt(s, j), j, id);
  }

  lemma GoesLiveNoRebuild(s: State, t: State, j: Id, id: Id)
    requires StillRunning(s, id) && s.doing.BringingUp? && t == s.(built := t.built, held := t.held) && s.built <= t.built
    ensures StillRunning(GoesLive(t, j, s.doing.rest), id) && StillRunning(Fails(t, j, s.doing.rest), id)
    ensures GoesLive(t, j, s.doing.rest).asked[Ask(Provision, id)] == s.asked[Ask(Provision, id)]
    ensures Fails(t, j, s.doing.rest).asked[Ask(Provision, id)] == s.asked[Ask(Provision, id)]
  {
    NoRebuildAfter(s, t.(live := t.live - {j}), s.doing.rest, id);
    NoRebuildAfter(s, t.(live := t.live + {j}), s.doing.rest, id);
  }

  lemma NoRebuildAfter(s: State, t: State, rest: seq<Id>, id: Id)
    requires StillRunning(s, id) && s.doing.BringingUp? && rest == s.doing.rest
    requires t == s.(live := t.live, built := t.built, held := t.held) && s.built <= t.built
    ensures StillRunning(Continue(t, rest), id)
    ensures Continue(t, rest).asked[Ask(Provision, id)] == s.asked[Ask(Provision, id)]
  {
    ContinueNoRebuild(t, rest, id);
    ContinueGoesOn(t, rest);
  }

  lemma {:induction false} StepNoRebuild(s: State, step: Step, id: Id)
    requires StillRunning(s, id) && Enabled(s, step) && ReconnectsBy(s, step, id)
    ensures StillRunning(Next(s, step), id)
    ensures Next(s, step).asked[Ask(Provision, id)] == s.asked[Ask(Provision, id)]
  {
    match step
    case Answers(ok, services) => AnsweredNoRebuild(s, ok, services, id);
    case Takes => TakeNoRebuild(s, id);
    case Releases(j, ok) => ReleasedNoRebuild(s, j, ok, id);
    case AskStart =>
    case AskDestroy =>
    case Joins(_, _) =>
    case _ =>
  }

  lemma {:induction false} ReleasedNoRebuild(s: State, j: Id, ok: bool, id: Id)
    requires StillRunning(s, id) && s.doing.TearingDown?
    ensures StillRunning(Released(s, j, ok), id)
    ensures Released(s, j, ok).asked == s.asked
  {
  }

  lemma {:induction false} TakeNoRebuild(s: State, id: Id)
    requires StillRunning(s, id) && s.queue != [] && s.doing.Idle?
    ensures StillRunning(Take(s), id)
    ensures Take(s).asked[Ask(Provision, id)] == s.asked[Ask(Provision, id)]
  {
    var t := s.(queue := s.queue[1..]);
    assert forall w :: w in t.queue ==> w in s.queue;
    assert Picks(s.queue[0], id);
    match s.queue[0]
    case WorkStart => StartNoRebuild(s, t, id);
    case WorkJoin(j, server) => JoinNoRebuild(s, t, j, server, id);
    case WorkDestroy => DestroyNoRebuild(t, id);
  }

  lemma {:induction false} JoinNoRebuild(s: State, t: State, j: Id, server: Server, id: Id)
    requires StillRunning(s, id) && s.queue != [] && s.queue[0] == WorkJoin(j, server) && t == s.(queue := s.queue[1..])
    requires s.doing.Idle?
    ensures StillRunning(Joined(t, j, server), id)
    ensures Joined(t, j, server).asked[Ask(Provision, id)] == s.asked[Ask(Provision, id)]
  {
    assert Picks(s.queue[0], id) && forall w :: w in t.queue ==> w in s.queue;
    assert StillRunning(t, id);
    BringUpNoRebuild(t, j, server, id);
  }

  lemma BringUpNoRebuild(s: State, j: Id, server: Server, id: Id)
    requires StillRunning(s, id) && s.doing.Idle? && (j == id ==> server.runtimeExists)
    ensures StillRunning(BringUp(s, j, server, []), id)
    ensures BringUp(s, j, server, []).asked[Ask(Provision, id)] == s.asked[Ask(Provision, id)]
  {
  }

  lemma {:induction false} StartNoRebuild(s: State, t: State, id: Id)
    requires StillRunning(s, id) && s.queue != [] && s.queue[0].WorkStart? && t == s.(queue := s.queue[1..])
    ensures StillRunning(Starts(t), id)
    ensures Starts(t).asked[Ask(Provision, id)] == s.asked[Ask(Provision, id)]
  {
    assert WorkStart in s.queue && forall w :: w in t.queue ==> w in s.queue;
    ContinueNoRebuild(Begun(t), t.required, id);
    ContinueGoesOn(Begun(t), t.required);
  }

  lemma {:induction false} DestroyNoRebuild(s: State, id: Id)
    requires StillRunning(s, id) && s.doing.Idle?
    ensures StillRunning(TearsDown(s, true), id)
    ensures TearsDown(s, true).asked[Ask(Provision, id)] == s.asked[Ask(Provision, id)]
  {
    assert Ask(Provision, id) !in Asks(s.built - (set j | j in s.built && j !in s.connected));
  }

  // A runtime that was built, and is still running whenever its server comes back, is never provisioned again,
  // however its joins and leaves fall between the session's own awaits.
  lemma {:induction false} NeverRebuilt(s: State, steps: seq<Step>, id: Id)
    requires StillRunning(s, id) && IsRun(s, steps) && Reconnects(s, steps, id)
    ensures After(s, steps).asked[Ask(Provision, id)] == s.asked[Ask(Provision, id)]
    ensures id in After(s, steps).built
    decreases |steps|
  {
    if steps != [] {
      StepNoRebuild(s, steps[0], id);
      NeverRebuilt(Next(s, steps[0]), steps[1..], id);
    }
  }
}
