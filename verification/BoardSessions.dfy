/**
  Which sessions of a board are destroyed, in any interleaving of src/coordinator/coordinator.ts: replaceSession and
  removeBoard each destroy the session that was registered when they began, and then change what is registered,
  whatever it is by then.
 */
module BoardSessions {
  import opened BoardPersistence

  // Beside the board: the session each call under way is destroying, and those that were destroyed.
  datatype Lives = Lives(board: State, held: map<CallId, SessionId>, over: set<SessionId>)

  predicate Enabled(l: Lives, step: Step) {
    BoardPersistence.Enabled(l.board, step) && (step.RemoveEnds? ==> step.call in l.held)
  }

  function Next(l: Lives, step: Step): Lives
    requires Enabled(l, step)
  {
    var n := l.(board := BoardPersistence.Next(l.board, step));
    match step
    case RegisterBegins(c, _) =>
      if l.board.registered.Some? then n.(held := l.held[c := l.board.registered.value]) else n
    case RegisterSettlesTickets(c, _, _) =>
      if c in l.held then n.(held := l.held - {c}, over := l.over + {l.held[c]}) else n
    case RemoveBegins(c) => n.(held := l.held[c := l.board.registered.value])
    case RemoveEnds(c) => n.(held := l.held - {c}, over := l.over + {l.held[c]})
    case _ => n
  }

  ghost predicate IsRun(l: Lives, steps: seq<Step>)
    decreases |steps|
  {
    steps == [] || (Enabled(l, steps[0]) && IsRun(Next(l, steps[0]), steps[1..]))
  }

  ghost function After(l: Lives, steps: seq<Step>): Lives
    requires IsRun(l, steps)
    decreases |steps|
  {
    if steps == [] then l else After(Next(l, steps[0]), steps[1..])
  }

  // ---------------------------------------------------------------- lost sessions

  ghost predicate Starts(l: Lives, id: SessionId) {
    exists c :: c in l.board.calls && l.board.calls[c] == Starting(id)
  }

  ghost predicate Ending(l: Lives, id: SessionId) {
    exists c :: c in l.held && l.held[c] == id
  }

  // Made, and neither registered, nor about to be, nor destroyed, nor being destroyed: it runs on with nobody to
  // stop it.
  ghost predicate Lost(l: Lives, id: SessionId) {
    && id < |l.board.sessions| && l.board.registered != Some(id)
    && id !in l.over && !Starts(l, id) && !Ending(l, id)
  }

  ghost predicate NoneLost(l: Lives) {
    forall id: SessionId :: !Lost(l, id)
  }

  // A removal ends that destroyed another session than the one registered by now, or a registration publishes
  // over one, and nobody destroys that.
  ghost predicate Loses(l: Lives, step: Step) {
    && l.board.registered.Some? && l.board.registered.value !in l.over
    && match step
       case RemoveEnds(c) => forall d :: d in l.held ==> l.held[d] != l.board.registered.value
       case RegisterPublishes(_) => !Ending(l, l.board.registered.value)
       case _ => false
  }

  // A session being started is its call's alone, and nothing yet.
  ghost predicate StartOk(l: Lives, c: CallId) {
    c in l.board.calls && l.board.calls[c].Starting? ==>
      var id := l.board.calls[c].made;
      && id < |l.board.sessions| && l.board.registered != Some(id) && id !in l.over && !Ending(l, id)
      && forall d :: d in l.board.calls && l.board.calls[d] == Starting(id) ==> d == c
  }

  ghost predicate HeldOk(l: Lives, c: CallId) {
    c in l.held ==>
      && l.held[c] < |l.board.sessions| && c in l.board.calls
      && (l.board.calls[c].Destroying? || l.board.calls[c].Deleting?)
  }

  ghost predicate Kept(l: Lives) {
    && Sound(l.board) && (forall c: CallId :: StartOk(l, c) && HeldOk(l, c))
    && forall id :: id in l.over ==> id < |l.board.sessions|
  }

  lemma {:induction false} StepKeeps(l: Lives, step: Step)
    requires Kept(l) && Enabled(l, step)
    ensures Kept(Next(l, step))
  {
    var n := Next(l, step);
    forall c: CallId ensures StartOk(n, c) && HeldOk(n, c) {
      assert StartOk(l, c) && HeldOk(l, c);
      StartKeeps(l, step, c);
      HeldKeeps(l, step, c);
    }
    OverKeeps(l, step);
  }

  lemma OverKeeps(l: Lives, step: Step)
    requires Kept(l) && Enabled(l, step)
    ensures Sound(Next(l, step).board) && forall id :: id in Next(l, step).over ==> id < |Next(l, step).board.sessions|
  {
    if step.RegisterSettlesTickets? || step.RemoveEnds? {
      assert HeldOk(l, step.call);
    }
  }

  lemma HeldKeeps(l: Lives, step: Step, c: CallId)
    requires Kept(l) && Enabled(l, step)
    ensures HeldOk(Next(l, step), c)
  {
    assert HeldOk(l, c);
  }

  lemma StartKeeps(l: Lives, step: Step, c: CallId)
    requires Kept(l) && Enabled(l, step)
    ensures StartOk(Next(l, step), c)
  {
    assert StartOk(l, c);
    match step
    case RegisterSettlesTickets(d, _, _) => SettleKeeps(l, step, c);
    case RegisterPublishes(d) => assert StartOk(l, d);
    case RemoveEnds(d) => EndKeeps(l, d, step, c);
    case _ =>
  }

  lemma SettleKeeps(l: Lives, step: Step, c: CallId)
    requires Kept(l) && Enabled(l, step) && step.RegisterSettlesTickets?
    ensures StartOk(Next(l, step), c)
  {
    var n, id := Next(l, step), |l.board.sessions|;
    assert StartOk(l, c) && HeldOk(l, step.call);
    forall d | d in n.held ensures n.held[d] < id { assert HeldOk(l, d); }
    forall d | d in l.board.calls && l.board.calls[d].Starting? ensures l.board.calls[d].made < id { assert StartOk(l, d); }
    if c in l.board.calls && l.board.calls[c].Starting? && step.call in l.held {
      assert Ending(l, l.held[step.call]);
    }
  }

  lemma EndKeeps(l: Lives, d: CallId, step: Step, c: CallId)
    requires Kept(l) && Enabled(l, step) && step == RemoveEnds(d)
    ensures StartOk(Next(l, step), c)
  {
    assert StartOk(l, c) && Ending(l, l.held[d]);
  }

  lemma {:induction false} RunKeeps(l: Lives, steps: seq<Step>)
    requires Kept(l) && IsRun(l, steps)
    ensures Kept(After(l, steps))
    decreases |steps|
  {
    if steps != [] {
      StepKeeps(l, steps[0]);
      RunKeeps(Next(l, steps[0]), steps[1..]);
    }
  }

  // So it is as a coordinator starts, with no session of the board or the one its store brought back.
  lemma NoneLostAtFirst(s: State)
    requires Initial(s) && (forall id: SessionId :: id < |s.sessions| ==> s.registered == Some(id))
    ensures Kept(Lives(s, map[], {})) && NoneLost(Lives(s, map[], {})) && Alone(Lives(s, map[], {}))
  {
  }

  // ---------------------------------------------------------------- exactly when

  // A session that is lost stays so.
  lemma {:induction false} LostStays(l: Lives, step: Step, id: SessionId)
    requires Kept(l) && Enabled(l, step) && Lost(l, id)
    ensures Lost(Next(l, step), id)
  {
    match step
    case RegisterPublishes(c) => assert Starts(l, l.board.calls[c].made);
    case RemoveEnds(c) => assert Ending(l, l.held[c]);
    case RegisterSettlesTickets(c, _, _) =>
      if c in l.held {
        assert Ending(l, l.held[c]);
      }
    case _ =>
  }

  // And one is lost by a step exactly when the step loses it.
  lemma {:induction false} StepLoses(l: Lives, step: Step)
    requires Kept(l) && Enabled(l, step) && NoneLost(l)
    ensures NoneLost(Next(l, step)) <==> !Loses(l, step)
  {
    var n := Next(l, step);
    if Loses(l, step) {
      LosesIt(l, step);
    } else {
      forall id: SessionId ensures !Lost(n, id) {
        assert !Lost(l, id);
        NotLost(l, step, id);
      }
    }
  }

  lemma {:induction false} LosesIt(l: Lives, step: Step)
    requires Kept(l) && Enabled(l, step) && Loses(l, step)
    ensures Lost(Next(l, step), l.board.registered.value)
  {
    var id := l.board.registered.value;
    forall c | c in l.board.calls ensures l.board.calls[c] != Starting(id) {
      assert StartOk(l, c);
    }
    if step.RegisterPublishes? {
      assert StartOk(l, step.call);
    }
  }

  lemma {:induction false} NotLost(l: Lives, step: Step, id: SessionId)
    requires Kept(l) && Enabled(l, step) && !Lost(l, id) && !Loses(l, step)
    ensures !Lost(Next(l, step), id)
  {
    var n := Next(l, step);
    if c :| c in l.board.calls && l.board.calls[c] == Starting(id) {
      if step != RegisterPublishes(c) {
        assert n.board.calls[c] == Starting(id);
      }
    } else if c :| c in l.held && l.held[c] == id {
      assert HeldOk(l, c);
      if c in n.held {
        assert n.held[c] == id;
      }
    } else if step.RegisterSettlesTickets? && id == |l.board.sessions| {
      assert n.board.calls[step.call] == Starting(id);
    }
  }

  ghost predicate SomeLoses(l: Lives, steps: seq<Step>)
    requires IsRun(l, steps)
    decreases |steps|
  {
    steps != [] && (Loses(l, steps[0]) || SomeLoses(Next(l, steps[0]), steps[1..]))
  }

  // After a run some session is lost exactly when a removal ended, or a registration published, over one that
  // nobody destroys.
  lemma {:induction false} LostExactly(l: Lives, steps: seq<Step>)
    requires Kept(l) && NoneLost(l) && IsRun(l, steps)
    ensures NoneLost(After(l, steps)) <==> !SomeLoses(l, steps)
    decreases |steps|
  {
    if steps != [] {
      var n := Next(l, steps[0]);
      StepLoses(l, steps[0]);
      StepKeeps(l, steps[0]);
      if NoneLost(n) {
        LostExactly(n, steps[1..]);
      } else {
        var id: SessionId :| Lost(n, id);
        LostRemains(n, steps[1..], id);
      }
    }
  }

  lemma {:induction false} LostRemains(l: Lives, steps: seq<Step>, id: SessionId)
    requires Kept(l) && IsRun(l, steps) && Lost(l, id)
    ensures Lost(After(l, steps), id)
    decreases |steps|
  {
    if steps != [] {
      LostStays(l, steps[0], id);
      StepKeeps(l, steps[0]);
      LostRemains(Next(l, steps[0]), steps[1..], id);
    }
  }

  // ---------------------------------------------------------------- registrations one after another

  predicate Registers(call: Call) { call.Destroying? || call.Starting? }

  // A registration begins when none is under way: they wait for each other (SerialWork).
  ghost predicate OneByOne(l: Lives, steps: seq<Step>)
    requires IsRun(l, steps)
    decreases |steps|
  {
    steps != [] ==>
      && (steps[0].RegisterBegins? ==> forall c :: c in l.board.calls ==> !Registers(l.board.calls[c]))
      && OneByOne(Next(l, steps[0]), steps[1..])
  }

  ghost predicate OnlyOne(l: Lives, c: CallId, d: CallId) {
    c in l.board.calls && d in l.board.calls && Registers(l.board.calls[c]) && Registers(l.board.calls[d]) ==> c == d
  }

  // What is registered is what the registration under way found, if that, and destroys or has destroyed.
  ghost predicate Found(l: Lives, c: CallId) {
    c in l.board.calls && l.board.registered.Some? ==>
      && (l.board.calls[c].Destroying? ==> c in l.held && l.held[c] == l.board.registered.value)
      && (l.board.calls[c].Starting? ==> l.board.registered.value in l.over)
  }

  ghost predicate Alone(l: Lives) {
    (forall c, d :: OnlyOne(l, c, d)) && forall c :: Found(l, c)
  }

  lemma {:induction false} StaysAlone(l: Lives, step: Step)
    requires Kept(l) && Enabled(l, step) && Alone(l)
    requires step.RegisterBegins? ==> forall c :: c in l.board.calls ==> !Registers(l.board.calls[c])
    ensures Alone(Next(l, step))
    ensures Loses(l, step) ==> step.RemoveEnds?
  {
    var n := Next(l, step);
    forall c, d ensures OnlyOne(n, c, d) {
      assert OnlyOne(l, c, d);
    }
    forall c ensures Found(n, c) {
      StaysFound(l, step, c);
    }
    if step.RegisterPublishes? {
      assert Found(l, step.call);
    }
  }

  lemma {:induction false} StaysFound(l: Lives, step: Step, c: CallId)
    requires Kept(l) && Enabled(l, step) && Alone(l)
    requires step.RegisterBegins? ==> forall c :: c in l.board.calls ==> !Registers(l.board.calls[c])
    ensures Found(Next(l, step), c)
  {
    assert Found(l, c) && HeldOk(l, c);
    if step.RegisterPublishes? {
      assert OnlyOne(l, c, step.call);
    }
  }

  ghost predicate SomeRemovalLoses(l: Lives, steps: seq<Step>)
    requires IsRun(l, steps)
    decreases |steps|
  {
    steps != [] && ((steps[0].RemoveEnds? && Loses(l, steps[0])) || SomeRemovalLoses(Next(l, steps[0]), steps[1..]))
  }

  // So in the coordinator's runs only a removal loses one: a session registered while the one the removal found
  // was being destroyed, and that nobody destroys.
  lemma {:induction false} LostByRemovals(l: Lives, steps: seq<Step>)
    requires Kept(l) && NoneLost(l) && Alone(l) && IsRun(l, steps) && OneByOne(l, steps)
    ensures NoneLost(After(l, steps)) <==> !SomeRemovalLoses(l, steps)
  {
    LostExactly(l, steps);
    OnlyRemovals(l, steps);
  }

  lemma {:induction false} OnlyRemovals(l: Lives, steps: seq<Step>)
    requires Kept(l) && Alone(l) && IsRun(l, steps) && OneByOne(l, steps)
    ensures SomeLoses(l, steps) <==> SomeRemovalLoses(l, steps)
    decreases |steps|
  {
    if steps != [] {
      StaysAlone(l, steps[0]);
      StepKeeps(l, steps[0]);
      OnlyRemovals(Next(l, steps[0]), steps[1..]);
    }
  }

  // A board is registered anew while it is being removed: the new session is published, and then deleted with
  // the board, and runs on.
  lemma {:induction false} RemovedWhileRegistered(l: Lives, config: Config, at: nat)
    requires Kept(l) && l.board.registered.Some? && l.board.calls == map[]
    ensures var steps := [RemoveBegins(1), RegisterBegins(2, config), RegisterSettlesTickets(2, {}, at), RegisterPublishes(2), RemoveEnds(1)];
            IsRun(l, steps) && OneByOne(l, steps) && Lost(After(l, steps), |l.board.sessions|)
  {
    forall c: CallId ensures c !in l.held { assert HeldOk(l, c); }
    assert l.held == map[];
    var l1 := Next(l, RemoveBegins(1));
    var l2 := Next(l1, RegisterBegins(2, config));
    var l3 := Next(l2, RegisterSettlesTickets(2, {}, at));
    StepKeeps(l, RemoveBegins(1));
    Registered(l1, config, at);
    var l4 := Next(l3, RegisterPublishes(2));
    LosesIt(l4, RemoveEnds(1));
    RunOfOne(l4, RemoveEnds(1), []);
    RunOfOne(l3, RegisterPublishes(2), [RemoveEnds(1)] + []);
    RunOfOne(l2, RegisterSettlesTickets(2, {}, at), [RegisterPublishes(2)] + ([RemoveEnds(1)] + []));
    RunOfOne(l1, RegisterBegins(2, config), [RegisterSettlesTickets(2, {}, at)] + ([RegisterPublishes(2)] + ([RemoveEnds(1)] + [])));
    RunOfOne(l, RemoveBegins(1),
             [RegisterBegins(2, config)] + ([RegisterSettlesTickets(2, {}, at)] + ([RegisterPublishes(2)] + ([RemoveEnds(1)] + []))));
    assert [RemoveBegins(1)] + ([RegisterBegins(2, config)] + ([RegisterSettlesTickets(2, {}, at)] + ([RegisterPublishes(2)] + ([RemoveEnds(1)] + []))))
        == [RemoveBegins(1), RegisterBegins(2, config), RegisterSettlesTickets(2, {}, at), RegisterPublishes(2), RemoveEnds(1)];
  }

  // The registration goes through while the removal destroys what it found.
  lemma {:induction false} Registered(l: Lives, config: Config, at: nat)
    requires Kept(l) && l.board.registered.Some? && l.board.calls == map[1 := Deleting] && l.held == map[1 := l.board.registered.value]
    ensures Enabled(l, RegisterBegins(2, config))
    ensures var l2 := Next(l, RegisterBegins(2, config));
            && Enabled(l2, RegisterSettlesTickets(2, {}, at))
            && var l3 := Next(l2, RegisterSettlesTickets(2, {}, at));
               && Enabled(l3, RegisterPublishes(2))
               && var l4 := Next(l3, RegisterPublishes(2));
                  && Kept(l4) && Enabled(l4, RemoveEnds(1)) && Loses(l4, RemoveEnds(1))
                  && l4.board.registered == Some(|l.board.sessions|)
  {
    var l2 := Next(l, RegisterBegins(2, config));
    StepKeeps(l, RegisterBegins(2, config));
    assert HeldOk(l, 1) && l2.held[1] == l.held[1];
    var l3 := Next(l2, RegisterSettlesTickets(2, {}, at));
    StepKeeps(l2, RegisterSettlesTickets(2, {}, at));
    StepKeeps(l3, RegisterPublishes(2));
    assert l3.held == map[1 := l.board.registered.value];
    assert l3.over == l.over + {l.board.registered.value};
  }

  lemma RunOfOne(l: Lives, step: Step, rest: seq<Step>)
    requires Enabled(l, step) && IsRun(Next(l, step), rest) && OneByOne(Next(l, step), rest)
    requires step.RegisterBegins? ==> forall c :: c in l.board.calls ==> !Registers(l.board.calls[c])
    ensures IsRun(l, [step] + rest) && After(l, [step] + rest) == After(Next(l, step), rest) && OneByOne(l, [step] + rest)
  {
    assert ([step] + rest)[1..] == rest;
  }
}
