/**
  What a link of src/coordinatorLinks.ts has become, told from its events: which socket it is on, whether it was
  welcomed there, how its first attempt went, and how long it waits before the next.
 */
module LinkHistory {
  import opened LinkProtocol
  import opened Marks

  // It is told to connect, or its time has come.
  predicate Attempts(s: State, e: Event) {
    (e.Connects? || e.TimerFires?) && !s.disposed
  }

  predicate Opens(s: State, e: Event) {
    Attempts(s, e) && e.made
  }

  // The attempt makes no socket, or the socket it is on closes and not for good.
  predicate Arms(s: State, e: Event) {
    || (Attempts(s, e) && !Opens(s, e))
    || (e.Closes? && s.socket == Some(e.id) && e.code != 4403 && e.code != 4409)
  }

  predicate Ends(e: Event, s: State) {
    match e
    case Disposes => true
    case AnsweredHttp(_, status) => status == 401 || status == 403
    case Closes(id, code) => s.socket == Some(id) && (code == 4403 || code == 4409)
    case _ => false
  }

  predicate GoesWrong(s: State, e: Event) {
    match e
    case Errs(_) => true
    case AnsweredHttp(_, _) => true
    case Closes(id, _) => s.socket == Some(id)
    case _ => Attempts(s, e) && !Opens(s, e)
  }

  // ---------------------------------------------------------------- facts

  datatype Fact =
    | IsStarted
    | IsOver
    | IsOn(id: SocketId)
    | IsWelcomed
    | Waits
    | Reported(ok: bool)

  predicate Holds(f: Fact, s: State) {
    match f
    case IsStarted => s.started
    case IsOver => s.disposed
    case IsOn(id) => s.socket == Some(id)
    case IsWelcomed => s.welcomed
    case Waits => s.timer.Some?
    case Reported(ok) => s.first == Some(ok)
  }

  predicate Comes(f: Fact, s: State, e: Event) {
    match f
    case IsStarted => e.Connects?
    case IsOver => Ends(e, s)
    case IsOn(id) => Opens(s, e) && id == s.made
    case IsWelcomed => e.Welcomed? && s.socket == Some(e.id)
    case Waits => Arms(s, e)
    case Reported(ok) => s.first.None? && if ok then e.Welcomed? && s.socket == Some(e.id) else GoesWrong(s, e)
  }

  predicate Goes(f: Fact, s: State, e: Event) {
    match f
    case IsStarted => false
    case IsOver => false
    case IsOn(id) => Ends(e, s) || (e.Closes? && e.id == id)
    case IsWelcomed => Ends(e, s) || (e.Closes? && s.socket == Some(e.id))
    case Waits => Ends(e, s) || e.TimerFires?
    case Reported(_) => false
  }

  lemma {:induction false} FactStep(f: Fact, s: State, o: Options, e: Event)
    requires Inv(s, o) && Enabled(s, e)
    ensures Holds(f, Next(s, o, e)) <==> Comes(f, s, e) || (Holds(f, s) && !Goes(f, s, e))
  {
  }

  ghost function Told(f: Fact, s: State, o: Options, events: seq<Event>): seq<Mark>
    decreases |events|
  {
    if events == [] then []
    else [Mark(Comes(f, s, events[0]), Goes(f, s, events[0]))] + Told(f, Next(s, o, events[0]), o, events[1..])
  }

  // After any run a fact holds exactly when some event made it so and none since ended it.
  lemma {:induction false} FactsExactly(f: Fact, s: State, o: Options, events: seq<Event>)
    requires Inv(s, o) && IsRun(s, o, events)
    ensures Holds(f, After(s, o, events)) <==> Stands(Told(f, s, o, events), Holds(f, s))
    decreases |events|
  {
    if events != [] {
      var n := Next(s, o, events[0]);
      FactStep(f, s, o, events[0]);
      StepKeeps(s, o, events[0]);
      FactsExactly(f, n, o, events[1..]);
      StandsAfter(Mark(Comes(f, s, events[0]), Goes(f, s, events[0])), Told(f, n, o, events[1..]), Holds(f, s));
    }
  }

  // ---------------------------------------------------------------- delays

  // How often it armed its timer since it was last welcomed; `so` before the run.
  ghost function Tries(s: State, o: Options, events: seq<Event>, so: nat): nat
    decreases |events|
  {
    if events == [] then so
    else
      var e := events[0];
      Tries(Next(s, o, e), o, events[1..],
            if e.Welcomed? && s.socket == Some(e.id) then 0 else if Arms(s, e) then so + 1 else so)
  }

  // Armed for the n-th time since it was last welcomed, it waits the first delay doubled n - 1 times, or the longest.
  lemma {:induction false} WaitsByTries(s: State, o: Options, events: seq<Event>)
    requires Inv(s, o) && IsRun(s, o, events)
    ensures var n := After(s, o, events);
            && n.attempts == Tries(s, o, events, s.attempts)
            && (n.timer.Some? ==>
                  && n.attempts > 0
                  && var doubled := o.reconnectDelayMs * Pow2(n.attempts - 1);
                     n.timer.value == if doubled < o.maxReconnectDelayMs then doubled else o.maxReconnectDelayMs)
    decreases |events|
  {
    if events != [] {
      StepKeeps(s, o, events[0]);
      TriesStep(s, o, events[0]);
      WaitsByTries(Next(s, o, events[0]), o, events[1..]);
    }
  }

  lemma TriesStep(s: State, o: Options, e: Event)
    requires Inv(s, o) && Enabled(s, e)
    ensures Next(s, o, e).attempts ==
            if e.Welcomed? && s.socket == Some(e.id) then 0 else if Arms(s, e) then s.attempts + 1 else s.attempts
  {
  }
}
