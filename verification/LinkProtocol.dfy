/**
  One reconnecting link of src/coordinatorLinks.ts: connecting, being welcomed, losing the connection and
  trying again, and the closes and answers that end it for good. Sockets are numbered as they are opened;
  a socket says what it has to say until its close event.
 */
module LinkProtocol {

  type SocketId = nat

  datatype Option<+T> = None | Some(value: T)

  const CLOSE_TICKET_REVOKED := 4403
  const CLOSE_REPLACED := 4409

  // First delay before reconnecting, and the longest.
  datatype Options = Options(reconnectDelayMs: nat, maxReconnectDelayMs: nat)

  datatype State = State(
    started: bool,                   // connect was called
    socket: Option<SocketId>,
    welcomed: bool,
    disposed: bool,
    attempts: nat,
    timer: Option<nat>,              // the delay it was armed with
    first: Option<bool>,             // how the first attempt went, once it was reported
    // How many sockets were opened so far, those yet to close, and those refused with 401 or 403.
    made: nat,
    alive: set<SocketId>,
    refused: set<SocketId>,
    delays: seq<nat>)                // armed since the last welcome

  const NEW := State(false, None, false, false, 0, None, None, 0, {}, {}, [])

  function Pow2(n: nat): (p: nat)
    ensures p >= 1
  {
    if n == 0 then 1 else 2 * Pow2(n - 1)
  }

  function Delay(o: Options, attempts: nat): nat {
    var doubled := o.reconnectDelayMs * Pow2(attempts);
    if doubled < o.maxReconnectDelayMs then doubled else o.maxReconnectDelayMs
  }

  function Report(s: State, ok: bool): State {
    if s.first.None? then s.(first := Some(ok)) else s
  }

  function Retry(s: State, o: Options): State {
    if s.disposed || s.timer.Some? then s
    else
      var delay := Delay(o, s.attempts);
      s.(attempts := s.attempts + 1, timer := Some(delay), delays := s.delays + [delay])
  }

  // `made` is whether a socket could be made at all; a malformed address makes none.
  function Open(s: State, o: Options, made: bool): State {
    if s.disposed then s
    else if !made then Retry(Report(s, false), o)
    else s.(socket := Some(s.made), welcomed := false, made := s.made + 1, alive := s.alive + {s.made})
  }

  // Stops for good. The socket is asked to close, and its close event comes later.
  function Dispose(s: State): State {
    s.(disposed := true, timer := None, socket := None, welcomed := false)
  }

  datatype Event =
    | Connects(made: bool)
    | TimerFires(made: bool)
    | Welcomed(id: SocketId)
    | AnsweredHttp(id: SocketId, status: nat)
    | Errs(id: SocketId)
    | Closes(id: SocketId, code: nat)
    | Disposes

  predicate Refusal(status: nat) { status == 401 || status == 403 }

  predicate Final(code: nat) { code == CLOSE_TICKET_REVOKED || code == CLOSE_REPLACED }

  predicate Enabled(s: State, e: Event) {
    match e
    case Connects(_) => !s.started
    case TimerFires(_) => s.timer.Some?
    case Welcomed(id) => id in s.alive
    case AnsweredHttp(id, _) => id in s.alive
    case Errs(id) => id in s.alive
    case Closes(id, _) => id in s.alive
    case Disposes => true
  }

  function Next(s: State, o: Options, e: Event): State {
    match e
    case Connects(made) => Open(s.(started := true), o, made)
    case TimerFires(made) => Open(s.(timer := None), o, made)
    case Welcomed(id) =>
      if s.socket != Some(id) then s
      else Report(s.(welcomed := true, attempts := 0, delays := []), true)
    case AnsweredHttp(id, status) =>
      if Refusal(status) then Dispose(Report(s.(refused := s.refused + {id}), false)) else Report(s, false)
    case Errs(id) => Report(s, false)
    case Closes(id, code) =>
      var gone := s.(alive := s.alive - {id});
      if s.socket != Some(id) || id in s.refused then gone
      else
        var lost := Report(gone.(socket := None, welcomed := false), false);
        if Final(code) then Dispose(lost) else Retry(lost, o)
    case Disposes => Dispose(s)
  }

  ghost predicate IsRun(s: State, o: Options, events: seq<Event>)
    decreases |events|
  {
    events == [] || (Enabled(s, events[0]) && IsRun(Next(s, o, events[0]), o, events[1..]))
  }

  ghost function After(s: State, o: Options, events: seq<Event>): State
    decreases |events|
  {
    if events == [] then s else After(Next(s, o, events[0]), o, events[1..])
  }

  // ---------------------------------------------------------------- what every state keeps

  // Between connect and dispose there is exactly one of a current socket and an armed timer; a socket
  // that has yet to close is the current one, or the link is over.
  ghost predicate Inv(s: State, o: Options) {
    && (s.started && !s.disposed ==> (s.socket.Some? <==> s.timer.None?))
    && (!s.started ==> s.socket.None? && s.timer.None?)
    && (s.disposed ==> s.socket.None? && s.timer.None? && !s.welcomed)
    && (s.welcomed ==> s.socket.Some?)
    && (!s.disposed ==> s.alive == (if s.socket.Some? then {s.socket.value} else {}) && s.refused == {})
    && (forall id :: id in s.alive ==> id < s.made)
    && |s.delays| == s.attempts
    && (forall i :: 0 <= i < |s.delays| ==> s.delays[i] == Delay(o, i))
    && (s.timer.Some? ==> s.attempts > 0 && s.timer.value == Delay(o, s.attempts - 1))
  }

  lemma {:induction false} StepKeeps(s: State, o: Options, e: Event)
    requires Inv(s, o) && Enabled(s, e)
    ensures Inv(Next(s, o, e), o)
  {
    match e
    case Connects(made) => OpenKeeps(s, o, made);
    case TimerFires(made) => OpenKeeps(s, o, made);
    case Closes(id, code) => CloseKeeps(s, o, id, code);
    case _ =>
  }

  lemma {:induction false} OpenKeeps(s: State, o: Options, made: bool)
    requires Inv(s, o)
    ensures !s.started ==> Inv(Open(s.(started := true), o, made), o)
    ensures s.timer.Some? ==> Inv(Open(s.(timer := None), o, made), o)
  {
  }

  lemma {:induction false} CloseKeeps(s: State, o: Options, id: SocketId, code: nat)
    requires Inv(s, o) && id in s.alive
    ensures Inv(Next(s, o, Closes(id, code)), o)
  {
    var gone := s.(alive := s.alive - {id});
    if s.socket == Some(id) && id !in s.refused {
      LostKeeps(s, o, Report(gone.(socket := None, welcomed := false), false));
    }
  }

  // Without its socket it is over, or about to try again.
  lemma {:induction false} LostKeeps(s: State, o: Options, lost: State)
    requires Inv(s, o) && s.socket.Some? && lost == s.(alive := {}, socket := None, welcomed := false, first := lost.first)
    ensures Inv(Dispose(lost), o) && Inv(Retry(lost, o), o)
  {
  }

  lemma {:induction false} RunKeeps(s: State, o: Options, events: seq<Event>)
    requires Inv(s, o) && IsRun(s, o, events)
    ensures Inv(After(s, o, events), o)
    decreases |events|
  {
    if events != [] {
      StepKeeps(s, o, events[0]);
      RunKeeps(Next(s, o, events[0]), o, events[1..]);
    }
  }

  // Once connected and until it is over, a link is either on a socket or about to try again, never
  // both and never neither.
  lemma {:induction false} AlwaysConnectingOrWaiting(o: Options, events: seq<Event>)
    requires IsRun(NEW, o, events)
    ensures var s := After(NEW, o, events);
            && (s.started && !s.disposed ==> (s.socket.Some? <==> s.timer.None?))
            && (s.disposed ==> s.socket.None? && s.timer.None?)
  {
    RunKeeps(NEW, o, events);
  }

  // A refused ticket, a final close and being disposed of are the end: whatever happens afterwards, no
  // socket is opened and no timer armed.
  lemma {:induction false} OverIsOver(s: State, o: Options, events: seq<Event>)
    requires Inv(s, o) && s.disposed && IsRun(s, o, events)
    ensures var n := After(s, o, events);
            n.disposed && n.socket.None? && n.timer.None? && !n.welcomed && n.made == s.made && n.delays == s.delays
    decreases |events|
  {
    if events != [] {
      StepKeeps(s, o, events[0]);
      OverIsOver(Next(s, o, events[0]), o, events[1..]);
    }
  }

  // What ends a link, exactly: being disposed of, an answer of 401 or 403, and one of the two final
  // closes of the socket it is on. Anything else it goes on from.
  lemma {:induction false} EndsExactly(s: State, o: Options, e: Event)
    requires Inv(s, o) && Enabled(s, e) && !s.disposed
    ensures Next(s, o, e).disposed <==>
              match e
              case Disposes => true
              case AnsweredHttp(_, status) => Refusal(status)
              case Closes(_, code) => Final(code)
              case _ => false
  {
  }

  lemma {:induction false} Pow2Grows(i: nat, j: nat)
    requires i <= j
    ensures Pow2(i) <= Pow2(j)
    decreases j - i
  {
    if i < j {
      Pow2Grows(i, j - 1);
    }
  }

  lemma {:induction false} DelayGrows(o: Options, i: nat, j: nat)
    requires i <= j
    ensures Delay(o, i) <= Delay(o, j) <= o.maxReconnectDelayMs
  {
    Pow2Grows(i, j);
    TimesGrows(o.reconnectDelayMs, Pow2(i), Pow2(j));
  }

  lemma TimesGrows(d: nat, a: nat, b: nat)
    requires a <= b
    ensures d * a <= d * b
  {
    assert d * b == d * a + d * (b - a);
  }

  // Between welcomes the delays never get shorter, and none is longer than the longest; the first after
  // a welcome is the shortest there is.
  lemma {:induction false} DelaysGrow(o: Options, events: seq<Event>, i: nat, j: nat)
    requires IsRun(NEW, o, events) && i <= j < |After(NEW, o, events).delays|
    ensures var d := After(NEW, o, events).delays;
            && d[i] <= d[j] <= o.maxReconnectDelayMs
            && d[0] == if o.reconnectDelayMs < o.maxReconnectDelayMs then o.reconnectDelayMs else o.maxReconnectDelayMs
  {
    RunKeeps(NEW, o, events);
    DelayGrows(o, i, j);
    assert Pow2(0) == 1;
  }

  // An introduction is told it worked only if the link was welcomed before anything went wrong.
  ghost predicate Wrong(e: Event, s: State) {
    match e
    case Connects(made) => !made
    case TimerFires(made) => !made
    case AnsweredHttp(_, _) => true
    case Errs(_) => true
    case Closes(id, _) => s.socket == Some(id)
    case _ => false
  }

  lemma {:induction false} FirstReport(s: State, o: Options, e: Event)
    requires Inv(s, o) && Enabled(s, e) && s.first.None? && !s.disposed
    ensures var f := Next(s, o, e).first;
            && (f == Some(true) <==> e.Welcomed? && s.socket == Some(e.id))
            && (f == Some(false) <==> Wrong(e, s))
  {
  }

  lemma {:induction false} ReportedOnce(s: State, o: Options, e: Event)
    requires s.first.Some?
    ensures Next(s, o, e).first == s.first
  {
  }
}
