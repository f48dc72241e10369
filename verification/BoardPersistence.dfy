/**
  One board and what the store holds of it, as src/coordinator/coordinator.ts keeps them: registering,
  stopping, logging, sharing and removing in any interleaving, each call cut at its awaits, against a
  store that may fail and that lands what it was asked at any moment before it answers.

  Work against the store waits in one line per board, and registrations in another; SerialWork shows
  that each line is a first-in first-out queue of which only the head runs.
 */
module BoardPersistence {
  import TicketProtocol

  type CallId = nat
  type SessionId = nat
  type Config(==, !new) = string
  // What exportTickets answers: the counting tickets of the board.
  type Tickets(==) = set<TicketProtocol.StoredTicket>

  datatype Option<+T> = None | Some(value: T)

  datatype Member = Member(email: string, name: string)
  datatype Session = Session(config: Config, stopped: bool, createdAt: nat)

  // What the store holds of a board.
  datatype Image = Image(config: Config, stopped: bool, createdAt: nat, tickets: Tickets, members: seq<Member>)

  datatype Work = Write | Remove

  // The head of the line once begun. A write that finds no session saves nothing; `landed` is whether
  // the store has done it, which it may have long before it answers.
  datatype Running = Skipping | Saving(image: Image, landed: bool) | Removing(landed: bool)

  // Where a call stands between two of its awaits, when that matters to the store.
  datatype Call =
    | Destroying(config: Config)     // replaceSession, the old session being destroyed
    | Starting(made: SessionId)     // replaceSession, its tickets settled, the new session starting
    | Stopping(session: SessionId)   // stopBoard, the session stopping
    | Stopped                        // stopBoard, the session stopped and not yet written down
    | Logging                        // setBoardLogging, the config changed and not yet written down
    | Deleting                       // removeBoard, the session being destroyed

  datatype State = State(
    sessions: seq<Session>,          // every session made; a call may hold one that was replaced
    registered: Option<SessionId>,
    tickets: Tickets,
    members: seq<Member>,
    line: seq<Work>,
    running: Option<Running>,
    store: Option<Image>,
    lost: bool,                      // the last thing the store was asked failed
    calls: map<CallId, Call>)

  function Current(s: State): Option<Image>
    requires Sound(s)
  {
    match s.registered
    case None => None
    case Some(id) =>
      Some(Image(s.sessions[id].config, s.sessions[id].stopped, s.sessions[id].createdAt, s.tickets, s.members))
  }

  predicate Sound(s: State) {
    && (s.running.Some? ==> s.line != [])
    && (s.registered.Some? ==> s.registered.value < |s.sessions|)
    && (forall c :: c in s.calls && s.calls[c].Starting? ==> s.calls[c].made < |s.sessions|)
    && (forall c :: c in s.calls && s.calls[c].Stopping? ==> s.calls[c].session < |s.sessions|)
  }

  function Persist(s: State): State {
    s.(line := s.line + [Write])
  }

  function PersistIfRegistered(s: State): State {
    if s.registered.Some? then Persist(s) else s
  }

  // ---------------------------------------------------------------- the list of members

  datatype Shared = Listed(members: seq<Member>) | OverLimit

  function Replaced(list: seq<Member>, m: Member): (r: seq<Member>)
    ensures |r| == |list|
    ensures forall i :: 0 <= i < |list| ==> r[i] == if list[i].email == m.email then m else list[i]
  {
    if list == [] then [] else [if list[0].email == m.email then m else list[0]] + Replaced(list[1..], m)
  }

  // The list with a member in it: in the place of whoever has the address, or at the end while there is room.
  function Share(list: seq<Member>, m: Member, limit: nat): Shared {
    if exists e :: e in list && e.email == m.email then Listed(Replaced(list, m))
    else if |list| >= limit then OverLimit
    else Listed(list + [m])
  }

  function Without(list: seq<Member>, email: string): seq<Member> {
    if list == [] then []
    else (if list[0].email == email then [] else [list[0]]) + Without(list[1..], email)
  }

  ghost predicate OnePerEmail(list: seq<Member>) {
    forall i, j :: 0 <= i < j < |list| ==> list[i].email != list[j].email
  }

  // Sharing and unsharing keep one entry per email; sharing lists the person under the new name and
  // unsharing leaves everybody else as they were.
  lemma {:induction false} WithoutLists(list: seq<Member>, email: string)
    ensures forall e :: e in Without(list, email) <==> e in list && e.email != email
    ensures OnePerEmail(list) ==> OnePerEmail(Without(list, email))
    ensures |Without(list, email)| <= |list|
  {
    if list != [] {
      WithoutLists(list[1..], email);
      assert list == [list[0]] + list[1..];
      var w := Without(list[1..], email);
      if OnePerEmail(list) {
        forall j | 0 <= j < |w| ensures w[j].email != list[0].email {
          assert w[j] in w;
        }
      }
    }
  }

  lemma {:induction false} ReplacedLists(list: seq<Member>, m: Member, x: Member)
    requires exists e :: e in list && e.email == m.email
    ensures m in Replaced(list, m)
    ensures x.email != m.email ==> (x in Replaced(list, m) <==> x in list)
    ensures OnePerEmail(list) ==> OnePerEmail(Replaced(list, m))
  {
    var r := Replaced(list, m);
    var i :| 0 <= i < |list| && list[i].email == m.email;
    assert r[i] == m;
    if x in list && x.email != m.email {
      var j :| 0 <= j < |list| && list[j] == x;
      assert r[j] == x;
    }
    SameAddresses(list, m);
  }

  lemma SameAddresses(list: seq<Member>, m: Member)
    ensures forall i :: 0 <= i < |list| ==> Replaced(list, m)[i].email == list[i].email
    ensures OnePerEmail(list) ==> OnePerEmail(Replaced(list, m))
  {
  }

  lemma {:induction false} ShareLists(list: seq<Member>, m: Member, limit: nat, x: Member)
    requires OnePerEmail(list)
    ensures Share(list, m, limit).OverLimit? ==> |list| >= limit && forall e :: e in list ==> e.email != m.email
    ensures Share(list, m, limit).Listed? ==>
              var r := Share(list, m, limit).members;
              && OnePerEmail(r) && m in r && (|list| <= limit ==> |r| <= limit)
              && (x.email != m.email ==> (x in r <==> x in list))
  {
    if exists e :: e in list && e.email == m.email {
      ReplacedLists(list, m, x);
    } else {
      assert forall i :: 0 <= i < |list| ==> list[i] in list;
    }
  }

  // ---------------------------------------------------------------- steps

  datatype Step =
    | RegisterBegins(call: CallId, config: Config)
    | RegisterSettlesTickets(call: CallId, tickets: Tickets, createdAt: nat)
    | RegisterPublishes(call: CallId)
    | StopBegins(call: CallId)
    | StopEnds(call: CallId)
    | StopPersists(call: CallId)
    | LoggingBegins(call: CallId, config: Config)
    | LoggingPersists(call: CallId)
    | RemoveBegins(call: CallId)
    | RemoveEnds(call: CallId)
    | Shares(member: Member, limit: nat)
    | Unshares(email: string)
    // issueTickets, or a pending ticket that took over at once: both write the board down if it exists.
    | TicketsChange(tickets: Tickets)
    // cancelTickets on a board that was never registered.
    | TicketsRevoked
    | StoreBegins
    | StoreLands
    | StoreAnswers(ok: bool)

  // Nothing here relies on registrations of a board waiting for each other.
  predicate Enabled(s: State, step: Step) {
    && Sound(s)
    && match step
       case RegisterBegins(c, _) => c !in s.calls
       case RegisterSettlesTickets(c, _, _) => c in s.calls && s.calls[c].Destroying?
       case RegisterPublishes(c) => c in s.calls && s.calls[c].Starting?
       case StopBegins(c) => c !in s.calls && s.registered.Some?
       case StopEnds(c) => c in s.calls && s.calls[c].Stopping?
       case StopPersists(c) => c in s.calls && s.calls[c].Stopped?
       case LoggingBegins(c, _) => c !in s.calls && s.registered.Some?
       case LoggingPersists(c) => c in s.calls && s.calls[c].Logging?
       case RemoveBegins(c) => c !in s.calls && s.registered.Some?
       case RemoveEnds(c) => c in s.calls && s.calls[c].Deleting?
       case Shares(m, limit) => s.registered.Some? && Share(s.members, m, limit).Listed?
       case Unshares(_) => s.registered.Some?
       case TicketsChange(_) => true
       case TicketsRevoked => s.registered.None?
       case StoreBegins => s.line != [] && s.running.None?
       case StoreLands => s.running.Some? && !s.running.value.Skipping? && !s.running.value.landed
       case StoreAnswers(ok) => s.running.Some? && (s.running.value.Skipping? ==> ok) && (ok && !s.running.value.Skipping? ==> s.running.value.landed)
  }

  function Next(s: State, step: Step): State
    requires Enabled(s, step)
  {
    match step
    case RegisterBegins(c, config) => s.(calls := s.calls[c := Destroying(config)])
    case RegisterSettlesTickets(c, tickets, at) =>
      s.(sessions := s.sessions + [Session(s.calls[c].config, false, at)],
         tickets := tickets,
         calls := s.calls[c := Starting(|s.sessions|)])
    case RegisterPublishes(c) =>
      Persist(s.(registered := Some(s.calls[c].made), calls := s.calls - {c}))
    case StopBegins(c) => s.(calls := s.calls[c := Stopping(s.registered.value)])
    case StopEnds(c) =>
      var id := s.calls[c].session;
      s.(sessions := s.sessions[id := s.sessions[id].(stopped := true)], calls := s.calls[c := Stopped])
    case StopPersists(c) => Persist(s.(calls := s.calls - {c}))
    case LoggingBegins(c, config) =>
      var id := s.registered.value;
      s.(sessions := s.sessions[id := s.sessions[id].(config := config)], calls := s.calls[c := Logging])
    case LoggingPersists(c) => Persist(s.(calls := s.calls - {c}))
    case RemoveBegins(c) => s.(calls := s.calls[c := Deleting])
    case RemoveEnds(c) =>
      s.(registered := None, tickets := {}, members := [], line := s.line + [Remove], calls := s.calls - {c})
    case Shares(m, limit) => Persist(s.(members := Share(s.members, m, limit).members))
    case Unshares(email) => Persist(s.(members := Without(s.members, email)))
    case TicketsChange(tickets) => PersistIfRegistered(s.(tickets := tickets))
    case TicketsRevoked => s.(tickets := {})
    case StoreBegins =>
      s.(running := Some(match s.line[0]
                         case Remove => Removing(false)
                         case Write => if s.registered.Some? then Saving(Current(s).value, false) else Skipping))
    case StoreLands =>
      (match s.running.value
       case Saving(image, _) => s.(running := Some(Saving(image, true)), store := Some(image), lost := false)
       case Removing(_) => s.(running := Some(Removing(true)), store := None, lost := false)
       case Skipping => s)
    case StoreAnswers(ok) =>
      s.(running := None, line := s.line[1..], lost := s.lost || !ok)
  }

  // ---------------------------------------------------------------- what every state keeps

  // A call that changed what the store should hold and has yet to ask for it to be written.
  predicate Owes(call: Call) { call.Starting? || call.Stopped? || call.Logging? }

  ghost predicate Owed(s: State) {
    exists c :: c in s.calls && Owes(s.calls[c])
  }

  // Registered: with nothing in the line the store is right, and otherwise a write is last in it —
  // one that has not begun, or one that is saving the board as it is now.
  ghost predicate RegisteredOk(s: State)
    requires Sound(s)
  {
    s.registered.Some? && !Owed(s) ==>
      if s.line == [] then s.lost || s.store == Current(s)
      else
        && s.line[|s.line| - 1] == Write
        && (|s.line| == 1 && s.running.Some? ==> s.running.value.Saving? && Some(s.running.value.image) == Current(s))
  }

  // Not registered: a removal is still in the line, or nothing that saves is under way and the store
  // holds nothing.
  ghost predicate RemovedOk(s: State) {
    s.registered.None? ==>
      || Remove in s.line
      || (!(s.running.Some? && s.running.value.Saving?) && (s.lost || s.store == None))
  }

  ghost predicate RunningOk(s: State) {
    s.running.Some? && s.line != [] ==>
      && (s.line[0] == Write <==> !s.running.value.Removing?)
      && (s.running.value.Saving? && s.running.value.landed ==> s.lost || s.store == Some(s.running.value.image))
      && (s.running.value.Removing? && s.running.value.landed ==> s.lost || s.store == None)
  }

  ghost predicate Inv(s: State) {
    Sound(s) && RegisteredOk(s) && RemovedOk(s) && RunningOk(s)
  }

  // A coordinator that starts, with nothing of the board or with what its store brought back.
  ghost predicate Initial(s: State) {
    && s.line == [] && s.running == None && !s.lost && s.calls == map[]
    && Sound(s) && s.store == Current(s)
  }

  lemma InitialOk(s: State)
    requires Initial(s)
    ensures Inv(s)
  {
  }

  lemma {:induction false} StoreStepKeeps(s: State, step: Step)
    requires Inv(s) && Enabled(s, step) && (step.StoreBegins? || step.StoreLands? || step.StoreAnswers?)
    ensures Inv(Next(s, step))
  {
    var n := Next(s, step);
    assert n.calls == s.calls && n.sessions == s.sessions;
    assert Owed(n) <==> Owed(s);
    assert Current(n) == Current(s);
    if step.StoreAnswers? {
      assert s.line == [s.line[0]] + s.line[1..];
    }
  }

  lemma {:induction false} CallStepKeeps(s: State, step: Step)
    requires Inv(s) && Enabled(s, step) && !(step.StoreBegins? || step.StoreLands? || step.StoreAnswers?)
    ensures Inv(Next(s, step))
  {
    var n := Next(s, step);
    assert Sound(n);
    assert RunningOk(n);
    assert RemovedOk(n);
    match step
    case RegisterBegins(c, _) => KeepsOwing(s, n, c);
    case RegisterSettlesTickets(c, _, _) => assert Owes(n.calls[c]);
    case StopBegins(c) => KeepsOwing(s, n, c);
    case StopEnds(c) => assert Owes(n.calls[c]);
    case LoggingBegins(c, _) => assert Owes(n.calls[c]);
    case RemoveBegins(c) => KeepsOwing(s, n, c);
    case _ =>
  }

  // A call that begins and owes nothing yet leaves what is owed as it was.
  lemma {:induction false} KeepsOwing(s: State, n: State, c: CallId)
    requires Inv(s) && c !in s.calls && Sound(n)
    requires c in n.calls && n.calls == s.calls[c := n.calls[c]] && n == s.(calls := n.calls)
    ensures RegisteredOk(n)
  {
    if d :| d in s.calls && Owes(s.calls[d]) {
      assert n.calls[d] == s.calls[d];
    }
  }

  ghost predicate IsRun(s: State, steps: seq<Step>)
    decreases |steps|
  {
    steps == [] || (Enabled(s, steps[0]) && IsRun(Next(s, steps[0]), steps[1..]))
  }

  ghost function After(s: State, steps: seq<Step>): State
    requires IsRun(s, steps)
    decreases |steps|
  {
    if steps == [] then s else After(Next(s, steps[0]), steps[1..])
  }

  lemma {:induction false} RunKeeps(s: State, steps: seq<Step>)
    requires Inv(s) && IsRun(s, steps)
    ensures Inv(After(s, steps))
    decreases |steps|
  {
    if steps != [] {
      if steps[0].StoreBegins? || steps[0].StoreLands? || steps[0].StoreAnswers? {
        StoreStepKeeps(s, steps[0]);
      } else {
        CallStepKeeps(s, steps[0]);
      }
      RunKeeps(Next(s, steps[0]), steps[1..]);
    }
  }

  // Once the line has drained, no call is in flight and the store's last answer was not a failure, the
  // store holds the board exactly when it is registered, and then as it is now: whatever order
  // registering, removing, sharing, stopping and logging interleaved in.
  lemma {:induction false} StoreConverges(s: State, steps: seq<Step>)
    requires Initial(s) && IsRun(s, steps)
    ensures var n := After(s, steps);
            Sound(n) && (n.line == [] && n.calls == map[] && !n.lost ==> n.store == Current(n))
  {
    InitialOk(s);
    RunKeeps(s, steps);
  }

  // A removed board is not brought back by an earlier write: once its removal left the line, and with
  // calls still in flight or not, the store holds nothing of it, and nothing under way will save it.
  lemma {:induction false} RemovedStaysRemoved(s: State, steps: seq<Step>)
    requires Initial(s) && IsRun(s, steps)
    ensures var n := After(s, steps);
            n.registered.None? && Remove !in n.line ==>
              && (n.lost || n.store == None)
              && !(n.running.Some? && n.running.value.Saving?)
  {
    InitialOk(s);
    RunKeeps(s, steps);
  }
}
