/**
  A board's tickets as the registry of participants has them, and as the coordinator stores them: the calls of
  src/coordinator/coordinator.ts that change what counts, each with the stretch of the coordinator it is made in.
 */
module StoredTickets {
  import opened TicketProtocol
  import TicketSlots
  import TicketTheorems
  import Persistence = BoardPersistence

  // The registry, and one board as BoardPersistence has it.
  datatype Both = Both(registry: State, board: Persistence.State)

  datatype Move =
    // What writes nothing of this board down: another board's steps among it.
    | InRegistry(step: Step)
    // A pending ticket's holder that arrives where nobody is connected (onTicketsChanged).
    | TakesOver(id: SocketId)
    // issueTickets: one after another, and then the board is written down.
    | Issues(tickets: seq<StoredTicket>)
    // replaceSession, the old session gone: promoteBoard, and revokeBoard but for the board's runtimes.
    | Settles(call: Persistence.CallId, order: seq<Key>, keep: set<string>, at: nat)
    // cancelTickets.
    | Cancels
    // removeBoard, the session destroyed: revokeBoard, of all.
    | Deletes(call: Persistence.CallId)
    // What the coordinator does to the board that touches no ticket.
    | OnBoard(work: Persistence.Step)

  ghost function IssueAll(s: State, b: Board, ts: seq<StoredTicket>): State {
    if ts == [] then s
    else Issue(IssueAll(s, b, ts[..|ts| - 1]), Key(b, ts[|ts| - 1].runtimeId), ts[|ts| - 1].hash, ts[|ts| - 1].issuedAt)
  }

  ghost predicate Issuable(s: State, b: Board, ts: seq<StoredTicket>) {
    ts == [] || (Issuable(s, b, ts[..|ts| - 1]) && ts[|ts| - 1].hash !in IssueAll(s, b, ts[..|ts| - 1]).tickets)
  }

  ghost predicate LeavesTickets(step: Persistence.Step) {
    !step.RegisterSettlesTickets? && !step.TicketsChange? && !step.TicketsRevoked? && !step.RemoveEnds?
  }

  ghost predicate Enabled(b: Board, s: Both, move: Move) {
    && Persistence.Sound(s.board)
    && match move
       case InRegistry(step) =>
         TicketProtocol.Enabled(s.registry, step) && !TicketTheorems.WrittenDown(s.registry, step, b)
       case TakesOver(id) => TicketProtocol.Enabled(s.registry, StepHello(id)) && s.registry.sockets[id].key.board == b
       case Issues(ts) => Issuable(s.registry, b, ts)
       case Settles(call, order, keep, at) =>
         Enumerates(order, PendingKeys(s.registry, b)) && Persistence.Enabled(s.board, Persistence.RegisterSettlesTickets(call, {}, at))
       case Cancels => true
       case Deletes(call) => Persistence.Enabled(s.board, Persistence.RemoveEnds(call))
       case OnBoard(step) => Persistence.Enabled(s.board, step) && LeavesTickets(step)
  }

  // The registry's step, and the coordinator's with what exportTickets answers then.
  ghost function Next(b: Board, s: Both, move: Move): Both
    requires Enabled(b, s, move)
  {
    match move
    case InRegistry(step) => s.(registry := TicketProtocol.Next(s.registry, step))
    case TakesOver(id) => Changed(b, s, Hello(s.registry, id))
    case Issues(ts) => Changed(b, s, IssueAll(s.registry, b, ts))
    case Settles(call, order, keep, at) =>
      var r := RevokeBoard(SettleAll(s.registry, order), b, keep);
      Both(r, Persistence.Next(s.board, Persistence.RegisterSettlesTickets(call, Export(r, b), at)))
    case Cancels =>
      if s.board.registered.Some? then s.(registry := CancelPending(s.registry, b))
      else Both(RevokeBoard(s.registry, b, {}), Persistence.Next(s.board, Persistence.TicketsRevoked))
    case Deletes(call) => Both(RevokeBoard(s.registry, b, {}), Persistence.Next(s.board, Persistence.RemoveEnds(call)))
    case OnBoard(step) => s.(board := Persistence.Next(s.board, step))
  }

  ghost function Changed(b: Board, s: Both, r: State): Both
    requires Persistence.Sound(s.board)
  {
    Both(r, Persistence.Next(s.board, Persistence.TicketsChange(Export(r, b))))
  }

  ghost predicate IsRun(b: Board, s: Both, moves: seq<Move>)
    decreases |moves|
  {
    moves == [] || (Enabled(b, s, moves[0]) && IsRun(b, Next(b, s, moves[0]), moves[1..]))
  }

  ghost function After(b: Board, s: Both, moves: seq<Move>): Both
    requires IsRun(b, s, moves)
    decreases |moves|
  {
    if moves == [] then s else After(b, Next(b, s, moves[0]), moves[1..])
  }

  // ---------------------------------------------------------------- one and the same

  ghost predicate Same(b: Board, s: Both) {
    TicketProtocol.Inv(s.registry) && Persistence.Inv(s.board) && s.board.tickets == Export(s.registry, b)
  }

  lemma {:induction false} IssueAllKeeps(s: State, b: Board, ts: seq<StoredTicket>)
    requires TicketProtocol.Inv(s) && Issuable(s, b, ts)
    ensures TicketProtocol.Inv(IssueAll(s, b, ts))
  {
    if ts != [] {
      var init, t := ts[..|ts| - 1], ts[|ts| - 1];
      IssueAllKeeps(s, b, init);
      TicketTheorems.StepKeeps(IssueAll(s, b, init), StepIssue(Key(b, t.runtimeId), t.hash, t.issuedAt));
    }
  }

  // Revoking a board, of all its runtimes, leaves none of its tickets.
  lemma {:induction false} NothingLeft(s: State, b: Board)
    requires TicketProtocol.Inv(s)
    ensures TicketProtocol.Inv(RevokeBoard(s, b, {})) && Export(RevokeBoard(s, b, {}), b) == {}
  {
    var n := RevokeBoard(s, b, {});
    TicketTheorems.StepKeeps(s, StepRevokeBoard(b, {}));
    forall t: StoredTicket ensures t !in Export(n, b) {
      TicketTheorems.ExportedOnce(n, b, t);
      var k := Key(b, t.runtimeId);
      assert TicketProtocol.RuntimeOk(s, k);
    }
  }

  lemma {:induction false} MoveKeeps(b: Board, s: Both, move: Move)
    requires Same(b, s) && Enabled(b, s, move)
    ensures Same(b, Next(b, s, move))
  {
    match move
    case InRegistry(step) =>
      TicketTheorems.StepKeeps(s.registry, step);
      TicketTheorems.StoredTicketsChangeOnlyThere(s.registry, step, b);
    case TakesOver(id) =>
      TicketTheorems.StepKeeps(s.registry, StepHello(id));
      ChangeKeeps(b, s, Hello(s.registry, id));
    case Issues(ts) =>
      IssueAllKeeps(s.registry, b, ts);
      ChangeKeeps(b, s, IssueAll(s.registry, b, ts));
    case Settles(call, order, keep, at) => SettlingKeeps(b, s, call, order, keep, at);
    case Cancels => CancellingKeeps(b, s);
    case Deletes(call) =>
      NothingLeft(s.registry, b);
      BoardKeeps(s.board, Persistence.RemoveEnds(call));
    case OnBoard(step) => BoardKeeps(s.board, step);
  }

  lemma ChangeKeeps(b: Board, s: Both, r: State)
    requires Same(b, s) && TicketProtocol.Inv(r)
    ensures Same(b, Changed(b, s, r))
  {
    BoardKeeps(s.board, Persistence.TicketsChange(Export(r, b)));
  }

  lemma {:induction false} SettlingKeeps(b: Board, s: Both, call: Persistence.CallId, order: seq<Key>, keep: set<string>, at: nat)
    requires Same(b, s) && Enabled(b, s, Settles(call, order, keep, at))
    ensures Same(b, Next(b, s, Settles(call, order, keep, at)))
  {
    TicketTheorems.StepKeeps(s.registry, StepPromoteBoard(b, order));
    TicketTheorems.StepKeeps(SettleAll(s.registry, order), StepRevokeBoard(b, keep));
    var r := RevokeBoard(SettleAll(s.registry, order), b, keep);
    BoardKeeps(s.board, Persistence.RegisterSettlesTickets(call, Export(r, b), at));
  }

  lemma {:induction false} CancellingKeeps(b: Board, s: Both)
    requires Same(b, s)
    ensures Same(b, Next(b, s, Cancels))
  {
    if s.board.registered.Some? {
      TicketTheorems.StepKeeps(s.registry, StepCancelPending(b));
      TicketTheorems.StoredTicketsChangeOnlyThere(s.registry, StepCancelPending(b), b);
    } else {
      NothingLeft(s.registry, b);
      BoardKeeps(s.board, Persistence.TicketsRevoked);
    }
  }

  lemma {:induction false} BoardKeeps(s: Persistence.State, step: Persistence.Step)
    requires Persistence.Inv(s) && Persistence.Enabled(s, step)
    ensures Persistence.Inv(Persistence.Next(s, step))
  {
    if step.StoreBegins? || step.StoreLands? || step.StoreAnswers? {
      Persistence.StoreStepKeeps(s, step);
    } else {
      Persistence.CallStepKeeps(s, step);
    }
  }

  lemma {:induction false} RunKeeps(b: Board, s: Both, moves: seq<Move>)
    requires Same(b, s) && IsRun(b, s, moves)
    ensures Same(b, After(b, s, moves))
    decreases |moves|
  {
    if moves != [] {
      MoveKeeps(b, s, moves[0]);
      RunKeeps(b, Next(b, s, moves[0]), moves[1..]);
    }
  }

  // Whatever order issuing, arriving, registering, cancelling, removing and everything else interleave in: once
  // the board's line drained with no call in flight and no failure outstanding, the tickets the store has of a
  // registered board are exactly those that count in the registry, and it has nothing of any other.
  lemma {:induction false} StoresWhatCounts(b: Board, s: Both, moves: seq<Move>)
    requires TicketProtocol.Inv(s.registry) && Persistence.Initial(s.board) && s.board.tickets == Export(s.registry, b)
    requires IsRun(b, s, moves)
    ensures var n := After(b, s, moves);
            n.board.line == [] && n.board.calls == map[] && !n.board.lost ==>
              && (n.board.store.Some? <==> n.board.registered.Some?)
              && (n.board.store.Some? ==> n.board.store.value.tickets == Export(n.registry, b))
  {
    Persistence.InitialOk(s.board);
    RunKeeps(b, s, moves);
  }

  // ---------------------------------------------------------------- one runtime

  // What a move that settles, cancels or deletes is to a runtime of the board: a deploy that went through has its
  // waiting server take over, and revokes what the board has no longer; one that did not leaves a registered board
  // as it was before it, and nothing of any other.
  ghost function BecomesOf(b: Board, s: Both, move: Move, k: Key): TicketTheorems.Slot
    requires move.Settles? || move.Cancels? || move.Deletes?
  {
    var r := TicketTheorems.View(s.registry, k);
    if k.board != b then r
    else match move
      case Settles(_, _, keep, _) =>
        TicketSlots.Then(TicketTheorems.Deployed(r, k), k, if k.runtimeId in keep then TicketSlots.Nothing else TicketSlots.Revoked)
      case Cancels => TicketSlots.Then(r, k, if s.board.registered.Some? then TicketSlots.Cancelled else TicketSlots.Revoked)
      case Deletes(_) => TicketSlots.Then(r, k, TicketSlots.Revoked)
  }

  lemma {:induction false} EachRuntimeBecomes(b: Board, s: Both, move: Move, k: Key)
    requires Same(b, s) && Enabled(b, s, move) && (move.Settles? || move.Cancels? || move.Deletes?)
    ensures TicketTheorems.View(Next(b, s, move).registry, k) == BecomesOf(b, s, move, k)
  {
    match move
    case Settles(call, order, keep, at) =>
      var settled := SettleAll(s.registry, order);
      TicketTheorems.RegistrationTakesOver(s.registry, b, order, k);
      TicketTheorems.StepKeeps(s.registry, StepPromoteBoard(b, order));
      TicketSlots.RevokeBoardSeen(settled, b, keep, k);
    case Cancels =>
      if s.board.registered.Some? {
        TicketSlots.EachRuntimeByItself(s.registry, StepCancelPending(b), k);
      } else {
        TicketSlots.RevokeBoardSeen(s.registry, b, {}, k);
      }
    case Deletes(_) => TicketSlots.RevokeBoardSeen(s.registry, b, {}, k);
  }
}
