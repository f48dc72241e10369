/**
  The ticket and participant protocol of src/coordinator/participants.ts as a state machine: the five
  maps of the registry, the sockets it has handlers on, and what it told a board's listeners. One
  function per handler; each handler runs without interruption, so a run is a sequence of steps.

  A ticket is represented by its digest. Digests are distinct for distinct tickets, so the only thing
  asked of a new one is that it is not already known.
 */
module TicketProtocol {

  type Hash = nat
  type SocketId = nat

  datatype Board = Board(userId: string, boardName: string)
  datatype Key = Key(board: Board, runtimeId: string)
  datatype Record = Record(key: Key, hash: Hash, issuedAt: nat)
  datatype StoredTicket = StoredTicket(runtimeId: string, hash: Hash, issuedAt: nat)

  // `joined` is whether the socket said hello and was welcomed; `closing` is whether the coordinator
  // asked it to close. A socket leaves the map when its close event arrives, possibly long after.
  datatype Socket = Socket(key: Key, hash: Hash, joined: bool, closing: bool)

  // What a board's listener is told: onJoin and onLeave.
  datatype Notice = Join(key: Key, socket: SocketId) | Leave(key: Key)

  datatype State = State(
    tickets: map<Hash, Record>,
    counting: map<Key, Hash>,
    pending: map<Key, Hash>,
    connections: map<Key, SocketId>,
    waiting: map<Key, SocketId>,
    sockets: map<SocketId, Socket>,
    said: seq<Notice>)

  const EMPTY := State(map[], map[], map[], map[], map[], map[], [])

  // ---------------------------------------------------------------- handlers

  function Close(sockets: map<SocketId, Socket>, ids: set<SocketId>): map<SocketId, Socket> {
    map id | id in sockets :: if id in ids then sockets[id].(closing := true) else sockets[id]
  }

  function At<V>(m: map<Key, V>, ks: set<Key>): set<V> {
    set k | k in ks && k in m :: m[k]
  }

  // Forgets the pending ticket of every runtime in `ks`, and whoever waits with it.
  function Drop(s: State, ks: set<Key>): State {
    var dropped := ks * s.pending.Keys;
    s.(tickets := s.tickets - At(s.pending, dropped),
       pending := s.pending - dropped,
       waiting := s.waiting - dropped,
       sockets := Close(s.sockets, At(s.waiting, dropped)))
  }

  function Issue(s: State, k: Key, h: Hash, at: nat): State {
    var known := s.(tickets := s.tickets[h := Record(k, h, at)]);
    if k !in s.counting then
      known.(counting := s.counting[k := h])
    else
      var cleared := Drop(known, {k});
      cleared.(pending := cleared.pending[k := h])
  }

  function Promote(s: State, k: Key): State {
    if k !in s.pending then s
    else
      var settled := s.(
        tickets := if k in s.counting then s.tickets - {s.counting[k]} else s.tickets,
        counting := s.counting[k := s.pending[k]],
        pending := s.pending - {k});
      if k !in s.waiting then settled
      else settled.(
        waiting := s.waiting - {k},
        connections := s.connections[k := s.waiting[k]],
        sockets := Close(s.sockets, At(s.connections, {k})),
        said := s.said + [Join(k, s.waiting[k])])
  }

  // One record of the loop in promoteBoard.
  function Settle(s: State, k: Key): State {
    if k in s.waiting then Promote(s, k) else Drop(s, {k})
  }

  function SettleAll(s: State, order: seq<Key>): State {
    if order == [] then s else Settle(SettleAll(s, order[..|order| - 1]), order[|order| - 1])
  }

  function PendingKeys(s: State, b: Board): set<Key> {
    set k | k in s.pending && k.board == b
  }

  function CancelPending(s: State, b: Board): State {
    Drop(s, PendingKeys(s, b))
  }

  // Forgets both tickets of every runtime in `ks` and closes what connected with them. The entry of
  // the current connection stays until its close event.
  function Revoke(s: State, ks: set<Key>): State {
    var d := Drop(s, ks);
    d.(tickets := d.tickets - At(s.counting, ks),
       counting := s.counting - ks,
       sockets := Close(d.sockets, At(s.connections, ks)))
  }

  function Ticketed(s: State, b: Board, keep: set<string>): set<Hash> {
    set h | h in s.tickets && s.tickets[h].key.board == b && s.tickets[h].key.runtimeId !in keep
  }

  function KeysOf(records: map<Hash, Record>, hashes: set<Hash>): set<Key> {
    set h | h in hashes && h in records :: records[h].key
  }

  function TicketedKeys(s: State, b: Board, keep: set<string>): set<Key> {
    KeysOf(s.tickets, Ticketed(s, b, keep))
  }

  function RevokeBoard(s: State, b: Board, keep: set<string>): State {
    Revoke(s, TicketedKeys(s, b, keep))
  }

  function ImportOne(s: State, b: Board, t: StoredTicket): State {
    var k := Key(b, t.runtimeId);
    if k in s.counting then s
    else s.(tickets := s.tickets[t.hash := Record(k, t.hash, t.issuedAt)], counting := s.counting[k := t.hash])
  }

  function Import(s: State, b: Board, ts: seq<StoredTicket>): State {
    if ts == [] then s else ImportOne(Import(s, b, ts[..|ts| - 1]), b, ts[|ts| - 1])
  }

  function Export(s: State, b: Board): set<StoredTicket> {
    set h | h in s.tickets && s.tickets[h].key.board == b && Counts(s, s.tickets[h].key, h)
      :: StoredTicket(s.tickets[h].key.runtimeId, h, s.tickets[h].issuedAt)
  }

  predicate Counts(s: State, k: Key, h: Hash) { k in s.counting && s.counting[k] == h }
  predicate Pends(s: State, k: Key, h: Hash) { k in s.pending && s.pending[k] == h }

  // A socket presented the ticket with digest `h`; it is refused when that ticket is not known.
  function Accept(s: State, id: SocketId, h: Hash): State {
    if h !in s.tickets then s
    else s.(sockets := s.sockets[id := Socket(s.tickets[h].key, h, false, false)])
  }

  // Welcomed with the pending ticket; one connection per ticket, so whoever waited before gives way.
  function Wait(s: State, id: SocketId): State
    requires id in s.sockets
  {
    var k := s.sockets[id].key;
    s.(waiting := s.waiting[k := id],
       sockets := Close(s.sockets[id := s.sockets[id].(joined := true)], At(s.waiting, {k})))
  }

  // Welcomed with the ticket that counts.
  function Connect(s: State, id: SocketId): State
    requires id in s.sockets
  {
    var k := s.sockets[id].key;
    s.(connections := s.connections[k := id],
       sockets := Close(s.sockets[id := s.sockets[id].(joined := true)], At(s.connections, {k})),
       said := s.said + [Join(k, id)])
  }

  function Hello(s: State, id: SocketId): State
    requires id in s.sockets && !s.sockets[id].joined
  {
    var Socket(k, h, _, _) := s.sockets[id];
    if Pends(s, k, h) then
      if k in s.connections then Wait(s, id) else Promote(Wait(s, id), k)
    else if Counts(s, k, h) then Connect(s, id)
    else s.(sockets := Close(s.sockets, {id}))
  }

  function Closed(s: State, id: SocketId): State
    requires id in s.sockets
  {
    var Socket(k, _, joined, _) := s.sockets[id];
    var gone := s.(sockets := s.sockets - {id});
    if !joined then gone
    else if k in s.waiting && s.waiting[k] == id then gone.(waiting := s.waiting - {k})
    else if k in s.connections && s.connections[k] == id then
      gone.(connections := s.connections - {k}, said := s.said + [Leave(k)])
    else gone
  }

  // ---------------------------------------------------------------- runs

  datatype Step =
    | StepIssue(key: Key, hash: Hash, at: nat)
    | StepAccept(id: SocketId, hash: Hash)
    | StepHello(id: SocketId)
    // The hello timer, or the coordinator shutting down: sockets asked to close.
    | StepAskClose(ids: set<SocketId>)
    | StepClosed(id: SocketId)
    // `order` is the order the pending records happen to be visited in.
    | StepPromoteBoard(board: Board, order: seq<Key>)
    | StepCancelPending(board: Board)
    | StepRevoke(key: Key)
    | StepRevokeBoard(board: Board, keep: set<string>)
    | StepImport(board: Board, tickets: seq<StoredTicket>)

  ghost predicate Enumerates(order: seq<Key>, ks: set<Key>) {
    && (forall k :: k in order <==> k in ks)
    && (forall i, j :: 0 <= i < j < |order| ==> order[i] != order[j])
  }

  // What the environment guarantees: digests of new and stored tickets do not collide, a new socket
  // is a new one, and a socket says hello once it is welcomed at most once and closes once.
  ghost predicate Enabled(s: State, step: Step) {
    match step
    case StepIssue(k, h, _) => h !in s.tickets
    case StepAccept(id, _) => id !in s.sockets
    case StepHello(id) => id in s.sockets && !s.sockets[id].joined
    case StepAskClose(_) => true
    case StepClosed(id) => id in s.sockets
    case StepPromoteBoard(b, order) => Enumerates(order, PendingKeys(s, b))
    case StepCancelPending(_) => true
    case StepRevoke(_) => true
    case StepRevokeBoard(_, _) => true
    case StepImport(b, ts) => Importable(s, b, ts)
  }

  ghost predicate Importable(s: State, b: Board, ts: seq<StoredTicket>) {
    && (forall t :: t in ts && Key(b, t.runtimeId) !in s.counting ==> t.hash !in s.tickets)
    && (forall t, u :: t in ts && u in ts && t.runtimeId != u.runtimeId ==> t.hash != u.hash)
  }

  ghost function Next(s: State, step: Step): State
    requires Enabled(s, step)
  {
    match step
    case StepIssue(k, h, at) => Issue(s, k, h, at)
    case StepAccept(id, h) => Accept(s, id, h)
    case StepHello(id) => Hello(s, id)
    case StepAskClose(ids) => s.(sockets := Close(s.sockets, ids))
    case StepClosed(id) => Closed(s, id)
    case StepPromoteBoard(_, order) => SettleAll(s, order)
    case StepCancelPending(b) => CancelPending(s, b)
    case StepRevoke(k) => Revoke(s, {k})
    case StepRevokeBoard(b, keep) => RevokeBoard(s, b, keep)
    case StepImport(b, ts) => Import(s, b, ts)
  }

  ghost predicate IsRun(s: State, steps: seq<Step>)
    decreases |steps|
  {
    steps == [] || (Enabled(s, steps[0]) && IsRun(Next(s, steps[0]), steps[1..]))
  }

  ghost function After(s: State, steps: seq<Step>): State
    requires IsRun(s, steps)
    decreases |steps|
  {
    if steps == [] then s else After(Next(s, steps[0]), steps[1..])
  }

  // ---------------------------------------------------------------- what every state keeps

  // An accepted ticket is the counting or the pending one of the runtime it was issued for.
  ghost predicate TicketOk(s: State, h: Hash) {
    h in s.tickets ==>
      s.tickets[h].hash == h && (Counts(s, s.tickets[h].key, h) || Pends(s, s.tickets[h].key, h))
  }

  ghost predicate Accepted(s: State, k: Key, h: Hash) {
    h in s.tickets && s.tickets[h].key == k
  }

  ghost predicate IsParticipant(s: State, k: Key, id: SocketId) {
    id in s.sockets && s.sockets[id].joined && s.sockets[id].key == k
  }

  // Both tickets of a runtime are accepted under it, and a pending one stands beside a counting one.
  // Whoever waits holds the pending ticket, and a connection not being closed was admitted with the
  // ticket that counts now.
  ghost predicate RuntimeOk(s: State, k: Key) {
    && (k in s.counting ==> Accepted(s, k, s.counting[k]))
    && (k in s.pending ==> Accepted(s, k, s.pending[k]) && k in s.counting && s.counting[k] != s.pending[k])
    && (k in s.waiting ==>
          && IsParticipant(s, k, s.waiting[k])
          && Pends(s, k, s.sockets[s.waiting[k]].hash)
          && (k in s.connections ==> s.connections[k] != s.waiting[k]))
    && (k in s.connections ==>
          && IsParticipant(s, k, s.connections[k])
          && (!s.sockets[s.connections[k]].closing ==> Counts(s, k, s.sockets[s.connections[k]].hash)))
  }

  // What a listener knows when it keeps the last server that joined and forgets one that left.
  function Replay(said: seq<Notice>): map<Key, SocketId> {
    if said == [] then map[] else Heard(Replay(said[..|said| - 1]), said[|said| - 1])
  }

  function Heard(known: map<Key, SocketId>, n: Notice): map<Key, SocketId> {
    match n
    case Join(k, id) => known[k := id]
    case Leave(k) => known - {k}
  }

  ghost predicate Inv(s: State) {
    && (forall h: Hash :: TicketOk(s, h))
    && (forall k: Key :: RuntimeOk(s, k))
    && Replay(s.said) == s.connections
  }

  lemma {:induction false} ReplayAppend(said: seq<Notice>, n: Notice)
    ensures Replay(said + [n]) == Heard(Replay(said), n)
  {
    assert (said + [n])[..|said|] == said;
  }

  lemma {:induction false} DropKeeps(s: State, ks: set<Key>)
    requires Inv(s)
    ensures Inv(Drop(s, ks))
  {
    var d := Drop(s, ks);
    forall h: Hash ensures TicketOk(d, h) {
      assert TicketOk(s, h);
    }
    forall k: Key ensures RuntimeOk(d, k) {
      assert RuntimeOk(s, k);
      forall j | j in s.pending ensures Accepted(s, j, s.pending[j]) { assert RuntimeOk(s, j); }
    }
  }

  // A runtime that has a counting ticket and nothing pending is given a pending one.
  lemma {:induction false} AddPendingKeeps(s: State, k: Key, h: Hash, at: nat)
    requires Inv(s) && h !in s.tickets && k in s.counting && k !in s.pending
    ensures Inv(s.(tickets := s.tickets[h := Record(k, h, at)], pending := s.pending[k := h]))
  {
    var n := s.(tickets := s.tickets[h := Record(k, h, at)], pending := s.pending[k := h]);
    forall g: Hash ensures TicketOk(n, g) { assert TicketOk(s, g); }
    forall j: Key ensures RuntimeOk(n, j) { assert RuntimeOk(s, j); }
  }

  lemma {:induction false} AddCountingKeeps(s: State, k: Key, h: Hash, at: nat)
    requires Inv(s) && h !in s.tickets && k !in s.counting
    ensures Inv(s.(tickets := s.tickets[h := Record(k, h, at)], counting := s.counting[k := h]))
  {
    var n := s.(tickets := s.tickets[h := Record(k, h, at)], counting := s.counting[k := h]);
    forall g: Hash ensures TicketOk(n, g) { assert TicketOk(s, g); }
    forall j: Key ensures RuntimeOk(n, j) { assert RuntimeOk(s, j); }
  }

  lemma {:induction false} IssueKeeps(s: State, k: Key, h: Hash, at: nat)
    requires Inv(s) && h !in s.tickets
    ensures Inv(Issue(s, k, h, at))
  {
    assert RuntimeOk(s, k);
    if k !in s.counting {
      AddCountingKeeps(s, k, h, at);
    } else {
      DropKeeps(s, {k});
      AddPendingKeeps(Drop(s, {k}), k, h, at);
      AddedBeforeDropped(s, k, h, at);
    }
  }

  // Adding a record and then dropping another is dropping and then adding.
  lemma AddedBeforeDropped(s: State, k: Key, h: Hash, at: nat)
    requires Inv(s) && h !in s.tickets && k in s.counting
    ensures Issue(s, k, h, at).tickets == Drop(s, {k}).tickets[h := Record(k, h, at)]
  {
    assert RuntimeOk(s, k);
    assert h !in At(s.pending, {k} * s.pending.Keys);
  }

  lemma {:induction false} PromoteKeeps(s: State, k: Key)
    requires Inv(s) && (k in s.pending ==> k in s.waiting)
    ensures Inv(Promote(s, k))
  {
    if k in s.pending {
      var n := Promote(s, k);
      ReplayAppend(s.said, Join(k, s.waiting[k]));
      assert RuntimeOk(s, k);
      forall h: Hash ensures TicketOk(n, h) { assert TicketOk(s, h); }
      forall j: Key ensures RuntimeOk(n, j) { assert RuntimeOk(s, j); }
    }
  }

  lemma {:induction false} RevokeKeeps(s: State, ks: set<Key>)
    requires Inv(s)
    ensures Inv(Revoke(s, ks))
  {
    DropKeeps(s, ks);
    ForgetKeeps(Drop(s, ks), ks);
  }

  // Forgetting the counting tickets of runtimes that have nothing pending.
  lemma {:induction false} ForgetKeeps(d: State, ks: set<Key>)
    requires Inv(d) && ks !! d.pending.Keys
    ensures Inv(d.(tickets := d.tickets - At(d.counting, ks),
                   counting := d.counting - ks,
                   sockets := Close(d.sockets, At(d.connections, ks))))
  {
    var n := d.(tickets := d.tickets - At(d.counting, ks),
                counting := d.counting - ks,
                sockets := Close(d.sockets, At(d.connections, ks)));
    forall h: Hash ensures TicketOk(n, h) { assert TicketOk(d, h); }
    forall k: Key ensures RuntimeOk(n, k) {
      assert RuntimeOk(d, k);
      forall j | j in d.counting ensures Accepted(d, j, d.counting[j]) { assert RuntimeOk(d, j); }
    }
  }

  lemma {:induction false} WaitKeeps(s: State, id: SocketId)
    requires Inv(s) && id in s.sockets && !s.sockets[id].joined && Pends(s, s.sockets[id].key, s.sockets[id].hash)
    ensures Inv(Wait(s, id))
  {
    var n := Wait(s, id);
    forall h: Hash ensures TicketOk(n, h) { assert TicketOk(s, h); }
    forall j: Key ensures RuntimeOk(n, j) { assert RuntimeOk(s, j); }
  }

  lemma {:induction false} ConnectKeeps(s: State, id: SocketId)
    requires Inv(s) && id in s.sockets && !s.sockets[id].joined && Counts(s, s.sockets[id].key, s.sockets[id].hash)
    ensures Inv(Connect(s, id))
  {
    var n := Connect(s, id);
    ReplayAppend(s.said, Join(s.sockets[id].key, id));
    forall g: Hash ensures TicketOk(n, g) { assert TicketOk(s, g); }
    forall j: Key ensures RuntimeOk(n, j) { assert RuntimeOk(s, j); }
  }

  lemma {:induction false} HelloKeeps(s: State, id: SocketId)
    requires Inv(s) && id in s.sockets && !s.sockets[id].joined
    ensures Inv(Hello(s, id))
  {
    var Socket(k, h, _, _) := s.sockets[id];
    if Pends(s, k, h) {
      WaitKeeps(s, id);
      if k !in s.connections {
        PromoteKeeps(Wait(s, id), k);
      }
    } else if Counts(s, k, h) {
      ConnectKeeps(s, id);
    } else {
      AskCloseKeeps(s, {id});
    }
  }

  lemma {:induction false} AskCloseKeeps(s: State, ids: set<SocketId>)
    requires Inv(s)
    ensures Inv(s.(sockets := Close(s.sockets, ids)))
  {
    var n := s.(sockets := Close(s.sockets, ids));
    forall g: Hash ensures TicketOk(n, g) { assert TicketOk(s, g); }
    forall j: Key ensures RuntimeOk(n, j) { assert RuntimeOk(s, j); }
  }

  // A socket that is nobody's: replaced before it closed, or gone before it said hello.
  lemma {:induction false} UnheldCloseKeeps(s: State, id: SocketId)
    requires Inv(s) && id in s.sockets
    requires forall k :: k in s.waiting ==> s.waiting[k] != id
    requires forall k :: k in s.connections ==> s.connections[k] != id
    ensures Inv(s.(sockets := s.sockets - {id}))
  {
    var n := s.(sockets := s.sockets - {id});
    forall g: Hash ensures TicketOk(n, g) { assert TicketOk(s, g); }
    forall j: Key ensures RuntimeOk(n, j) { assert RuntimeOk(s, j); }
  }

  lemma {:induction false} StopWaitingKeeps(s: State, k: Key)
    requires Inv(s)
    ensures Inv(s.(waiting := s.waiting - {k}))
  {
    var n := s.(waiting := s.waiting - {k});
    forall g: Hash ensures TicketOk(n, g) { assert TicketOk(s, g); }
    forall j: Key ensures RuntimeOk(n, j) { assert RuntimeOk(s, j); }
  }

  lemma {:induction false} LeaveKeeps(s: State, k: Key)
    requires Inv(s)
    ensures Inv(s.(connections := s.connections - {k}, said := s.said + [Leave(k)]))
  {
    var n := s.(connections := s.connections - {k}, said := s.said + [Leave(k)]);
    ReplayAppend(s.said, Leave(k));
    forall g: Hash ensures TicketOk(n, g) { assert TicketOk(s, g); }
    forall j: Key ensures RuntimeOk(n, j) { assert RuntimeOk(s, j); }
  }

  lemma {:induction false} ClosedKeeps(s: State, id: SocketId)
    requires Inv(s) && id in s.sockets
    ensures Inv(Closed(s, id))
  {
    var k := s.sockets[id].key;
    forall j: Key
      ensures j in s.waiting && s.waiting[j] == id ==> j == k && s.sockets[id].joined
      ensures j in s.connections && s.connections[j] == id ==>
                j == k && s.sockets[id].joined && !(k in s.waiting && s.waiting[k] == id)
    {
      assert RuntimeOk(s, j);
    }
    if k in s.waiting && s.waiting[k] == id {
      StopWaitingKeeps(s, k);
      UnheldCloseKeeps(s.(waiting := s.waiting - {k}), id);
    } else if k in s.connections && s.connections[k] == id {
      LeaveKeeps(s, k);
      UnheldCloseKeeps(s.(connections := s.connections - {k}, said := s.said + [Leave(k)]), id);
    } else {
      UnheldCloseKeeps(s, id);
    }
  }
}
