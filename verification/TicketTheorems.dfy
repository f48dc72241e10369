/**
  What the header of src/coordinator/participants.ts promises, for every interleaving of its handlers:
  the five maps agree, a deploy that fails leaves a running runtime as it was, one that succeeds takes
  over exactly where a server waits, and a listener always knows the current connections.
 */
module TicketTheorems {
  import opened TicketProtocol

  // ---------------------------------------------------------------- every run

  lemma {:induction false} SettleKeeps(s: State, k: Key)
    requires Inv(s)
    ensures Inv(Settle(s, k))
  {
    assert RuntimeOk(s, k);
    if k in s.waiting {
      PromoteKeeps(s, k);
    } else {
      DropKeeps(s, {k});
    }
  }

  lemma {:induction false} SettleAllKeeps(s: State, order: seq<Key>)
    requires Inv(s)
    ensures Inv(SettleAll(s, order))
  {
    if order != [] {
      SettleAllKeeps(s, order[..|order| - 1]);
      SettleKeeps(SettleAll(s, order[..|order| - 1]), order[|order| - 1]);
    }
  }

  // An import only adds stored digests, each under a runtime that then has a counting ticket.
  lemma {:induction false} ImportAdds(s: State, b: Board, ts: seq<StoredTicket>)
    ensures forall k :: k in s.counting ==> k in Import(s, b, ts).counting
    ensures forall h :: h in Import(s, b, ts).tickets && h !in s.tickets ==>
                        exists t :: t in ts && t.hash == h && Key(b, t.runtimeId) in Import(s, b, ts).counting
  {
    if ts != [] {
      var before := Import(s, b, ts[..|ts| - 1]);
      ImportAdds(s, b, ts[..|ts| - 1]);
      forall h | h in Import(s, b, ts).tickets && h !in s.tickets
        ensures exists t :: t in ts && t.hash == h && Key(b, t.runtimeId) in Import(s, b, ts).counting
      {
        if h in before.tickets {
          var t :| t in ts[..|ts| - 1] && t.hash == h && Key(b, t.runtimeId) in before.counting;
          assert t in ts;
        } else {
          assert ts[|ts| - 1] in ts;
        }
      }
    }
  }

  lemma {:induction false} ImportKeeps(s: State, b: Board, ts: seq<StoredTicket>)
    requires Inv(s) && Importable(s, b, ts)
    ensures Inv(Import(s, b, ts))
  {
    if ts != [] {
      var init, t := ts[..|ts| - 1], ts[|ts| - 1];
      var before, k := Import(s, b, init), Key(b, t.runtimeId);
      assert forall u :: u in init ==> u in ts;
      assert t in ts;
      ImportKeeps(s, b, init);
      ImportAdds(s, b, init);
      if k !in before.counting {
        AddCountingKeeps(before, k, t.hash, t.issuedAt);
      }
    }
  }

  lemma {:induction false} StepKeeps(s: State, step: Step)
    requires Inv(s) && Enabled(s, step)
    ensures Inv(Next(s, step))
  {
    match step
    case StepIssue(k, h, at) => IssueKeeps(s, k, h, at);
    case StepAccept(id, h) => if h in s.tickets { AcceptKeeps(s, id, h); }
    case StepHello(id) => HelloKeeps(s, id);
    case StepAskClose(ids) => AskCloseKeeps(s, ids);
    case StepClosed(id) => ClosedKeeps(s, id);
    case StepPromoteBoard(_, order) => SettleAllKeeps(s, order);
    case StepCancelPending(b) => DropKeeps(s, PendingKeys(s, b));
    case StepRevoke(k) => RevokeKeeps(s, {k});
    case StepRevokeBoard(b, keep) => RevokeKeeps(s, TicketedKeys(s, b, keep));
    case StepImport(b, ts) => ImportKeeps(s, b, ts);
  }

  lemma {:induction false} AcceptKeeps(s: State, id: SocketId, h: Hash)
    requires Inv(s) && id !in s.sockets && h in s.tickets
    ensures Inv(Accept(s, id, h))
  {
    var n := Accept(s, id, h);
    forall g: Hash ensures TicketOk(n, g) { assert TicketOk(s, g); }
    forall j: Key ensures RuntimeOk(n, j) { assert RuntimeOk(s, j); }
  }

  lemma {:induction false} RunKeeps(s: State, steps: seq<Step>)
    requires Inv(s) && IsRun(s, steps)
    ensures Inv(After(s, steps))
    decreases |steps|
  {
    if steps != [] {
      StepKeeps(s, steps[0]);
      RunKeeps(Next(s, steps[0]), steps[1..]);
    }
  }

  // The maps agree after any run from the empty registry.
  lemma {:induction false} MapsAgree(steps: seq<Step>)
    requires IsRun(EMPTY, steps)
    ensures var s := After(EMPTY, steps);
            && (forall h :: h in s.tickets <==> exists k :: Counts(s, k, h) || Pends(s, k, h))
            && (forall h :: h in s.tickets ==> TicketOk(s, h))
            && s.pending.Keys <= s.counting.Keys
            && (forall k :: k in s.waiting ==> s.waiting[k] in s.sockets && Pends(s, k, s.sockets[s.waiting[k]].hash))
            && (forall k :: k in s.connections ==> s.connections[k] in s.sockets)
            && (forall k :: k in s.connections && !s.sockets[s.connections[k]].closing ==>
                  Counts(s, k, s.sockets[s.connections[k]].hash))
  {
    RunKeeps(EMPTY, steps);
    var s := After(EMPTY, steps);
    forall k: Key
      ensures k in s.counting ==> s.counting[k] in s.tickets
      ensures k in s.pending ==> s.pending[k] in s.tickets && k in s.counting
      ensures k in s.waiting ==> s.waiting[k] in s.sockets && Pends(s, k, s.sockets[s.waiting[k]].hash)
      ensures k in s.connections ==> s.connections[k] in s.sockets
      ensures k in s.connections && !s.sockets[s.connections[k]].closing ==> Counts(s, k, s.sockets[s.connections[k]].hash)
    {
      assert RuntimeOk(s, k);
    }
    forall h | h in s.tickets ensures exists k :: Counts(s, k, h) || Pends(s, k, h) {
      assert TicketOk(s, h);
    }
  }

  // ---------------------------------------------------------------- listeners

  function ForBoard(said: seq<Notice>, b: Board): seq<Notice> {
    if said == [] then []
    else
      var init := ForBoard(said[..|said| - 1], b);
      if said[|said| - 1].key.board == b then init + [said[|said| - 1]] else init
  }

  function OfBoard(m: map<Key, SocketId>, b: Board): map<Key, SocketId> {
    map k | k in m && k.board == b :: m[k]
  }

  lemma {:induction false} ReplayOfBoard(said: seq<Notice>, b: Board)
    ensures Replay(ForBoard(said, b)) == OfBoard(Replay(said), b)
  {
    if said != [] {
      ReplayOfBoard(said[..|said| - 1], b);
      var n := said[|said| - 1];
      if n.key.board == b {
        ReplayAppend(ForBoard(said[..|said| - 1], b), n);
      }
    }
  }

  // A listener of one board, subscribed from the start, that keeps the last server that joined and
  // forgets one that left, knows that board's current connections after every step of every run.
  lemma {:induction false} ListenerKnowsConnections(steps: seq<Step>, b: Board)
    requires IsRun(EMPTY, steps)
    ensures Replay(ForBoard(After(EMPTY, steps).said, b)) == OfBoard(After(EMPTY, steps).connections, b)
  {
    RunKeeps(EMPTY, steps);
    ReplayOfBoard(After(EMPTY, steps).said, b);
  }

  // ---------------------------------------------------------------- one runtime's view

  datatype Option<T> = None | Some(value: T)

  // One runtime as the documentation speaks of it: the ticket that counts, the pending one beside it,
  // the server that is the board's, the one waiting, and what listeners were told of it.
  datatype Slot = Slot(
    counting: Option<Hash>, pending: Option<Hash>,
    current: Option<SocketId>, waiting: Option<SocketId>, told: seq<Notice>)

  function Look<V>(m: map<Key, V>, k: Key): Option<V> {
    if k in m then Some(m[k]) else None
  }

  function ForKey(said: seq<Notice>, k: Key): seq<Notice> {
    if said == [] then []
    else
      var init := ForKey(said[..|said| - 1], k);
      if said[|said| - 1].key == k then init + [said[|said| - 1]] else init
  }

  function View(s: State, k: Key): Slot {
    Slot(Look(s.counting, k), Look(s.pending, k), Look(s.connections, k), Look(s.waiting, k), ForKey(s.said, k))
  }

  lemma {:induction false} ForKeyAppend(said: seq<Notice>, n: Notice, k: Key)
    ensures ForKey(said + [n], k) == ForKey(said, k) + (if n.key == k then [n] else [])
  {
    assert (said + [n])[..|said|] == said;
  }

  // A deploy that went through, for one runtime: a waiting server takes over with its ticket, and a
  // pending ticket nobody connected with is dropped.
  function Deployed(r: Slot, k: Key): Slot {
    match (r.pending, r.waiting)
    case (Some(h), Some(id)) => Slot(Some(h), None, Some(id), None, r.told + [Join(k, id)])
    case (Some(_), None) => r.(pending := None)
    case (None, _) => r
  }

  lemma {:induction false} SettleViews(s: State, k: Key, j: Key)
    requires Inv(s)
    ensures View(Settle(s, k), j) == if j == k then Deployed(View(s, k), k) else View(s, j)
  {
    assert RuntimeOk(s, k);
    if k in s.waiting {
      ForKeyAppend(s.said, Join(k, s.waiting[k]), j);
    }
  }

  lemma {:induction false} SettleAllViews(s: State, order: seq<Key>, j: Key)
    requires Inv(s)
    requires forall x, y :: 0 <= x < y < |order| ==> order[x] != order[y]
    ensures View(SettleAll(s, order), j) == if j in order then Deployed(View(s, j), j) else View(s, j)
  {
    if order != [] {
      var init, k := order[..|order| - 1], order[|order| - 1];
      SettleAllViews(s, init, j);
      SettleAllViews(s, init, k);
      SettleAllKeeps(s, init);
      SettleViews(SettleAll(s, init), k, j);
      assert order == init + [k];
    }
  }

  // Registering a board settles each of its runtimes by itself, whatever the order the records are
  // visited in, and touches no other board's.
  lemma {:induction false} RegistrationTakesOver(s: State, b: Board, order: seq<Key>, k: Key)
    requires Inv(s) && Enumerates(order, PendingKeys(s, b))
    ensures View(SettleAll(s, order), k) == if k.board == b then Deployed(View(s, k), k) else View(s, k)
    ensures k.board == b ==> k !in SettleAll(s, order).pending
    ensures k.board == b && k in s.pending && k in s.waiting && k in s.counting ==> s.counting[k] !in SettleAll(s, order).tickets
    ensures k.board == b && k in s.pending && k !in s.waiting ==> s.pending[k] !in SettleAll(s, order).tickets
  {
    SettleAllViews(s, order, k);
    SettleAllKeeps(s, order);
    var n := SettleAll(s, order);
    assert RuntimeOk(s, k);
    assert k.board == b && k in s.pending ==> k in order;
    if k.board == b {
      assert View(n, k).pending == None;
      if k in s.pending {
        // Both tickets were issued for this runtime, so what is still accepted of them counts for it.
        OnlyCountingAccepted(s, order, k, s.counting[k]);
        OnlyCountingAccepted(s, order, k, s.pending[k]);
      }
    }
  }

  // A ticket never changes the runtime it speaks for while it is accepted.
  lemma {:induction false} SettleAllShrinks(s: State, order: seq<Key>)
    ensures forall h :: h in SettleAll(s, order).tickets ==> h in s.tickets && SettleAll(s, order).tickets[h] == s.tickets[h]
  {
    if order != [] {
      SettleAllShrinks(s, order[..|order| - 1]);
    }
  }

  lemma {:induction false} OnlyCountingAccepted(s: State, order: seq<Key>, k: Key, h: Hash)
    requires Inv(s) && Accepted(s, k, h)
    requires View(SettleAll(s, order), k).pending == None
    ensures h in SettleAll(s, order).tickets ==> Counts(SettleAll(s, order), k, h)
  {
    SettleAllShrinks(s, order);
    SettleAllKeeps(s, order);
    assert TicketOk(SettleAll(s, order), h);
  }

  // The runtime has a counting ticket and a server that is not being closed.
  ghost predicate Runs(s: State, k: Key) {
    k in s.counting && k in s.connections && s.connections[k] in s.sockets && !s.sockets[s.connections[k]].closing
  }

  // The branch of promote that finds no successor is never taken from a run: where a pending ticket
  // takes over at once, its holder becomes the board's server and the listeners hear of it.
  lemma {:induction false} PromotedAtOnce(s: State, id: SocketId)
    requires Inv(s) && id in s.sockets && !s.sockets[id].joined
    requires Pends(s, s.sockets[id].key, s.sockets[id].hash)
    ensures var k := s.sockets[id].key;
            if k in s.connections
            then View(Hello(s, id), k) == View(s, k).(waiting := Some(id))
            else View(Hello(s, id), k)
                 == Slot(Some(s.sockets[id].hash), None, Some(id), None, ForKey(s.said, k) + [Join(k, id)])
  {
    ForKeyAppend(s.said, Join(s.sockets[id].key, id), s.sockets[id].key);
  }

  // And it must not be: with nobody waiting, promoting leaves a live connection holding a ticket that
  // no longer counts.
  lemma {:induction false} PromotingNobodyBreaksTheRegistry(s: State, k: Key)
    requires Inv(s) && k in s.pending && k !in s.waiting
    requires Runs(s, k)
    ensures !Inv(Promote(s, k))
  {
    assert RuntimeOk(s, k);
    assert !RuntimeOk(Promote(s, k), k);
  }

  // ---------------------------------------------------------------- a deploy that fails

  // A step that is not the end of this runtime's server: it stays connected, does not reconnect with
  // the ticket that counts, and the board is neither registered nor does it lose the runtime.
  ghost predicate Spares(s: State, k: Key, step: Step)
    requires Enabled(s, step)
  {
    match step
    case StepHello(id) => !(s.sockets[id].key == k && Counts(s, k, s.sockets[id].hash))
    case StepAskClose(ids) => !(k in s.connections && s.connections[k] in ids)
    case StepClosed(id) => !(k in s.connections && s.connections[k] == id)
    case StepPromoteBoard(b, _) => b != k.board
    case StepRevoke(j) => j != k
    case StepRevokeBoard(b, kept) => b != k.board || k.runtimeId in kept
    case _ => true
  }

  ghost predicate SparingRun(s: State, k: Key, steps: seq<Step>)
    requires IsRun(s, steps)
    decreases |steps|
  {
    steps == [] || (Spares(s, k, steps[0]) && SparingRun(Next(s, steps[0]), k, steps[1..]))
  }

  ghost predicate SameServer(s: State, n: State, k: Key)
    requires Runs(s, k)
  {
    && Runs(n, k)
    && n.counting[k] == s.counting[k]
    && n.connections[k] == s.connections[k]
    && ForKey(n.said, k) == ForKey(s.said, k)
  }

  // A server a runtime is dropped, promoted or revoked over is not another runtime's.
  lemma {:induction false} OthersNotClosed(s: State, ks: set<Key>, k: Key)
    requires Inv(s) && k in s.connections
    ensures s.connections[k] !in At(s.waiting, ks)
    ensures k !in ks ==> s.connections[k] !in At(s.connections, ks)
  {
    forall j: Key
      ensures j in s.waiting ==> s.waiting[j] != s.connections[k]
      ensures j in s.connections && j != k ==> s.connections[j] != s.connections[k]
    {
      assert RuntimeOk(s, j) && RuntimeOk(s, k);
    }
  }

  lemma {:induction false} SettleAllSpares(s: State, order: seq<Key>, k: Key)
    requires Inv(s) && Runs(s, k) && k !in order
    ensures SameServer(s, SettleAll(s, order), k)
  {
    if order != [] {
      var init, j := order[..|order| - 1], order[|order| - 1];
      SettleAllSpares(s, init, k);
      SettleAllKeeps(s, init);
      var m := SettleAll(s, init);
      OthersNotClosed(m, {j}, k);
      OthersNotClosed(m, {j} * m.pending.Keys, k);
      if j in m.waiting {
        ForKeyAppend(m.said, Join(j, m.waiting[j]), k);
      }
    }
  }

  lemma {:induction false} ImportSpares(s: State, b: Board, ts: seq<StoredTicket>, k: Key)
    requires Runs(s, k)
    ensures SameServer(s, Import(s, b, ts), k)
  {
    if ts != [] {
      ImportSpares(s, b, ts[..|ts| - 1], k);
    }
  }

  lemma {:induction false} HelloSpares(s: State, id: SocketId, k: Key)
    requires Inv(s) && Runs(s, k) && id in s.sockets && !s.sockets[id].joined
    requires !(s.sockets[id].key == k && Counts(s, k, s.sockets[id].hash))
    ensures SameServer(s, Hello(s, id), k)
  {
    assert RuntimeOk(s, k);
    var j := s.sockets[id].key;
    OthersNotClosed(s, {j}, k);
    ForKeyAppend(s.said, Join(j, id), k);
  }

  lemma {:induction false} StepSpares(s: State, k: Key, step: Step)
    requires Inv(s) && Runs(s, k) && Enabled(s, step) && Spares(s, k, step)
    ensures SameServer(s, Next(s, step), k)
  {
    match step
    case StepIssue(j, h, at) => OthersNotClosed(s, {j} * s.pending.Keys, k);
    case StepAccept(id, h) =>
    case StepHello(id) => HelloSpares(s, id, k);
    case StepAskClose(ids) =>
    case StepClosed(id) => assert RuntimeOk(s, k); ForKeyAppend(s.said, Leave(s.sockets[id].key), k);
    case StepPromoteBoard(b, order) => SettleAllSpares(s, order, k);
    case StepCancelPending(b) => OthersNotClosed(s, PendingKeys(s, b) * s.pending.Keys, k);
    case StepRevoke(j) => RevokeSpares(s, {j}, k);
    case StepRevokeBoard(b, keep) => RevokeSpares(s, TicketedKeys(s, b, keep), k);
    case StepImport(b, ts) => ImportSpares(s, b, ts, k);
  }

  lemma {:induction false} RevokeSpares(s: State, ks: set<Key>, k: Key)
    requires Inv(s) && Runs(s, k) && k !in ks
    ensures SameServer(s, Revoke(s, ks), k)
  {
    OthersNotClosed(s, ks * s.pending.Keys, k);
    OthersNotClosed(s, ks, k);
  }

  lemma {:induction false} RunSpares(s: State, k: Key, steps: seq<Step>)
    requires Inv(s) && Runs(s, k) && IsRun(s, steps) && SparingRun(s, k, steps)
    ensures SameServer(s, After(s, steps), k)
    decreases |steps|
  {
    if steps != [] {
      StepSpares(s, k, steps[0]);
      StepKeeps(s, steps[0]);
      RunSpares(Next(s, steps[0]), k, steps[1..]);
    }
  }

  // A deploy that fails leaves a running runtime exactly as it was: the same ticket counts, the same
  // server is connected and not being closed, nothing is pending or waiting, and no listener was told
  // that anything joined or left.
  lemma {:induction false} FailedDeployChangesNothing(s: State, k: Key, steps: seq<Step>)
    requires Inv(s) && Runs(s, k) && IsRun(s, steps) && SparingRun(s, k, steps)
    ensures var n := CancelPending(After(s, steps), k.board);
            && View(n, k) == Slot(Some(s.counting[k]), None, Some(s.connections[k]), None, ForKey(s.said, k))
            && s.connections[k] in n.sockets && !n.sockets[s.connections[k]].closing
            && s.counting[k] in n.tickets
  {
    RunSpares(s, k, steps);
    RunKeeps(s, steps);
    var a := After(s, steps);
    assert RuntimeOk(a, k);
    OthersNotClosed(a, PendingKeys(a, k.board) * a.pending.Keys, k);
    DropKeeps(a, PendingKeys(a, k.board));
    assert RuntimeOk(CancelPending(a, k.board), k);
  }

  // ---------------------------------------------------------------- stored tickets

  ghost predicate Lists(ts: seq<StoredTicket>, b: Board, s: State) {
    forall t :: t in ts <==> t in Export(s, b)
  }

  lemma {:induction false} ExportedOnce(s: State, b: Board, t: StoredTicket)
    requires Inv(s)
    ensures t in Export(s, b) <==>
              && Counts(s, Key(b, t.runtimeId), t.hash)
              && t.hash in s.tickets && t.issuedAt == s.tickets[t.hash].issuedAt
  {
    assert RuntimeOk(s, Key(b, t.runtimeId));
  }

  lemma {:induction false} ImportCounts(s: State, b: Board, ts: seq<StoredTicket>, k: Key, h: Hash)
    requires forall t, u :: t in ts && u in ts && t.runtimeId == u.runtimeId ==> t.hash == u.hash
    ensures Counts(Import(s, b, ts), k, h) <==>
              Counts(s, k, h) || (k !in s.counting && k.board == b && exists t :: t in ts && t.runtimeId == k.runtimeId && t.hash == h)
  {
    if ts != [] {
      var init, t := ts[..|ts| - 1], ts[|ts| - 1];
      assert ts == init + [t];
      assert forall u :: u in ts <==> u in init || u == t;
      ImportCounts(s, b, init, k, h);
      ImportCounts(s, b, init, k, t.hash);
      var before := Import(s, b, init);
      if k == Key(b, t.runtimeId) && k in before.counting {
        ImportCounts(s, b, init, k, before.counting[k]);
      } else if k == Key(b, t.runtimeId) {
        ImportAdds(s, b, init);
        assert t in ts;
      }
    }
  }

  // What a store was given brings a board's counting tickets back, in whatever order it lists them:
  // the same digests count for the same runtimes, and none of another board's.
  lemma {:induction false} StoredTicketsComeBack(s: State, b: Board, ts: seq<StoredTicket>, k: Key, h: Hash)
    requires Inv(s) && Lists(ts, b, s)
    ensures Counts(Import(EMPTY, b, ts), k, h) <==> k.board == b && Counts(s, k, h)
  {
    forall t, u | t in ts && u in ts && t.runtimeId == u.runtimeId ensures t.hash == u.hash {
      ExportedOnce(s, b, t);
      ExportedOnce(s, b, u);
    }
    ImportCounts(EMPTY, b, ts, k, h);
    if k.board == b && Counts(s, k, h) {
      assert RuntimeOk(s, k);
      var t := StoredTicket(k.runtimeId, h, s.tickets[h].issuedAt);
      ExportedOnce(s, b, t);
      assert t in ts;
    }
    forall t | t in ts && t.runtimeId == k.runtimeId && t.hash == h && k.board == b ensures Counts(s, k, h) {
      ExportedOnce(s, b, t);
    }
  }

  lemma {:induction false} ImportRecords(s: State, b: Board, ts: seq<StoredTicket>, h: Hash)
    ensures h in Import(s, b, ts).tickets && h !in s.tickets ==>
              exists t :: t in ts && t.hash == h && Import(s, b, ts).tickets[h] == Record(Key(b, t.runtimeId), h, t.issuedAt)
  {
    if ts != [] {
      var init, t := ts[..|ts| - 1], ts[|ts| - 1];
      assert ts == init + [t] && t in ts && forall u :: u in init ==> u in ts;
      ImportRecords(s, b, init, h);
    }
  }

  // And with them everything that was stored of them: exporting again gives what was imported.
  lemma {:induction false} StoredTicketsAreTheSame(s: State, b: Board, ts: seq<StoredTicket>)
    requires Inv(s) && Lists(ts, b, s)
    ensures Export(Import(EMPTY, b, ts), b) == Export(s, b)
  {
    var n := Import(EMPTY, b, ts);
    forall t, u | t in ts && u in ts && t.hash == u.hash ensures t == u {
      ExportedOnce(s, b, t);
      ExportedOnce(s, b, u);
      assert RuntimeOk(s, Key(b, t.runtimeId)) && RuntimeOk(s, Key(b, u.runtimeId));
    }
    StepKeeps(EMPTY, StepImport(b, ts));
    forall t: StoredTicket ensures t in Export(n, b) <==> t in Export(s, b) {
      ExportedOnce(n, b, t);
      ExportedOnce(s, b, t);
      var k := Key(b, t.runtimeId);
      StoredTicketsComeBack(s, b, ts, k, t.hash);
      ImportRecords(EMPTY, b, ts, t.hash);
      assert RuntimeOk(n, k) && RuntimeOk(s, k);
      if Counts(s, k, t.hash) {
        var v := StoredTicket(t.runtimeId, t.hash, s.tickets[t.hash].issuedAt);
        ExportedOnce(s, b, v);
        assert v in ts;
      }
    }
  }

  // ---------------------------------------------------------------- when the stored tickets change

  // The steps after which the coordinator writes a registered board down: a ticket that counts at
  // once, a pending one that took over because nobody was connected, and the board's own
  // registration, revocation and import.
  ghost predicate WrittenDown(s: State, step: Step, b: Board)
    requires Enabled(s, step)
  {
    match step
    case StepIssue(k, _, _) => k.board == b && k !in s.counting
    case StepHello(id) =>
      var k := s.sockets[id].key;
      k.board == b && Pends(s, k, s.sockets[id].hash) && k !in s.connections
    case StepPromoteBoard(c, _) => c == b
    case StepRevoke(k) => k.board == b
    case StepRevokeBoard(c, _) => c == b
    case StepImport(c, _) => c == b
    case _ => false
  }

  lemma {:induction false} SameCountingSameExport(s: State, n: State, b: Board)
    requires Inv(s) && Inv(n)
    requires forall k: Key :: k.board == b ==> Look(s.counting, k) == Look(n.counting, k)
    requires forall h :: h in s.tickets && h in n.tickets ==> s.tickets[h] == n.tickets[h]
    ensures Export(s, b) == Export(n, b)
  {
    forall t: StoredTicket ensures t in Export(s, b) <==> t in Export(n, b) {
      ExportedOnce(s, b, t);
      ExportedOnce(n, b, t);
      var k := Key(b, t.runtimeId);
      assert Look(s.counting, k) == Look(n.counting, k);
      assert RuntimeOk(s, k) && RuntimeOk(n, k);
    }
  }

  lemma {:induction false} ImportLeaves(s: State, c: Board, ts: seq<StoredTicket>)
    requires Inv(s) && Importable(s, c, ts)
    ensures forall h :: h in s.tickets ==> h in Import(s, c, ts).tickets && Import(s, c, ts).tickets[h] == s.tickets[h]
    ensures forall k: Key :: k.board != c ==> Look(Import(s, c, ts).counting, k) == Look(s.counting, k)
  {
    if ts != [] {
      var init, t := ts[..|ts| - 1], ts[|ts| - 1];
      assert forall u :: u in init ==> u in ts;
      assert t in ts;
      ImportLeaves(s, c, init);
      ImportAdds(s, c, init);
    }
  }

  // What exportTickets answers for a board changes in no other step, so a registered board that is
  // written down after each of those is never stored with tickets that count no longer.
  lemma {:induction false} StoredTicketsChangeOnlyThere(s: State, step: Step, b: Board)
    requires Inv(s) && Enabled(s, step) && !WrittenDown(s, step, b)
    ensures Export(Next(s, step), b) == Export(s, b)
  {
    StepKeeps(s, step);
    match step {
      case StepIssue(k, h, at) => IssueLeaves(s, k, h, at, b);
      case StepHello(id) => HelloLeaves(s, id, b);
      case StepPromoteBoard(c, order) => PromotingLeaves(s, c, order, b);
      case StepCancelPending(c) => DropLeaves(s, PendingKeys(s, c), b);
      case StepRevoke(k) => RevokeLeaves(s, {k}, b);
      case StepRevokeBoard(c, keep) => RevokeBoardLeaves(s, c, keep, b);
      case StepImport(c, ts) => ImportLeaves(s, c, ts);
      case _ =>
    }
    SameCountingSameExport(s, Next(s, step), b);
  }

  // The board's counting tickets, and every record there still is, are as they were.
  ghost predicate Leaves(s: State, n: State, b: Board) {
    && (forall k: Key :: k.board == b ==> Look(s.counting, k) == Look(n.counting, k))
    && forall h :: h in s.tickets && h in n.tickets ==> s.tickets[h] == n.tickets[h]
  }

  lemma DropLeaves(s: State, ks: set<Key>, b: Board)
    ensures Leaves(s, Drop(s, ks), b)
  {
  }

  lemma IssueLeaves(s: State, k: Key, h: Hash, at: nat, b: Board)
    requires h !in s.tickets && (k.board != b || k in s.counting)
    ensures Leaves(s, Issue(s, k, h, at), b)
  {
    var known := s.(tickets := s.tickets[h := Record(k, h, at)]);
    DropLeaves(known, {k}, b);
  }

  lemma HelloLeaves(s: State, id: SocketId, b: Board)
    requires id in s.sockets && !s.sockets[id].joined
    requires var k := s.sockets[id].key; !(k.board == b && Pends(s, k, s.sockets[id].hash) && k !in s.connections)
    ensures Leaves(s, Hello(s, id), b)
  {
  }

  lemma {:induction false} PromotingLeaves(s: State, c: Board, order: seq<Key>, b: Board)
    requires Inv(s) && Enumerates(order, PendingKeys(s, c)) && b != c
    ensures Leaves(s, SettleAll(s, order), b)
  {
    SettleAllShrinks(s, order);
    forall k: Key | k.board == b ensures Look(s.counting, k) == Look(SettleAll(s, order).counting, k) {
      SettleAllViews(s, order, k);
    }
  }

  lemma RevokeLeaves(s: State, ks: set<Key>, b: Board)
    requires forall k :: k in ks ==> k.board != b
    ensures Leaves(s, Revoke(s, ks), b)
  {
    DropLeaves(s, ks, b);
  }

  lemma RevokeBoardLeaves(s: State, c: Board, keep: set<string>, b: Board)
    requires b != c
    ensures Leaves(s, RevokeBoard(s, c, keep), b)
  {
    RevokeLeaves(s, TicketedKeys(s, c, keep), b);
  }
}
