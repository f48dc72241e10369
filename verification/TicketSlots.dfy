/**
  The registry of src/coordinator/participants.ts one runtime at a time: what a step does to five maps and the sockets
  is what it does to one small machine per runtime, told from the ticket a socket holds and from nothing else.
 */
module TicketSlots {
  import opened TicketProtocol
  import opened TicketTheorems

  // ---------------------------------------------------------------- one runtime

  datatype Happening =
    | Nothing
    | Given(hash: Hash)
    | Arrives(id: SocketId)
    | Awaits(id: SocketId, hash: Hash)
    | Left
    | StopsWaiting
    | Settled
    | Cancelled
    | Revoked
    | Restored(hash: Hash)

  // A first ticket counts at once, a later one is pending and ends the pending one before it. The holder of the
  // counting ticket is the runtime's server, the holder of the pending one waits for the board to be registered
  // while there is a server, and a runtime that is revoked keeps the connection it has until that closes.
  function Then(r: Slot, k: Key, h: Happening): Slot {
    match h
    case Nothing => r
    case Given(hash) =>
      if r.counting.None? then r.(counting := Some(hash)) else r.(pending := Some(hash), waiting := None)
    case Arrives(id) => r.(current := Some(id), told := r.told + [Join(k, id)])
    case Awaits(id, hash) =>
      if r.current.Some? then r.(waiting := Some(id))
      else Slot(Some(hash), None, Some(id), None, r.told + [Join(k, id)])
    case Left => r.(current := None, told := r.told + [Leave(k)])
    case StopsWaiting => r.(waiting := None)
    case Settled => Deployed(r, k)
    case Cancelled => r.(pending := None, waiting := None)
    case Revoked => r.(counting := None, pending := None, waiting := None)
    case Restored(hash) => if r.counting.None? then r.(counting := Some(hash)) else r
  }

  // The first of the stored tickets that is the runtime's.
  function Stored(ts: seq<StoredTicket>, runtimeId: string): Option<Hash> {
    if ts == [] then None
    else if ts[0].runtimeId == runtimeId then Some(ts[0].hash)
    else Stored(ts[1..], runtimeId)
  }

  // What a step is to a runtime.
  ghost function Happens(s: State, step: Step, k: Key): Happening
    requires Enabled(s, step)
  {
    match step
    case StepIssue(j, h, _) => if j == k then Given(h) else Nothing
    case StepHello(id) =>
      if s.sockets[id].key != k then Nothing
      else if View(s, k).pending == Some(s.sockets[id].hash) then Awaits(id, s.sockets[id].hash)
      else if View(s, k).counting == Some(s.sockets[id].hash) then Arrives(id)
      else Nothing
    case StepClosed(id) =>
      if View(s, k).current == Some(id) then Left
      else if View(s, k).waiting == Some(id) then StopsWaiting
      else Nothing
    case StepPromoteBoard(b, _) => if k.board == b then Settled else Nothing
    case StepCancelPending(b) => if k.board == b then Cancelled else Nothing
    case StepRevoke(j) => if j == k then Revoked else Nothing
    case StepRevokeBoard(b, keep) => if k.board == b && k.runtimeId !in keep then Revoked else Nothing
    case StepImport(b, ts) =>
      if k.board == b && Stored(ts, k.runtimeId).Some? then Restored(Stored(ts, k.runtimeId).value) else Nothing
    case _ => Nothing
  }

  // Every step is, to each runtime, what happens to it and nothing else: the maps are many small machines.
  lemma {:induction false} EachRuntimeByItself(s: State, step: Step, k: Key)
    requires Inv(s) && Enabled(s, step)
    ensures View(Next(s, step), k) == Then(View(s, k), k, Happens(s, step, k))
  {
    assert RuntimeOk(s, k);
    match step
    case StepIssue(j, h, at) => IssueSeen(s, j, h, at, k);
    case StepHello(id) => HelloSeen(s, id, k);
    case StepClosed(id) => ClosedSeen(s, id, k);
    case StepPromoteBoard(b, order) => RegistrationTakesOver(s, b, order, k);
    case StepRevoke(j) => RevokeSeen(s, {j}, k);
    case StepRevokeBoard(b, keep) => RevokeBoardSeen(s, b, keep, k);
    case StepImport(b, ts) => ImportSeen(s, b, ts, k);
    case _ =>
  }

  lemma IssueSeen(s: State, j: Key, h: Hash, at: nat, k: Key)
    requires Inv(s) && h !in s.tickets
    ensures View(Issue(s, j, h, at), k) == Then(View(s, k), k, if j == k then Given(h) else Nothing)
  {
    assert RuntimeOk(s, j) && RuntimeOk(s, k);
  }

  lemma HelloSeen(s: State, id: SocketId, k: Key)
    requires Inv(s) && id in s.sockets && !s.sockets[id].joined
    ensures View(Hello(s, id), k) == Then(View(s, k), k, Happens(s, StepHello(id), k))
  {
    var Socket(j, h, _, _) := s.sockets[id];
    assert RuntimeOk(s, j);
    if Pends(s, j, h) {
      WaitSeen(s, id, k);
      if j !in s.connections {
        PromoteSeen(Wait(s, id), j, k);
      }
    } else if Counts(s, j, h) {
      ConnectSeen(s, id, k);
    }
  }

  lemma WaitSeen(s: State, id: SocketId, k: Key)
    requires id in s.sockets
    ensures View(Wait(s, id), k) == if s.sockets[id].key == k then View(s, k).(waiting := Some(id)) else View(s, k)
  {
  }

  lemma ConnectSeen(s: State, id: SocketId, k: Key)
    requires id in s.sockets
    ensures View(Connect(s, id), k)
         == if s.sockets[id].key == k then View(s, k).(current := Some(id), told := View(s, k).told + [Join(k, id)]) else View(s, k)
  {
    ForKeyAppend(s.said, Join(s.sockets[id].key, id), k);
  }

  lemma PromoteSeen(s: State, j: Key, k: Key)
    requires j in s.pending && j in s.waiting
    ensures View(Promote(s, j), k) == if j == k then Deployed(View(s, k), k) else View(s, k)
  {
    ForKeyAppend(s.said, Join(j, s.waiting[j]), k);
  }

  lemma ClosedSeen(s: State, id: SocketId, k: Key)
    requires Inv(s) && id in s.sockets
    ensures View(Closed(s, id), k) == Then(View(s, k), k, Happens(s, StepClosed(id), k))
  {
    var Socket(j, _, _, _) := s.sockets[id];
    PlacedThere(s, k, id);
    PlacedThere(s, j, id);
    ClosedHappens(s, id, k);
    if j in s.waiting && s.waiting[j] == id {
      StopSeen(s, id, j, k);
    } else if j in s.connections && s.connections[j] == id {
      GoneSeen(s, id, j, k);
    } else {
      UnheldSeen(s, id, k);
    }
  }

  lemma ClosedHappens(s: State, id: SocketId, k: Key)
    requires Inv(s) && id in s.sockets
    ensures var j := s.sockets[id].key;
            Happens(s, StepClosed(id), k) ==
            if k == j && j in s.waiting && s.waiting[j] == id then StopsWaiting
            else if k == j && j in s.connections && s.connections[j] == id then Left
            else Nothing
  {
    PlacedThere(s, k, id);
  }

  lemma StopSeen(s: State, id: SocketId, j: Key, k: Key)
    requires id in s.sockets && s.sockets[id].joined && s.sockets[id].key == j && j in s.waiting && s.waiting[j] == id
    ensures View(Closed(s, id), k) == if k == j then View(s, k).(waiting := None) else View(s, k)
  {
  }

  lemma GoneSeen(s: State, id: SocketId, j: Key, k: Key)
    requires id in s.sockets && s.sockets[id].joined && s.sockets[id].key == j
    requires j in s.connections && s.connections[j] == id && !(j in s.waiting && s.waiting[j] == id)
    ensures View(Closed(s, id), k) == if k == j then View(s, k).(current := None, told := View(s, k).told + [Leave(k)]) else View(s, k)
  {
    LeaveSeen(s, j, k);
  }

  lemma UnheldSeen(s: State, id: SocketId, k: Key)
    requires id in s.sockets
    requires var j := s.sockets[id].key; !(j in s.waiting && s.waiting[j] == id) && !(j in s.connections && s.connections[j] == id)
    ensures View(Closed(s, id), k) == View(s, k)
  {
  }

  lemma LeaveSeen(s: State, j: Key, k: Key)
    ensures ForKey(s.said + [Leave(j)], k) == if j == k then View(s, k).told + [Leave(k)] else View(s, k).told
  {
    ForKeyAppend(s.said, Leave(j), k);
  }

  lemma RevokeSeen(s: State, ks: set<Key>, k: Key)
    requires Inv(s)
    ensures View(Revoke(s, ks), k) == Then(View(s, k), k, if k in ks then Revoked else Nothing)
  {
    assert RuntimeOk(s, k);
  }

  // A runtime of the board without any ticket is as revoked as it will be.
  lemma RevokeBoardSeen(s: State, b: Board, keep: set<string>, k: Key)
    requires Inv(s)
    ensures View(RevokeBoard(s, b, keep), k)
         == Then(View(s, k), k, if k.board == b && k.runtimeId !in keep then Revoked else Nothing)
  {
    assert RuntimeOk(s, k);
    RevokeSeen(s, TicketedKeys(s, b, keep), k);
    if k in s.counting && k.board == b && k.runtimeId !in keep {
      assert s.counting[k] in Ticketed(s, b, keep);
    }
  }

  lemma {:induction false} ImportSeen(s: State, b: Board, ts: seq<StoredTicket>, k: Key)
    ensures var t := Stored(ts, k.runtimeId);
            View(Import(s, b, ts), k) == Then(View(s, k), k, if k.board == b && t.Some? then Restored(t.value) else Nothing)
  {
    if ts != [] {
      var init, t := ts[..|ts| - 1], ts[|ts| - 1];
      ImportSeen(s, b, init, k);
      assert ts == init + [t];
      StoredAppend(init, t, k.runtimeId);
      ImportOneSeen(Import(s, b, init), b, t, k);
    }
  }

  lemma ImportOneSeen(s: State, b: Board, t: StoredTicket, k: Key)
    ensures View(ImportOne(s, b, t), k) == Then(View(s, k), k, if k == Key(b, t.runtimeId) then Restored(t.hash) else Nothing)
  {
  }

  lemma {:induction false} StoredAppend(ts: seq<StoredTicket>, t: StoredTicket, runtimeId: string)
    ensures Stored(ts + [t], runtimeId)
         == if Stored(ts, runtimeId).Some? then Stored(ts, runtimeId) else if t.runtimeId == runtimeId then Some(t.hash) else None
  {
    if ts != [] {
      StoredAppend(ts[1..], t, runtimeId);
      assert (ts + [t])[1..] == ts[1..] + [t];
    }
  }

  // ---------------------------------------------------------------- sockets

  // The runtime's server, or waits to be.
  predicate Holds(r: Slot, id: SocketId) {
    r.current == Some(id) || r.waiting == Some(id)
  }

  // The ticket it holds still is one of its runtime's.
  predicate Known(s: State, id: SocketId) {
    id in s.sockets &&
    var r := View(s, s.sockets[id].key);
    r.counting == Some(s.sockets[id].hash) || r.pending == Some(s.sockets[id].hash)
  }

  // Whoever is welcomed is one or the other until it is asked to close.
  ghost predicate PlaceOk(s: State, id: SocketId) {
    id in s.sockets && s.sockets[id].joined && !s.sockets[id].closing ==> Holds(View(s, s.sockets[id].key), id)
  }

  ghost predicate AllPlaced(s: State) {
    forall id: SocketId :: PlaceOk(s, id)
  }

  // A socket is asked to close when the coordinator asks it by itself, when it says hello with a ticket that was
  // replaced meanwhile, when its place is taken or dropped, and when the runtime whose server it is is revoked.
  ghost predicate IsAsked(s: State, step: Step, id: SocketId)
    requires Enabled(s, step) && id in s.sockets
  {
    var k := s.sockets[id].key;
    var h := Happens(s, step, k);
    || (step.StepAskClose? && id in step.ids)
    || (step == StepHello(id) && !Known(s, id))
    || (Holds(View(s, k), id) && (h == Revoked || !Holds(Then(View(s, k), k, h), id)))
  }

  // The sockets after a step, and of each what became of it.
  lemma {:induction false} SocketsExactly(s: State, step: Step, id: SocketId)
    requires Inv(s) && Enabled(s, step)
    ensures var n := Next(s, step);
            id in n.sockets <==> (id in s.sockets && step != StepClosed(id)) || (step.StepAccept? && step.id == id && step.hash in s.tickets)
    ensures id !in s.sockets && id in Next(s, step).sockets ==>
              Next(s, step).sockets[id] == Socket(s.tickets[step.hash].key, step.hash, false, false)
    ensures id in s.sockets && id in Next(s, step).sockets ==> Becomes(s, step, id)
  {
    match step
    case StepIssue(k, h, at) => IssueSockets(s, k, h, at, id);
    case StepAccept(i, h) =>
    case StepAskClose(ids) =>
    case StepClosed(i) => ClosedSockets(s, i, id);
    case _ => HandlerSockets(s, step, id);
  }

  lemma HandlerSockets(s: State, step: Step, id: SocketId)
    requires Inv(s) && Enabled(s, step)
    requires !step.StepIssue? && !step.StepAccept? && !step.StepAskClose? && !step.StepClosed?
    ensures id in Next(s, step).sockets <==> id in s.sockets
    ensures id in s.sockets ==> Becomes(s, step, id)
  {
    match step
    case StepHello(i) => HelloSockets(s, i, id);
    case StepPromoteBoard(b, order) => PromoteSockets(s, b, order, id);
    case StepCancelPending(b) => CancelSockets(s, b, id);
    case StepRevoke(k) => RevokeSockets(s, {k}, id);
    case StepRevokeBoard(b, keep) => RevokeBoardSockets(s, b, keep, id);
    case StepImport(b, ts) => ImportSockets(s, b, ts, id);
  }

  ghost predicate Becomes(s: State, step: Step, id: SocketId)
    requires Enabled(s, step) && id in s.sockets && id in Next(s, step).sockets
  {
    var was, now := s.sockets[id], Next(s, step).sockets[id];
    && now.key == was.key && now.hash == was.hash
    && (now.joined <==> was.joined || (step == StepHello(id) && Known(s, id)))
    && (now.closing <==> was.closing || IsAsked(s, step, id))
  }

  // Only a runtime's own server is in its maps.
  lemma PlacedThere(s: State, k: Key, id: SocketId)
    requires Inv(s)
    ensures k in s.connections && s.connections[k] == id ==> id in s.sockets && s.sockets[id].key == k && s.sockets[id].joined
    ensures k in s.waiting && s.waiting[k] == id ==> id in s.sockets && s.sockets[id].key == k && s.sockets[id].joined && k in s.pending
    ensures k in s.waiting && s.waiting[k] == id ==> !(k in s.connections && s.connections[k] == id)
  {
    assert RuntimeOk(s, k);
  }

  lemma IssueSockets(s: State, k: Key, h: Hash, at: nat, id: SocketId)
    requires Inv(s) && h !in s.tickets
    ensures id in Issue(s, k, h, at).sockets <==> id in s.sockets
    ensures id in s.sockets ==> Becomes(s, StepIssue(k, h, at), id)
  {
    IssueCloses(s, k, h, at, id);
    PlacedThere(s, k, id);
    if id in s.sockets {
      PlacedThere(s, s.sockets[id].key, id);
    }
  }

  lemma IssueCloses(s: State, k: Key, h: Hash, at: nat, id: SocketId)
    requires Inv(s) && h !in s.tickets
    ensures id in Issue(s, k, h, at).sockets <==> id in s.sockets
    ensures id in s.sockets ==>
              Issue(s, k, h, at).sockets[id] ==
              if k in s.waiting && s.waiting[k] == id then s.sockets[id].(closing := true) else s.sockets[id]
  {
    assert RuntimeOk(s, k);
  }

  lemma HelloSockets(s: State, i: SocketId, id: SocketId)
    requires Inv(s) && Enabled(s, StepHello(i))
    ensures id in Hello(s, i).sockets <==> id in s.sockets
    ensures id in s.sockets ==> Becomes(s, StepHello(i), id)
  {
    if id in s.sockets {
      HelloCloses(s, i, id);
      HelloAsks(s, i, id);
    }
  }

  lemma HelloAsks(s: State, i: SocketId, id: SocketId)
    requires Inv(s) && Enabled(s, StepHello(i)) && id in s.sockets
    ensures var j, h := s.sockets[i].key, s.sockets[i].hash;
            IsAsked(s, StepHello(i), id) <==>
              || (id == i && !Known(s, i))
              || (Pends(s, j, h) && j in s.waiting && s.waiting[j] == id)
              || (Counts(s, j, h) && j in s.connections && s.connections[j] == id)
  {
    var j := s.sockets[i].key;
    PlacedThere(s, j, id);
    PlacedThere(s, j, i);
    PlacedThere(s, s.sockets[id].key, id);
    assert RuntimeOk(s, j);
  }

  // It is welcomed in the place of whoever held its ticket, or asked to close.
  lemma HelloCloses(s: State, i: SocketId, id: SocketId)
    requires Inv(s) && Enabled(s, StepHello(i)) && id in s.sockets
    ensures id in Hello(s, i).sockets
    ensures var Socket(k, h, joined, closing) := s.sockets[id];
            var j := s.sockets[i].key;
            Hello(s, i).sockets[id] == Socket(k, h, joined || (id == i && Known(s, i)),
                                              || closing || (id == i && !Known(s, i))
                                              || (Pends(s, j, s.sockets[i].hash) && j in s.waiting && s.waiting[j] == id)
                                              || (Counts(s, j, s.sockets[i].hash) && j in s.connections && s.connections[j] == id))
  {
    var j := s.sockets[i].key;
    PlacedThere(s, j, i);
    assert RuntimeOk(s, j);
    if Pends(s, j, s.sockets[i].hash) && j !in s.connections {
      PromoteCloses(Wait(s, i), j);
    }
  }

  lemma PromoteCloses(s: State, k: Key)
    requires k !in s.connections
    ensures Promote(s, k).sockets == s.sockets
  {
  }

  lemma ClosedSockets(s: State, i: SocketId, id: SocketId)
    requires Inv(s) && Enabled(s, StepClosed(i))
    ensures id in Closed(s, i).sockets <==> id in s.sockets && id != i
    ensures id in s.sockets && id != i ==> Becomes(s, StepClosed(i), id)
  {
    if id in s.sockets && id != i {
      ClosedCloses(s, i, id);
      PlacedThere(s, s.sockets[id].key, id);
    }
  }

  lemma ClosedCloses(s: State, i: SocketId, id: SocketId)
    requires i in s.sockets && id in s.sockets && id != i
    ensures id in Closed(s, i).sockets && Closed(s, i).sockets[id] == s.sockets[id]
  {
  }

  lemma CancelSockets(s: State, b: Board, id: SocketId)
    requires Inv(s)
    ensures id in CancelPending(s, b).sockets <==> id in s.sockets
    ensures id in s.sockets ==> Becomes(s, StepCancelPending(b), id)
  {
    forall k: Key { PlacedThere(s, k, id); }
  }

  lemma RevokeSockets(s: State, ks: set<Key>, id: SocketId)
    requires Inv(s)
    ensures id in Revoke(s, ks).sockets <==> id in s.sockets
    ensures id in s.sockets ==>
              var k := s.sockets[id].key;
              Revoke(s, ks).sockets[id] == if k in ks && Holds(View(s, k), id) then s.sockets[id].(closing := true) else s.sockets[id]
  {
    forall k: Key { PlacedThere(s, k, id); }
  }

  // A server of a runtime without a ticket is closing already.
  lemma RevokeBoardSockets(s: State, b: Board, keep: set<string>, id: SocketId)
    requires Inv(s)
    ensures id in RevokeBoard(s, b, keep).sockets <==> id in s.sockets
    ensures id in s.sockets ==> Becomes(s, StepRevokeBoard(b, keep), id)
  {
    RevokeSockets(s, TicketedKeys(s, b, keep), id);
    if id in s.sockets {
      var k := s.sockets[id].key;
      assert RuntimeOk(s, k);
      if k in s.counting && k.board == b && k.runtimeId !in keep {
        assert s.counting[k] in Ticketed(s, b, keep);
      }
    }
  }

  // Promoted, a runtime's server gives way to the one that waited.
  lemma {:induction false} SettleAllSockets(s: State, order: seq<Key>, id: SocketId)
    requires Inv(s)
    requires forall x, y :: 0 <= x < y < |order| ==> order[x] != order[y]
    ensures id in SettleAll(s, order).sockets <==> id in s.sockets
    ensures id in s.sockets ==>
              var k := s.sockets[id].key;
              SettleAll(s, order).sockets[id] ==
              if k in order && k in s.waiting && k in s.connections && s.connections[k] == id
              then s.sockets[id].(closing := true) else s.sockets[id]
  {
    if order != [] {
      var init, k := order[..|order| - 1], order[|order| - 1];
      SettleAllSockets(s, init, id);
      SettleAllViews(s, init, k);
      SettleAllKeeps(s, init);
      assert order == init + [k];
      SettleSockets(SettleAll(s, init), k, id);
      assert View(SettleAll(s, init), k) == View(s, k);
    }
  }

  lemma SettleSockets(s: State, k: Key, id: SocketId)
    requires Inv(s)
    ensures id in Settle(s, k).sockets <==> id in s.sockets
    ensures id in s.sockets ==>
              Settle(s, k).sockets[id] ==
              if k == s.sockets[id].key && k in s.waiting && k in s.connections && s.connections[k] == id
              then s.sockets[id].(closing := true) else s.sockets[id]
  {
    PlacedThere(s, k, id);
    assert RuntimeOk(s, k);
  }

  lemma PromoteSockets(s: State, b: Board, order: seq<Key>, id: SocketId)
    requires Inv(s) && Enabled(s, StepPromoteBoard(b, order))
    ensures id in SettleAll(s, order).sockets <==> id in s.sockets
    ensures id in s.sockets ==> Becomes(s, StepPromoteBoard(b, order), id)
  {
    SettleAllSockets(s, order, id);
    if id in s.sockets {
      PromoteAsks(s, b, order, id);
    }
  }

  lemma PromoteAsks(s: State, b: Board, order: seq<Key>, id: SocketId)
    requires Inv(s) && Enabled(s, StepPromoteBoard(b, order)) && id in s.sockets
    ensures var k := s.sockets[id].key;
            IsAsked(s, StepPromoteBoard(b, order), id) <==>
              k in order && k in s.waiting && k in s.connections && s.connections[k] == id
  {
    PlacedThere(s, s.sockets[id].key, id);
    assert RuntimeOk(s, s.sockets[id].key);
  }

  lemma {:induction false} ImportSockets(s: State, b: Board, ts: seq<StoredTicket>, id: SocketId)
    requires Inv(s) && Enabled(s, StepImport(b, ts))
    ensures id in Import(s, b, ts).sockets <==> id in s.sockets
    ensures id in s.sockets ==> Becomes(s, StepImport(b, ts), id)
  {
    ImportLeavesSockets(s, b, ts);
  }

  lemma {:induction false} ImportLeavesSockets(s: State, b: Board, ts: seq<StoredTicket>)
    ensures Import(s, b, ts).sockets == s.sockets
  {
    if ts != [] {
      ImportLeavesSockets(s, b, ts[..|ts| - 1]);
    }
  }

  // ---------------------------------------------------------------- records

  // What is known of a ticket, its runtime and when it was issued, is what it was issued or stored with.
  lemma {:induction false} RecordsStay(s: State, step: Step, h: Hash)
    requires Inv(s) && Enabled(s, step) && h in Next(s, step).tickets
    ensures var record := Next(s, step).tickets[h];
            if h in s.tickets then record == s.tickets[h]
            else || (step.StepIssue? && step.hash == h && record == Record(step.key, h, step.at))
                 || (step.StepImport? && exists t :: t in step.tickets && t.hash == h && record == Record(Key(step.board, t.runtimeId), h, t.issuedAt))
  {
    match step
    case StepIssue(k, g, at) => DropShrinks(s.(tickets := s.tickets[g := Record(k, g, at)]), {k});
    case StepImport(b, ts) =>
      ImportLeaves(s, b, ts);
      ImportRecords(s, b, ts, h);
    case _ => OthersShrink(s, step);
  }

  lemma OthersShrink(s: State, step: Step)
    requires Enabled(s, step) && !step.StepIssue? && !step.StepImport?
    ensures forall h :: h in Next(s, step).tickets ==> h in s.tickets && Next(s, step).tickets[h] == s.tickets[h]
  {
    match step
    case StepHello(id) => HelloShrinks(s, id);
    case StepPromoteBoard(_, order) => SettleAllShrinks(s, order);
    case StepCancelPending(b) => DropShrinks(s, PendingKeys(s, b));
    case StepRevoke(k) => DropShrinks(s, {k});
    case StepRevokeBoard(b, keep) => DropShrinks(s, TicketedKeys(s, b, keep));
    case _ =>
  }

  lemma DropShrinks(s: State, ks: set<Key>)
    ensures forall h :: h in Drop(s, ks).tickets ==> h in s.tickets && Drop(s, ks).tickets[h] == s.tickets[h]
    ensures forall h :: h in Revoke(s, ks).tickets ==> h in s.tickets && Revoke(s, ks).tickets[h] == s.tickets[h]
  {
  }

  lemma HelloShrinks(s: State, id: SocketId)
    requires id in s.sockets && !s.sockets[id].joined
    ensures forall h :: h in Hello(s, id).tickets ==> h in s.tickets && Hello(s, id).tickets[h] == s.tickets[h]
  {
  }

  // ---------------------------------------------------------------- runs

  ghost function Story(s: State, steps: seq<Step>, k: Key): seq<Happening>
    requires IsRun(s, steps)
    decreases |steps|
  {
    if steps == [] then [] else [Happens(s, steps[0], k)] + Story(Next(s, steps[0]), steps[1..], k)
  }

  function Through(r: Slot, k: Key, story: seq<Happening>): Slot
    decreases |story|
  {
    if story == [] then r else Through(Then(r, k, story[0]), k, story[1..])
  }

  // So is every run: what the registry has of a runtime is what happened to it.
  lemma {:induction false} EachRuntimeHasItsStory(s: State, steps: seq<Step>, k: Key)
    requires Inv(s) && IsRun(s, steps)
    ensures View(After(s, steps), k) == Through(View(s, k), k, Story(s, steps, k))
    decreases |steps|
  {
    if steps != [] {
      EachRuntimeByItself(s, steps[0], k);
      StepKeeps(s, steps[0]);
      EachRuntimeHasItsStory(Next(s, steps[0]), steps[1..], k);
    }
  }

  lemma {:induction false} StepPlaces(s: State, step: Step)
    requires Inv(s) && AllPlaced(s) && Enabled(s, step)
    ensures AllPlaced(Next(s, step))
  {
    forall id: SocketId ensures PlaceOk(Next(s, step), id) {
      assert PlaceOk(s, id);
      SocketsExactly(s, step, id);
      if id in s.sockets {
        EachRuntimeByItself(s, step, s.sockets[id].key);
      }
    }
  }

  lemma {:induction false} RunPlaces(s: State, steps: seq<Step>)
    requires Inv(s) && AllPlaced(s) && IsRun(s, steps)
    ensures AllPlaced(After(s, steps))
    decreases |steps|
  {
    if steps != [] {
      StepPlaces(s, steps[0]);
      StepKeeps(s, steps[0]);
      RunPlaces(Next(s, steps[0]), steps[1..]);
    }
  }

  // In every run whoever was welcomed, and not asked to close since, is its runtime's server or waits to be; and
  // only those who were welcomed are.
  lemma {:induction false} WelcomedExactly(steps: seq<Step>, id: SocketId)
    requires IsRun(EMPTY, steps)
    ensures var s := After(EMPTY, steps);
            && (id in s.sockets && s.sockets[id].joined && !s.sockets[id].closing ==> Holds(View(s, s.sockets[id].key), id))
            && forall k: Key :: Holds(View(s, k), id) ==> id in s.sockets && s.sockets[id].joined && s.sockets[id].key == k
  {
    RunKeeps(EMPTY, steps);
    RunPlaces(EMPTY, steps);
    var s := After(EMPTY, steps);
    assert PlaceOk(s, id);
    forall k: Key { PlacedThere(s, k, id); }
  }

  // The holder of the ticket that counts is the runtime's server from its hello on, and its listeners hear so; who
  // was before is asked to close. Nothing else of this runtime changes, and nothing of another.
  lemma {:induction false} CountingHello(s: State, id: SocketId, k: Key)
    requires Inv(s) && id in s.sockets && !s.sockets[id].joined
    requires var r := View(s, s.sockets[id].key); r.counting == Some(s.sockets[id].hash) && r.pending != Some(s.sockets[id].hash)
    ensures var n := Next(s, StepHello(id));
            && View(n, k) == (if k == s.sockets[id].key
                              then View(s, k).(current := Some(id), told := View(s, k).told + [Join(k, id)]) else View(s, k))
            && id in n.sockets && n.sockets[id] == s.sockets[id].(joined := true)
            && (View(s, s.sockets[id].key).current.Some? ==>
                  var before := View(s, s.sockets[id].key).current.value;
                  before in n.sockets && n.sockets[before].closing)
  {
    var j := s.sockets[id].key;
    EachRuntimeByItself(s, StepHello(id), k);
    SocketsExactly(s, StepHello(id), id);
    PlacedThere(s, j, id);
    if j in s.connections {
      PlacedThere(s, j, s.connections[j]);
      SocketsExactly(s, StepHello(id), s.connections[j]);
    }
  }

  // Whoever says hello with a ticket that is none of its runtime's any more is asked to close, and that is all.
  lemma {:induction false} LateHello(s: State, id: SocketId, k: Key)
    requires Inv(s) && id in s.sockets && !s.sockets[id].joined && !Known(s, id)
    ensures var n := Next(s, StepHello(id));
            View(n, k) == View(s, k) && id in n.sockets && n.sockets[id] == s.sockets[id].(closing := true)
  {
    EachRuntimeByItself(s, StepHello(id), k);
    SocketsExactly(s, StepHello(id), id);
  }

  // A runtime's first ticket is issued, a socket presents it and says hello: it is the runtime's server.
  lemma {:induction false} FirstServer(k: Key, h: Hash, at: nat, id: SocketId)
    ensures var steps := [StepIssue(k, h, at), StepAccept(id, h), StepHello(id)];
            && IsRun(EMPTY, steps)
            && var n := After(EMPTY, steps);
               && View(n, k) == Slot(Some(h), None, Some(id), None, [Join(k, id)])
               && n.connections == map[k := id] && n.said == [Join(k, id)]
               && n.sockets == map[id := Socket(k, h, true, false)]
  {
    var s1 := Next(EMPTY, StepIssue(k, h, at));
    var s2 := Next(s1, StepAccept(id, h));
    var s3 := Next(s2, StepHello(id));
    assert s2.sockets == map[id := Socket(k, h, false, false)];
    assert [StepIssue(k, h, at), StepAccept(id, h), StepHello(id)][1..] == [StepAccept(id, h), StepHello(id)];
    assert IsRun(s3, []) && [StepHello(id)][1..] == [];
    assert IsRun(s2, [StepHello(id)]) && After(s2, [StepHello(id)]) == s3;
    assert [StepAccept(id, h), StepHello(id)][1..] == [StepHello(id)];
    assert IsRun(s1, [StepAccept(id, h), StepHello(id)]) && After(s1, [StepAccept(id, h), StepHello(id)]) == s3;
    assert s3.said == [Join(k, id)];
    ForKeyAppend([], Join(k, id), k);
  }
}
