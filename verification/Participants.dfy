/**
  ParticipantRegistry of src/coordinator/participants.ts: the five maps of tickets and connections, and the
  sockets its handlers are on, updated in place. Each method is one handler, or one call of the coordinator's.
 */
module Participants {
  import opened TicketProtocol
  import TicketTheorems

  class ParticipantRegistry {
    var ticketsByHash: map<Hash, Record>
    var hashByRuntime: map<Key, Hash>
    var pendingByRuntime: map<Key, Hash>
    var connections: map<Key, SocketId>
    var waiting: map<Key, SocketId>
    // The sockets that were accepted and have not closed yet.
    var sockets: map<SocketId, Socket>
    // What the boards' listeners were told.
    ghost var said: seq<Notice>

    ghost function State(): State
      reads this
    {
      TicketProtocol.State.State(ticketsByHash, hashByRuntime, pendingByRuntime, connections, waiting, sockets, said)
    }

    ghost predicate Valid()
      reads this
    {
      Inv(State())
    }

    constructor ()
      ensures Valid() && State() == EMPTY
    {
      ticketsByHash, hashByRuntime, pendingByRuntime := map[], map[], map[];
      connections, waiting, sockets, said := map[], map[], map[], [];
    }

    method CloseSocket(id: SocketId)
      modifies this`sockets
      ensures sockets == Close(old(sockets), {id})
    {
      if id in sockets {
        sockets := sockets[id := sockets[id].(closing := true)];
      }
    }

    // Closes the socket a runtime has in a map, if it has one.
    method CloseAt(held: map<Key, SocketId>, key: Key)
      modifies this`sockets
      ensures sockets == Close(old(sockets), At(held, {key}))
    {
      AtOne(held, key);
      if key in held {
        CloseSocket(held[key]);
      } else {
        CloseNobody(sockets);
      }
    }

    // Counts at once for a runtime that has no ticket; beside a counting one it is pending.
    method Issue(key: Key, hash: Hash, at: nat)
      requires Valid() && hash !in ticketsByHash
      modifies this
      ensures Valid() && State() == TicketProtocol.Issue(old(State()), key, hash, at)
    {
      IssueKeeps(State(), key, hash, at);
      ticketsByHash := ticketsByHash[hash := Record(key, hash, at)];
      if key !in hashByRuntime {
        hashByRuntime := hashByRuntime[key := hash];
        return;
      }
      DropPending(key);
      pendingByRuntime := pendingByRuntime[key := hash];
    }

    method DropPending(key: Key)
      modifies this
      ensures State() == Drop(old(State()), {key})
    {
      if key !in pendingByRuntime {
        CloseNobody(sockets);
        return;
      }
      AtOne(pendingByRuntime, key);
      assert {key} * pendingByRuntime.Keys == {key};
      ticketsByHash := ticketsByHash - {pendingByRuntime[key]};
      pendingByRuntime := pendingByRuntime - {key};
      var held := waiting;
      waiting := waiting - {key};
      CloseAt(held, key);
    }

    method Promote(key: Key)
      modifies this
      ensures State() == TicketProtocol.Promote(old(State()), key)
    {
      if key !in pendingByRuntime {
        return;
      }
      PendingCounts(key);
      if key in waiting {
        TakeOver(key);
      }
    }

    // The pending ticket in place of the counting one.
    method PendingCounts(key: Key)
      requires key in pendingByRuntime
      modifies this`ticketsByHash, this`hashByRuntime, this`pendingByRuntime
      ensures ticketsByHash == old(ticketsByHash) - At(old(hashByRuntime), {key})
      ensures hashByRuntime == old(hashByRuntime)[key := old(pendingByRuntime)[key]]
      ensures pendingByRuntime == old(pendingByRuntime) - {key}
    {
      AtOne(hashByRuntime, key);
      var hash := pendingByRuntime[key];
      if key in hashByRuntime {
        ticketsByHash := ticketsByHash - {hashByRuntime[key]};
      }
      hashByRuntime := hashByRuntime[key := hash];
      pendingByRuntime := pendingByRuntime - {key};
    }

    // The server waiting in place of the one connected.
    method TakeOver(key: Key)
      requires key in waiting
      modifies this`waiting, this`connections, this`sockets, this`said
      ensures waiting == old(waiting) - {key} && connections == old(connections)[key := old(waiting)[key]]
      ensures sockets == Close(old(sockets), At(old(connections), {key}))
      ensures said == old(said) + [Join(key, old(waiting)[key])]
    {
      var successor, held := waiting[key], connections;
      waiting := waiting - {key};
      connections := connections[key := successor];
      CloseAt(held, key);
      said := said + [Join(key, successor)];
    }

    method PendingOf(board: Board) returns (keys: set<Key>)
      requires Valid()
      ensures keys == PendingKeys(State(), board)
    {
      keys := set hash | hash in ticketsByHash &&
                         ticketsByHash[hash].key.board == board &&
                         ticketsByHash[hash].key in pendingByRuntime &&
                         pendingByRuntime[ticketsByHash[hash].key] == hash
                       :: ticketsByHash[hash].key;
      forall key | key in PendingKeys(State(), board) ensures key in keys {
        assert RuntimeOk(State(), key);
        assert pendingByRuntime[key] in ticketsByHash;
      }
    }

    // Settles a board's pending tickets, in whatever order they are visited.
    method PromoteBoard(board: Board) returns (ghost order: seq<Key>)
      requires Valid()
      modifies this
      ensures Valid() && Enumerates(order, PendingKeys(old(State()), board))
      ensures State() == SettleAll(old(State()), order)
    {
      var keys := PendingOf(board);
      order := [];
      var remaining := keys;
      while remaining != {}
        invariant remaining <= keys && Enumerates(order, keys - remaining)
        invariant State() == SettleAll(old(State()), order)
        decreases remaining
      {
        var key :| key in remaining;
        remaining := remaining - {key};
        assert (order + [key])[..|order|] == order;
        order := order + [key];
        if key in waiting {
          Promote(key);
        } else {
          DropPending(key);
        }
      }
      assert keys - {} == keys;
      TicketTheorems.SettleAllKeeps(old(State()), order);
    }

    method CancelPending(board: Board)
      requires Valid()
      modifies this
      ensures Valid() && State() == TicketProtocol.CancelPending(old(State()), board)
    {
      DropKeeps(State(), PendingKeys(State(), board));
      DropNobody(State());
      var keys := PendingOf(board);
      var remaining := keys;
      while remaining != {}
        invariant remaining <= keys && State() == Drop(old(State()), keys - remaining)
        decreases remaining
      {
        var key :| key in remaining;
        DropTogether(old(State()), keys - remaining, {key});
        assert keys - remaining + {key} == keys - (remaining - {key});
        remaining := remaining - {key};
        DropPending(key);
      }
      assert keys - {} == keys;
    }

    method Revoke(key: Key)
      modifies this
      ensures State() == TicketProtocol.Revoke(old(State()), {key})
    {
      DropPending(key);
      AtOne(hashByRuntime, key);
      if key in hashByRuntime {
        ticketsByHash := ticketsByHash - {hashByRuntime[key]};
      }
      hashByRuntime := hashByRuntime - {key};
      CloseAt(connections, key);
    }

    // Every ticket of a board but of the runtimes kept.
    method RevokeBoard(board: Board, keep: set<string>)
      requires Valid()
      modifies this
      ensures Valid() && State() == TicketProtocol.RevokeBoard(old(State()), board, keep)
    {
      RevokeKeeps(State(), TicketedKeys(State(), board, keep));
      RevokeNobody(State());
      var records := ticketsByHash;
      var hashes := set hash | hash in records && records[hash].key.board == board && records[hash].key.runtimeId !in keep;
      var remaining := hashes;
      ghost var done: set<Hash> := {};
      assert KeysOf(records, done) == {};
      while remaining != {}
        invariant done + remaining == hashes
        invariant State() == TicketProtocol.Revoke(old(State()), KeysOf(records, done))
        decreases remaining
      {
        var hash :| hash in remaining;
        OneMoreRevoked(old(State()), records, done, hash);
        remaining, done := remaining - {hash}, done + {hash};
        Revoke(records[hash].key);
      }
      assert done == hashes == Ticketed(old(State()), board, keep);
    }

    // The tickets that count, in the form they are stored.
    method ExportTickets(board: Board) returns (tickets: set<StoredTicket>)
      requires Valid()
      ensures tickets == Export(State(), board)
    {
      tickets := set hash | hash in ticketsByHash &&
                            ticketsByHash[hash].key.board == board &&
                            ticketsByHash[hash].key in hashByRuntime &&
                            hashByRuntime[ticketsByHash[hash].key] == ticketsByHash[hash].hash
                          :: StoredTicket(ticketsByHash[hash].key.runtimeId, ticketsByHash[hash].hash, ticketsByHash[hash].issuedAt);
      forall hash: Hash ensures hash in ticketsByHash ==> ticketsByHash[hash].hash == hash {
        assert TicketOk(State(), hash);
      }
    }

    method ImportTickets(board: Board, tickets: seq<StoredTicket>)
      requires Valid() && Importable(State(), board, tickets)
      modifies this
      ensures Valid() && State() == Import(old(State()), board, tickets)
    {
      TicketTheorems.ImportKeeps(State(), board, tickets);
      for i := 0 to |tickets|
        invariant State() == Import(old(State()), board, tickets[..i])
      {
        assert tickets[..i + 1][..i] == tickets[..i];
        var ticket := tickets[i];
        var key := Key(board, ticket.runtimeId);
        if key !in hashByRuntime {
          ticketsByHash := ticketsByHash[ticket.hash := Record(key, ticket.hash, ticket.issuedAt)];
          hashByRuntime := hashByRuntime[key := ticket.hash];
        }
      }
      assert tickets[..|tickets|] == tickets;
    }

    method Accept(id: SocketId, hash: Hash) returns (accepted: bool)
      requires Valid() && id !in sockets
      modifies this
      ensures Valid() && State() == TicketProtocol.Accept(old(State()), id, hash)
      ensures accepted <==> hash in old(ticketsByHash)
    {
      if hash !in ticketsByHash {
        return false;
      }
      TicketTheorems.AcceptKeeps(State(), id, hash);
      sockets := sockets[id := Socket(ticketsByHash[hash].key, hash, false, false)];
      return true;
    }

    method OnHello(id: SocketId)
      requires Valid() && id in sockets && !sockets[id].joined
      modifies this
      ensures Valid() && State() == Hello(old(State()), id)
    {
      HelloKeeps(State(), id);
      var key, hash := sockets[id].key, sockets[id].hash;
      var pending := key in pendingByRuntime && pendingByRuntime[key] == hash;
      if !pending && !(key in hashByRuntime && hashByRuntime[key] == hash) {
        CloseSocket(id);
        return;
      }
      if !pending {
        ConnectWith(id);
        return;
      }
      WaitWith(id);
      if key !in connections {
        Promote(key);
      }
    }

    // Welcomed with the counting ticket, in place of whoever was connected.
    method ConnectWith(id: SocketId)
      requires id in sockets
      modifies this
      ensures State() == Connect(old(State()), id)
    {
      var key, held := sockets[id].key, connections;
      sockets := sockets[id := sockets[id].(joined := true)];
      connections := connections[key := id];
      CloseAt(held, key);
      said := said + [Join(key, id)];
    }

    // Welcomed with the pending ticket, in place of whoever waited with it.
    method WaitWith(id: SocketId)
      requires id in sockets
      modifies this`sockets, this`waiting
      ensures State() == Wait(old(State()), id)
    {
      var key, held := sockets[id].key, waiting;
      sockets := sockets[id := sockets[id].(joined := true)];
      waiting := waiting[key := id];
      CloseAt(held, key);
    }

    method OnClose(id: SocketId)
      requires Valid() && id in sockets
      modifies this
      ensures Valid() && State() == Closed(old(State()), id)
    {
      ClosedKeeps(State(), id);
      var key, joined := sockets[id].key, sockets[id].joined;
      sockets := sockets - {id};
      if !joined {
        return;
      }
      if key in waiting && waiting[key] == id {
        waiting := waiting - {key};
        return;
      }
      if !(key in connections && connections[key] == id) {
        return;
      }
      connections := connections - {key};
      said := said + [Leave(key)];
    }
  }

  // ---------------------------------------------------------------- one after another is all at once

  lemma AtOne<V>(m: map<Key, V>, k: Key)
    ensures At(m, {k}) == if k in m then {m[k]} else {}
  {
  }

  lemma CloseNobody(sockets: map<SocketId, Socket>)
    ensures Close(sockets, {}) == sockets
  {
  }

  lemma DropNobody(s: State)
    ensures Drop(s, {}) == s
  {
    CloseNobody(s.sockets);
  }

  lemma CloseTogether(sockets: map<SocketId, Socket>, a: set<SocketId>, b: set<SocketId>)
    ensures Close(Close(sockets, a), b) == Close(sockets, a + b)
  {
  }

  lemma AtTogether<V>(m: map<Key, V>, a: set<Key>, b: set<Key>)
    ensures At(m, a + b) == At(m, a) + At(m - a, b)
  {
  }

  // One record of the snapshot more: its runtime is revoked after those of the others, again if it was.
  lemma OneMoreRevoked(s: State, records: map<Hash, Record>, done: set<Hash>, hash: Hash)
    requires hash in records
    ensures TicketProtocol.Revoke(TicketProtocol.Revoke(s, KeysOf(records, done)), {records[hash].key})
            == TicketProtocol.Revoke(s, KeysOf(records, done + {hash}))
  {
    OneKeyMore(records, done, hash);
    RevokeTogether(s, KeysOf(records, done), {records[hash].key});
  }

  lemma OneKeyMore(records: map<Hash, Record>, hashes: set<Hash>, hash: Hash)
    requires hash in records
    ensures KeysOf(records, hashes + {hash}) == KeysOf(records, hashes) + {records[hash].key}
  {
  }

  // Dropping some and then others is dropping all of them.
  lemma {:induction false} DropTogether(s: State, done: set<Key>, more: set<Key>)
    ensures Drop(Drop(s, done), more) == Drop(s, done + more)
  {
    var d := Drop(s, done);
    var a, b := done * s.pending.Keys, more * d.pending.Keys;
    assert (done + more) * s.pending.Keys == a + b;
    DropSteps(s, a, b);
  }

  lemma {:induction false} DropSteps(s: State, a: set<Key>, b: set<Key>)
    ensures s.pending - a - b == s.pending - (a + b)
    ensures s.waiting - a - b == s.waiting - (a + b)
    ensures s.tickets - At(s.pending, a) - At(s.pending - a, b) == s.tickets - At(s.pending, a + b)
    ensures Close(Close(s.sockets, At(s.waiting, a)), At(s.waiting - a, b)) == Close(s.sockets, At(s.waiting, a + b))
  {
    AtTogether(s.pending, a, b);
    AtTogether(s.waiting, a, b);
    CloseTogether(s.sockets, At(s.waiting, a), At(s.waiting - a, b));
  }

  lemma RevokeNobody(s: State)
    ensures TicketProtocol.Revoke(s, {}) == s
  {
    DropNobody(s);
    CloseNobody(s.sockets);
  }

  // Revoking some and then others is revoking all of them.
  lemma {:induction false} RevokeTogether(s: State, done: set<Key>, more: set<Key>)
    ensures TicketProtocol.Revoke(TicketProtocol.Revoke(s, done), more) == TicketProtocol.Revoke(s, done + more)
  {
    DropTogether(s, done, more);
    AtTogether(s.counting, done, more);
    RevokedTickets(s, done, more);
    RevokedSockets(s, done, more);
    assert s.counting - done - more == s.counting - (done + more);
  }

  // Dropping after forgetting counting tickets, or before, is the same.
  lemma {:induction false} RevokedTickets(s: State, done: set<Key>, more: set<Key>)
    ensures TicketProtocol.Revoke(TicketProtocol.Revoke(s, done), more).tickets == TicketProtocol.Revoke(s, done + more).tickets
  {
    DropTogether(s, done, more);
    AtTogether(s.counting, done, more);
    var d := Drop(s, done);
    var b := more * d.pending.Keys;
    var x, y := At(s.counting, done), At(s.counting - done, more);
    assert d.tickets - x - At(d.pending, b) - y == d.tickets - At(d.pending, b) - (x + y);
  }

  // Closing connections after those who waited, or before, is the same.
  lemma {:induction false} RevokedSockets(s: State, done: set<Key>, more: set<Key>)
    ensures TicketProtocol.Revoke(TicketProtocol.Revoke(s, done), more).sockets == TicketProtocol.Revoke(s, done + more).sockets
  {
    DropTogether(s, done, more);
    var d := Drop(s, done);
    var w := At(d.waiting, more * d.pending.Keys);
    var u, v := At(s.connections, done), At(s.connections, more);
    assert At(s.connections, done + more) == u + v;
    CloseTogether(d.sockets, u, w);
    CloseTogether(d.sockets, u + w, v);
    CloseTogether(d.sockets, w, u + v);
    assert u + w + v == w + (u + v);
  }
}
