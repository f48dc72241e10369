/**
  BoardCoordinator of src/coordinator/coordinator.ts: maps by board, changed step by step around awaits.
  Each method is one stretch between two awaits, and is proved to take the one step of BoardPersistence
  it stands for on its own board and to leave every other board as it was.
 */
module Coordinator {
  import opened BoardPersistence

  type Board = string

  class BoardCoordinator {
    // The registered session of each board, and every session ever made for one.
    var sessions: map<Board, SessionId>
    var made: map<Board, seq<Session>>
    var members: map<Board, seq<Member>>
    var tickets: map<Board, Tickets>
    // What is being asked of the store, and the head of each line once it began.
    var storeWork: map<Board, seq<Work>>
    var running: map<Board, Running>
    var calls: map<Board, map<CallId, Call>>
    // The store itself, and the boards whose last answer from it was a failure.
    var store: map<Board, Image>
    ghost var lost: set<Board>

    const maxMembersPerBoard: nat

    ghost function View(b: Board): State
      reads this
    {
      State(Held(made, b, []), Look(sessions, b), Held(tickets, b, {}), Held(members, b, []),
            Held(storeWork, b, []), Look(running, b), Look(store, b), b in lost, Held(calls, b, map[]))
    }

    ghost predicate Valid()
      reads this
    {
      forall b: Board :: Inv(View(b))
    }

    constructor (limit: nat)
      ensures Valid() && maxMembersPerBoard == limit
      ensures forall b: Board :: Initial(View(b))
    {
      sessions, made, members, tickets := map[], map[], map[], map[];
      storeWork, running, calls, store := map[], map[], map[], map[];
      lost := {};
      maxMembersPerBoard := limit;
      new;
      forall b: Board ensures Initial(View(b)) && Inv(View(b)) { InitialOk(View(b)); }
    }

    // The board's line grows by one piece of work, at its end.
    method InStoreOrder(b: Board, work: Work)
      modifies this`storeWork
      ensures storeWork == old(storeWork)[b := Held(old(storeWork), b, []) + [work]]
    {
      storeWork := storeWork[b := Held(storeWork, b, []) + [work]];
    }

    method Registering(b: Board, call: CallId, config: Config)
      requires Valid() && Enabled(View(b), RegisterBegins(call, config))
      modifies this
      ensures Took(old(View(b)), RegisterBegins(call, config), View(b))
      ensures forall k :: k != b ==> View(k) == old(View(k))
      ensures Valid()
    {
      StepKeepsAll(View(b), RegisterBegins(call, config));
      calls := WithCall(calls, b, call, Destroying(config));
    }

    // Once the old session is gone: the tickets are what the registry makes of them, and a new session begins.
    method SettlesTickets(b: Board, call: CallId, counting: Tickets, at: nat)
      requires Valid() && Enabled(View(b), RegisterSettlesTickets(call, counting, at))
      modifies this
      ensures Took(old(View(b)), RegisterSettlesTickets(call, counting, at), View(b))
      ensures forall k :: k != b ==> View(k) == old(View(k))
      ensures Valid()
    {
      StepKeepsAll(View(b), RegisterSettlesTickets(call, counting, at));
      var config := calls[b][call].config;
      var id := |Held(made, b, [])|;
      tickets := tickets[b := counting];
      made := made[b := Held(made, b, []) + [Session(config, false, at)]];
      calls := WithCall(calls, b, call, Starting(id));
    }

    method Publishes(b: Board, call: CallId)
      requires Valid() && Enabled(View(b), RegisterPublishes(call))
      modifies this
      ensures Took(old(View(b)), RegisterPublishes(call), View(b))
      ensures forall k :: k != b ==> View(k) == old(View(k))
      ensures Valid()
    {
      StepKeepsAll(View(b), RegisterPublishes(call));
      PutInPlace(b, call);
    }

    method PutInPlace(b: Board, call: CallId)
      requires Enabled(View(b), RegisterPublishes(call))
      modifies this
      ensures Took(old(View(b)), RegisterPublishes(call), View(b))
      ensures forall k :: k != b ==> View(k) == old(View(k))
    {
      sessions := sessions[b := calls[b][call].made];
      calls := calls[b := calls[b] - {call}];
      InStoreOrder(b, Write);
    }

    method StopBoard(b: Board, call: CallId) returns (known: bool)
      requires Valid() && call !in Held(calls, b, map[])
      modifies this
      ensures (known <==> b in old(sessions))
      ensures if known then Took(old(View(b)), StopBegins(call), View(b)) else View(b) == old(View(b))
      ensures forall k :: k != b ==> View(k) == old(View(k))
      ensures Valid()
    {
      if b !in sessions {
        return false;
      }
      StepKeepsAll(View(b), StopBegins(call));
      calls := WithCall(calls, b, call, Stopping(sessions[b]));
      return true;
    }

    // The session it held has stopped; a deploy may have replaced that session since.
    method SessionStopped(b: Board, call: CallId)
      requires Valid() && Enabled(View(b), StopEnds(call))
      modifies this
      ensures Took(old(View(b)), StopEnds(call), View(b))
      ensures forall k :: k != b ==> View(k) == old(View(k))
      ensures Valid()
    {
      StepKeepsAll(View(b), StopEnds(call));
      var id := calls[b][call].session;
      made := made[b := made[b][id := made[b][id].(stopped := true)]];
      calls := WithCall(calls, b, call, Stopped);
    }

    method StopPersist(b: Board, call: CallId)
      requires Valid() && Enabled(View(b), StopPersists(call))
      modifies this
      ensures Took(old(View(b)), StopPersists(call), View(b))
      ensures forall k :: k != b ==> View(k) == old(View(k))
      ensures Valid()
    {
      StepKeepsAll(View(b), StopPersists(call));
      calls := calls[b := calls[b] - {call}];
      InStoreOrder(b, Write);
    }

    method SetBoardLogging(b: Board, call: CallId, config: Config) returns (known: bool)
      requires Valid() && call !in Held(calls, b, map[])
      modifies this
      ensures (known <==> b in old(sessions))
      ensures if known then Took(old(View(b)), LoggingBegins(call, config), View(b)) else View(b) == old(View(b))
      ensures forall k :: k != b ==> View(k) == old(View(k))
      ensures Valid()
    {
      if b !in sessions {
        return false;
      }
      StepKeepsAll(View(b), LoggingBegins(call, config));
      ChangeConfig(b, call, config);
      return true;
    }

    method ChangeConfig(b: Board, call: CallId, config: Config)
      requires Enabled(View(b), LoggingBegins(call, config))
      modifies this
      ensures Took(old(View(b)), LoggingBegins(call, config), View(b))
      ensures forall k :: k != b ==> View(k) == old(View(k))
    {
      assert Sound(View(b));
      var id := sessions[b];
      made := made[b := made[b][id := made[b][id].(config := config)]];
      calls := WithCall(calls, b, call, Logging);
    }

    method LoggingPersist(b: Board, call: CallId)
      requires Valid() && Enabled(View(b), LoggingPersists(call))
      modifies this
      ensures Took(old(View(b)), LoggingPersists(call), View(b))
      ensures forall k :: k != b ==> View(k) == old(View(k))
      ensures Valid()
    {
      StepKeepsAll(View(b), LoggingPersists(call));
      calls := calls[b := calls[b] - {call}];
      InStoreOrder(b, Write);
    }

    method RemoveBoard(b: Board, call: CallId) returns (known: bool)
      requires Valid() && call !in Held(calls, b, map[])
      modifies this
      ensures (known <==> b in old(sessions))
      ensures if known then Took(old(View(b)), RemoveBegins(call), View(b)) else View(b) == old(View(b))
      ensures forall k :: k != b ==> View(k) == old(View(k))
      ensures Valid()
    {
      if b !in sessions {
        return false;
      }
      StepKeepsAll(View(b), RemoveBegins(call));
      calls := WithCall(calls, b, call, Deleting);
      return true;
    }

    method SessionDestroyed(b: Board, call: CallId)
      requires Valid() && Enabled(View(b), RemoveEnds(call))
      modifies this
      ensures Took(old(View(b)), RemoveEnds(call), View(b))
      ensures forall k :: k != b ==> View(k) == old(View(k))
      ensures Valid()
    {
      StepKeepsAll(View(b), RemoveEnds(call));
      TakeAway(b, call);
    }

    method TakeAway(b: Board, call: CallId)
      requires Enabled(View(b), RemoveEnds(call))
      modifies this
      ensures Took(old(View(b)), RemoveEnds(call), View(b))
      ensures forall k :: k != b ==> View(k) == old(View(k))
    {
      ForgetBoard(b);
      calls := calls[b := calls[b] - {call}];
      InStoreOrder(b, Remove);
    }

    method ForgetBoard(b: Board)
      modifies this`sessions, this`tickets, this`members
      ensures sessions == old(sessions) - {b} && tickets == old(tickets) - {b} && members == old(members) - {b}
    {
      sessions := sessions - {b};
      tickets := tickets - {b};
      members := members - {b};
    }

    // None for a board that is not held; refused, and nothing changed, when the list is full.
    method SetMember(b: Board, member: Member) returns (listed: Option<Shared>)
      requires Valid()
      modifies this
      ensures (listed.Some? <==> b in old(sessions))
      ensures listed.Some? ==> listed.value == Share(old(View(b)).members, member, maxMembersPerBoard)
      ensures if listed.Some? && listed.value.Listed?
              then Took(old(View(b)), Shares(member, maxMembersPerBoard), View(b)) else View(b) == old(View(b))
      ensures forall k :: k != b ==> View(k) == old(View(k))
      ensures Valid()
    {
      if b !in sessions {
        return None;
      }
      var shared := Share(Held(members, b, []), member, maxMembersPerBoard);
      if shared.OverLimit? {
        return Some(shared);
      }
      StepKeepsAll(View(b), Shares(member, maxMembersPerBoard));
      members := members[b := shared.members];
      InStoreOrder(b, Write);
      return Some(shared);
    }

    method RemoveMember(b: Board, email: string) returns (known: bool)
      requires Valid()
      modifies this
      ensures (known <==> b in old(sessions))
      ensures if known then Took(old(View(b)), Unshares(email), View(b)) else View(b) == old(View(b))
      ensures forall k :: k != b ==> View(k) == old(View(k))
      ensures Valid()
    {
      if b !in sessions {
        return false;
      }
      StepKeepsAll(View(b), Unshares(email));
      Unlist(b, email);
      return true;
    }

    method Unlist(b: Board, email: string)
      requires Enabled(View(b), Unshares(email))
      modifies this
      ensures Took(old(View(b)), Unshares(email), View(b))
      ensures forall k :: k != b ==> View(k) == old(View(k))
    {
      members := members[b := Without(Held(members, b, []), email)];
      InStoreOrder(b, Write);
    }

    // issueTickets, and onTicketsChanged.
    method TicketsChanged(b: Board, counting: Tickets)
      requires Valid()
      modifies this
      ensures Took(old(View(b)), TicketsChange(counting), View(b))
      ensures forall k :: k != b ==> View(k) == old(View(k))
      ensures Valid()
    {
      StepKeepsAll(View(b), TicketsChange(counting));
      tickets := tickets[b := counting];
      if b in sessions {
        InStoreOrder(b, Write);
      }
    }

    // The head of a board's line begins: a write takes the board as it is now.
    method StoreWorkBegins(b: Board)
      requires Valid() && Enabled(View(b), StoreBegins)
      modifies this
      ensures Took(old(View(b)), StoreBegins, View(b))
      ensures forall k :: k != b ==> View(k) == old(View(k))
      ensures Valid()
    {
      StepKeepsAll(View(b), StoreBegins);
      if storeWork[b][0] == Remove {
        running := running[b := Removing(false)];
      } else if b in sessions {
        assert Sound(View(b));
        var session := made[b][sessions[b]];
        running := running[b := Saving(Image(session.config, session.stopped, session.createdAt,
                                             Held(tickets, b, {}), Held(members, b, [])), false)];
      } else {
        running := running[b := Skipping];
      }
    }

    method StoreWorkLands(b: Board)
      requires Valid() && Enabled(View(b), StoreLands)
      modifies this
      ensures Took(old(View(b)), StoreLands, View(b))
      ensures forall k :: k != b ==> View(k) == old(View(k))
      ensures Valid()
    {
      StepKeepsAll(View(b), StoreLands);
      Land(b);
    }

    method Land(b: Board)
      requires Enabled(View(b), StoreLands)
      modifies this
      ensures Took(old(View(b)), StoreLands, View(b))
      ensures forall k :: k != b ==> View(k) == old(View(k))
    {
      lost := lost - {b};
      match running[b]
      case Saving(image, _) =>
        store := store[b := image];
        running := running[b := Saving(image, true)];
      case Removing(_) =>
        store := store - {b};
        running := running[b := Removing(true)];
    }

    method StoreWorkAnswers(b: Board, ok: bool)
      requires Valid() && Enabled(View(b), StoreAnswers(ok))
      modifies this
      ensures Took(old(View(b)), StoreAnswers(ok), View(b))
      ensures forall k :: k != b ==> View(k) == old(View(k))
      ensures Valid()
    {
      StepKeepsAll(View(b), StoreAnswers(ok));
      TakeOffLine(b, ok);
    }

    method TakeOffLine(b: Board, ok: bool)
      requires Enabled(View(b), StoreAnswers(ok))
      modifies this
      ensures Took(old(View(b)), StoreAnswers(ok), View(b))
      ensures forall k :: k != b ==> View(k) == old(View(k))
    {
      running := running - {b};
      storeWork := storeWork[b := storeWork[b][1..]];
      if !ok {
        lost := lost + {b};
      }
    }
  }

  // ---------------------------------------------------------------- helpers

  function Held<V>(m: map<Board, V>, b: Board, otherwise: V): V {
    if b in m then m[b] else otherwise
  }

  function WithCall(calls: map<Board, map<CallId, Call>>, b: Board, id: CallId, call: Call): map<Board, map<CallId, Call>> {
    var those: map<CallId, Call> := Held(calls, b, map[]);
    calls[b := those[id := call]]
  }

  function Look<V>(m: map<Board, V>, b: Board): Option<V> {
    if b in m then Some(m[b]) else None
  }

  ghost predicate Took(before: State, step: Step, after: State) {
    Enabled(before, step) && after == Next(before, step)
  }

  lemma StepKeepsAll(s: State, step: Step)
    requires Inv(s) && Enabled(s, step)
    ensures Inv(Next(s, step))
  {
    if step.StoreBegins? || step.StoreLands? || step.StoreAnswers? {
      StoreStepKeeps(s, step);
    } else {
      CallStepKeeps(s, step);
    }
  }
}
