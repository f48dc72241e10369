/**
  BoardSession of src/coordinator/session.ts: the fields its methods and its participants' events update.
  Each method is one stretch between two awaits, proved to take the step of SessionLifecycle it stands
  for; `queue` is the line `serial` chains its work in.
 */
module Session {
  import opened SessionLifecycle

  class BoardSession {
    const required: seq<Id>
    // What participants.get answers, kept by the registry of participants.
    var connected: map<Id, Server>
    var queue: seq<Work>
    var doing: Doing
    var stopped: bool
    var destroyed: bool
    var subscribed: bool
    var capture: bool
    var live: set<Id>
    var built: set<Id>
    var pendingRelease: set<Id>
    var residue: set<Id>
    ghost var asked: multiset<Ask>
    ghost var held: set<Id>
    ghost var unreleased: set<Id>
    // Connections that have not closed, which the registry of participants knows.
    ghost var open: set<nat>
    ghost var past: Past

    ghost function View(): State
      reads this
    {
      State(required, connected, open, queue, doing, stopped, destroyed, subscribed, capture,
            live, built, pendingRelease, residue, asked, held, unreleased, past)
    }

    ghost predicate Valid()
      reads this
    {
      Inv(View())
    }

    // `leftStopped` is what a store remembered of a board that comes back from it.
    constructor (required: seq<Id>, connected: map<Id, Server>, leftStopped: bool, ghost met: map<nat, Id>, ghost open: set<nat>)
      requires open <= met.Keys
      requires forall id :: id in connected ==>
                 connected[id].connection in open && met[connected[id].connection] == id
      ensures Valid() && Initial(View())
      ensures this.required == required && this.connected == connected && stopped == leftStopped
    {
      this.required, this.connected := required, connected;
      queue, doing := [], Idle;
      stopped, destroyed, subscribed, capture := leftStopped, false, false, false;
      live, built, pendingRelease, residue := {}, {}, {}, {};
      asked, held, unreleased := multiset{}, {}, {};
      this.open, past := open, Past(met, multiset{}, 0);
    }

    method Serial(work: Work)
      modifies this`queue
      ensures queue == old(queue) + [work]
    {
      queue := queue + [work];
    }

    method OnJoin(id: Id, server: Server)
      requires Valid() && server.connection !in past.met
      modifies this
      ensures Valid() && View() == Next(old(View()), Joins(id, server))
    {
      StepKeeps(View(), Joins(id, server));
      connected := connected[id := server];
      open, past := open + {server.connection}, past.(met := past.met[server.connection := id]);
      if subscribed {
        Serial(WorkJoin(id, server));
      }
    }

    method OnLeave(id: Id)
      requires Valid() && id in connected
      modifies this
      ensures Valid() && View() == Next(old(View()), Leaves(id))
    {
      StepKeeps(View(), Leaves(id));
      open := open - {connected[id].connection};
      connected := connected - {id};
      if subscribed && id in live {
        live := live - {id};
      }
    }

    method Ask(op: Op, id: Id, next: Doing)
      modifies this`asked, this`doing
      ensures asked == old(asked) + multiset{SessionLifecycle.Ask(op, id)} && doing == next
    {
      asked := asked + multiset{SessionLifecycle.Ask(op, id)};
      doing := next;
    }

    method BringUp(id: Id, server: Server, rest: seq<Id>)
      modifies this
      ensures View() == SessionLifecycle.BringUp(old(View()), id, server, rest)
    {
      if id in built && server.runtimeExists {
        Ask(Describe, id, BringingUp(id, server, PickingUp, rest));
      } else {
        past := past.(provisioned := past.provisioned + multiset{server.connection});
        Ask(Provision, id, BringingUp(id, server, Building, rest));
      }
    }

    // The loop of start, from the runtime it has come to: on to the next somebody is connected for.
    method GoOn(rest: seq<Id>)
      modifies this
      ensures View() == Continue(old(View()), rest)
    {
      var i := 0;
      while i < |rest| && rest[i] !in connected
        invariant i <= |rest| && View() == old(View())
        invariant Continue(View(), rest) == Continue(View(), rest[i..])
      {
        assert rest[i..][1..] == rest[i + 1..];
        i := i + 1;
      }
      if i == |rest| {
        doing := Idle;
      } else {
        assert rest[i..][1..] == rest[i + 1..];
        BringUp(rest[i], connected[rest[i]], rest[i + 1..]);
      }
    }

    method Answer(ok: bool, services: bool)
      requires Valid() && Enabled(View(), Answers(ok, services))
      modifies this
      ensures View() == Next(old(View()), Answers(ok, services))
      ensures Valid()
    {
      StepKeeps(View(), Answers(ok, services));
      BringUpGoesOn(ok, services);
    }

    method BringUpGoesOn(ok: bool, services: bool)
      requires doing.BringingUp?
      modifies this
      ensures View() == Answered(old(View()), ok, services)
    {
      var BringingUp(id, server, stage, rest) := doing;
      match stage
      case PickingUp =>
        if ok { GoLive(id, rest); } else { Fail(id, rest); }
      case Building =>
        if !ok {
          Fail(id, rest);
        } else if services {
          RuntimeBuilt(id, server, rest);
        } else {
          Ask(Describe, id, BringingUp(id, server, Describing, rest));
        }
      case Describing =>
        if ok { RuntimeBuilt(id, server, rest); } else { Fail(id, rest); }
      case Capturing =>
        GoLive(id, rest);
    }

    method RuntimeBuilt(id: Id, server: Server, rest: seq<Id>)
      modifies this
      ensures View() == Built(old(View()), id, server, rest)
    {
      built := built + {id};
      held := held + {id};
      if capture {
        Ask(SetState, id, BringingUp(id, server, Capturing, rest));
      } else {
        GoLive(id, rest);
      }
    }

    method GoLive(id: Id, rest: seq<Id>)
      modifies this
      ensures View() == GoesLive(old(View()), id, rest)
    {
      live := live + {id};
      GoOn(rest);
    }

    method Fail(id: Id, rest: seq<Id>)
      modifies this
      ensures View() == Fails(old(View()), id, rest)
    {
      live := live - {id};
      GoOn(rest);
    }

    method NotConnected() returns (away: set<Id>)
      ensures away == set id | id in built && id !in connected
    {
      var remaining := built;
      away := {};
      while remaining != {}
        invariant remaining <= built
        invariant forall id :: id in away <==> id in built && id !in remaining && id !in connected
      {
        var id :| id in remaining;
        if id !in connected {
          away := away + {id};
        }
        remaining := remaining - {id};
      }
    }

    // teardownRuntimes: everything built is asked at once; one nobody is connected for is left over.
    method TeardownRuntimes(destroying: bool)
      modifies this
      ensures View() == TearsDown(old(View()), destroying)
    {
      var away := NotConnected();
      AskForRelease(away, destroying);
      Settle(built - away, away, destroying);
    }

    method EndFor(destroying: bool)
      modifies this`destroyed, this`subscribed
      ensures destroyed == (old(destroyed) || destroying) && subscribed == (old(subscribed) && !destroying)
    {
      if destroying {
        destroyed, subscribed := true, false;
      }
    }

    method AskForRelease(away: set<Id>, destroying: bool)
      modifies this
      ensures View() == ReleaseAsked(old(View()), away, destroying)
    {
      ghost var before := View();
      EndFor(destroying);
      Owe(away);
      asked := asked + Asks(built - away);
      assert View() == before.(destroyed := destroyed, subscribed := subscribed, pendingRelease := pendingRelease,
                               unreleased := unreleased, asked := asked);
    }

    method Owe(away: set<Id>)
      modifies this`pendingRelease, this`unreleased
      ensures pendingRelease == old(pendingRelease) + away && unreleased == old(unreleased) + away
    {
      pendingRelease := pendingRelease + away;
      unreleased := unreleased + away;
    }

    method Settle(waitingFor: set<Id>, leftOver: set<Id>, destroying: bool)
      modifies this
      ensures View() == Torn(old(View()), waitingFor, leftOver, destroying)
    {
      if waitingFor != {} {
        doing := TearingDown(waitingFor, leftOver, destroying);
        return;
      }
      doing := Idle;
      if !destroying {
        live, built := {}, {};
        residue := leftOver;
        stopped := true;
      }
    }

    method ReleaseAnswered(id: Id, ok: bool)
      requires Valid() && doing.TearingDown? && id in doing.asked
      modifies this
      ensures Valid() && View() == Next(old(View()), Releases(id, ok))
    {
      StepKeeps(View(), Releases(id, ok));
      LetGo(id, ok);
    }

    method LetGo(id: Id, ok: bool)
      requires doing.TearingDown?
      modifies this
      ensures View() == Released(old(View()), id, ok)
    {
      var TearingDown(waitingFor, leftOver, destroying) := doing;
      if ok {
        pendingRelease := pendingRelease - {id};
      } else {
        pendingRelease := pendingRelease + {id};
        unreleased := unreleased + {id};
        leftOver := leftOver + {id};
      }
      Settle(waitingFor - {id}, leftOver, destroying);
    }

    // The next piece of work begins, the one before it having finished.
    method TakeNext()
      requires Valid() && queue != [] && doing.Idle?
      modifies this
      ensures View() == Next(old(View()), Takes)
      ensures Valid()
    {
      StepKeeps(View(), Takes);
      Work();
    }

    method Work()
      requires queue != [] && doing.Idle?
      modifies this
      ensures View() == Take(old(View()))
    {
      var work := queue[0];
      queue := queue[1..];
      match work
      case WorkStart =>
        Begin();
        GoOn(required);
      case WorkStop => TeardownRuntimes(false);
      case WorkDestroy => TeardownRuntimes(true);
      case WorkJoin(id, server) => Welcome(id, server);
    }

    method Begin()
      modifies this
      ensures View() == Begun(old(View()))
    {
      Recount();
      stopped := false;
      residue, pendingRelease := {}, {};
      subscribed := true;
    }

    ghost method Recount()
      modifies this`held, this`unreleased, this`past
      ensures held == built && unreleased == {} && past == old(past).(begun := old(past).begun + 1)
    {
      held, unreleased := built, {};
      past := past.(begun := past.begun + 1);
    }

    // A server that joined is met when the work before it is done, by the session as it then is.
    method Welcome(id: Id, server: Server)
      requires doing.Idle?
      modifies this
      ensures View() == Joined(old(View()), id, server)
    {
      if destroyed {
        return;
      }
      if id !in required {
        if server.runtimeExists {
          Ask(Remove, id, Removing(id, false));
        }
        return;
      }
      if stopped {
        if server.runtimeExists && id in pendingRelease {
          Ask(Remove, id, Removing(id, true));
        }
        return;
      }
      BringUp(id, server, []);
    }

    method RemoveAnswered(ok: bool)
      requires Valid() && doing.Removing?
      modifies this
      ensures Valid() && View() == Next(old(View()), Removes(ok))
    {
      StepKeeps(View(), Removes(ok));
      var Removing(id, ours) := doing;
      if ok && ours {
        pendingRelease := pendingRelease - {id};
        residue := residue - {id};
      }
      doing := Idle;
    }
  }
}
