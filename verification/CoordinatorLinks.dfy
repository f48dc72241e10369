/**
  The classes of src/coordinatorLinks.ts: one Link per runtime of a board, updated by its socket's events
  and its timer, and the map of them kept by CoordinatorLinks. Each method of Link is proved to take the
  step of LinkProtocol it stands for.
 */
module Links {
  import opened LinkProtocol

  datatype Key = Key(owner: string, boardName: string, runtimeId: string)

  // `joinUrl` is what the coordinator's address comes to; none for one that is not a coordinator's.
  datatype Record = Record(key: Key, joinUrl: Option<string>, ticket: string)

  class Link {
    const record: Record
    const options: Options
    var secrets: string
    var started: bool
    var socket: Option<SocketId>
    var welcomed: bool
    var disposed: bool
    var attempts: nat
    var timer: Option<nat>
    var first: Option<bool>
    var made: nat
    var alive: set<SocketId>
    var refused: set<SocketId>
    ghost var delays: seq<nat>

    ghost function View(): State
      reads this
    {
      State(started, socket, welcomed, disposed, attempts, timer, first, made, alive, refused, delays)
    }

    ghost predicate Valid()
      reads this
    {
      Inv(View(), options)
    }

    constructor (record: Record, options: Options, secrets: string)
      ensures Valid() && View() == NEW
      ensures this.record == record && this.options == options && this.secrets == secrets
    {
      this.record, this.options, this.secrets := record, options, secrets;
      started, socket, welcomed, disposed, attempts, timer := false, None, false, false, 0, None;
      first, made, alive, refused, delays := None, 0, {}, {}, [];
    }

    // Its socket is open, and the coordinator took it; `open` is what the platform says of the socket it has,
    // which may be closing.
    predicate Connected(open: bool)
      reads this
    {
      welcomed && socket.Some? && open
    }

    // How it stands once it was told to connect: on a socket and nothing reported, or, where none could be made, waiting
    // for the shortest time there is and its first attempt reported as failed.
    ghost predicate Attempting(ok: bool)
      reads this
    {
      && started && !disposed && !welcomed
      && if ok then socket.Some? && timer.None? && first.None?
         else
           && socket.None? && first == Some(false)
           && timer == Some(if options.reconnectDelayMs < options.maxReconnectDelayMs then options.reconnectDelayMs
                            else options.maxReconnectDelayMs)
    }

    ghost predicate RestoredFrom(from: Record, ok: bool)
      reads this
    {
      record == from && secrets == "" && Attempting(ok)
    }

    method SettleFirst(ok: bool)
      modifies this`first
      ensures first == if old(first).None? then Some(ok) else old(first)
    {
      if first.None? {
        first := Some(ok);
      }
    }

    method Connect(ok: bool)
      requires Valid() && !started
      modifies this
      ensures Valid() && View() == Next(old(View()), options, Connects(ok)) && secrets == old(secrets)
    {
      StepKeeps(View(), options, Connects(ok));
      started := true;
      Open(ok);
    }

    method OnTimer(ok: bool)
      requires Valid() && timer.Some?
      modifies this
      ensures Valid() && View() == Next(old(View()), options, TimerFires(ok)) && secrets == old(secrets)
    {
      StepKeeps(View(), options, TimerFires(ok));
      timer := None;
      Open(ok);
    }

    method Open(ok: bool)
      modifies this
      ensures View() == LinkProtocol.Open(old(View()), options, ok) && secrets == old(secrets)
    {
      if disposed {
        return;
      }
      if !ok {
        SettleFirst(false);
        Retry();
        return;
      }
      socket := Some(made);
      alive := alive + {made};
      made := made + 1;
      welcomed := false;
    }

    method Retry()
      modifies this
      ensures View() == LinkProtocol.Retry(old(View()), options) && secrets == old(secrets)
    {
      if disposed || timer.Some? {
        return;
      }
      var delay := Delay(options, attempts);
      attempts := attempts + 1;
      timer := Some(delay);
      delays := delays + [delay];
    }

    method Dispose()
      requires Valid()
      modifies this
      ensures Valid() && View() == Next(old(View()), options, Disposes) && disposed && secrets == old(secrets)
    {
      StepKeeps(View(), options, Disposes);
      disposed := true;
      timer := None;
      socket := None;
      welcomed := false;
    }

    method End()
      requires Valid()
      modifies this
      ensures Valid() && disposed
    {
      Dispose();
    }

    // True when the link has just ended: whoever made it is told.
    method Reject() returns (ended: bool)
      modifies this
      ensures View() == LinkProtocol.Dispose(old(View())) && ended == !old(disposed) && secrets == old(secrets)
      requires disposed ==> View() == LinkProtocol.Dispose(View())
    {
      if disposed {
        return false;
      }
      disposed := true;
      timer := None;
      socket := None;
      welcomed := false;
      return true;
    }

    method OnWelcome(id: SocketId)
      requires Valid() && id in alive
      modifies this
      ensures Valid() && View() == Next(old(View()), options, Welcomed(id)) && secrets == old(secrets)
    {
      StepKeeps(View(), options, Welcomed(id));
      if socket != Some(id) {
        return;
      }
      welcomed := true;
      attempts := 0;
      delays := [];
      SettleFirst(true);
    }

    method OnUnexpectedResponse(id: SocketId, status: nat) returns (ended: bool)
      requires Valid() && id in alive
      modifies this
      ensures Valid() && View() == Next(old(View()), options, AnsweredHttp(id, status)) && secrets == old(secrets)
      ensures ended <==> Refusal(status) && !old(disposed)
      ensures ended ==> disposed
    {
      StepKeeps(View(), options, AnsweredHttp(id, status));
      ended := false;
      if status == 401 || status == 403 {
        refused := refused + {id};
        SettleFirst(false);
        ended := Reject();
        return;
      }
      SettleFirst(false);
    }

    method OnError(id: SocketId)
      requires Valid() && id in alive
      modifies this
      ensures Valid() && View() == Next(old(View()), options, Errs(id)) && secrets == old(secrets)
    {
      StepKeeps(View(), options, Errs(id));
      SettleFirst(false);
    }

    method OnClose(id: SocketId, code: nat) returns (ended: bool)
      requires Valid() && id in alive
      modifies this
      ensures Valid() && View() == Next(old(View()), options, Closes(id, code)) && secrets == old(secrets)
      ensures ended <==> Final(code) && !old(disposed)
      ensures ended ==> disposed
    {
      StepKeeps(View(), options, Closes(id, code));
      alive := alive - {id};
      ended := false;
      if socket != Some(id) || id in refused {
        return;
      }
      socket := None;
      welcomed := false;
      SettleFirst(false);
      if code == CLOSE_TICKET_REVOKED || code == CLOSE_REPLACED {
        ended := Reject();
        return;
      }
      Retry();
    }
  }

  datatype Introduction = Malformed | Elsewhere(joinUrl: Option<string>) | Kept | Awaiting(link: Link)

  class CoordinatorLinks {
    const options: Options
    var links: map<Key, Link>
    // Every link that was made: those replaced or ended may still hear from their sockets.
    ghost var all: set<Link>
    // What the store was last given, and the runtimes the host was told to remove.
    var stored: set<Record>
    ghost var removed: seq<Key>

    // One link per runtime, under that runtime's key, each told to connect and none that is over.
    ghost predicate Valid()
      reads this, all
    {
      && (forall k :: k in links ==> links[k] in all && links[k].record.key == k && links[k].started && !links[k].disposed)
      && (forall l :: l in all ==> l.Valid() && l.options == options)
    }

    constructor (options: Options)
      ensures Valid() && links == map[] && fresh(all) && this.options == options
    {
      this.options := options;
      links, all, stored, removed := map[], {}, {}, [];
    }

    method Persist()
      modifies this`stored
      ensures stored == set k | k in links :: links[k].record
    {
      stored := set k | k in links :: links[k].record;
    }

    // The first stretch of introduce: until it awaits how the first attempt went.
    method Introduce(record: Record, secrets: string, ok: bool, open: bool) returns (outcome: Introduction)
      requires Valid() && (ok ==> record.joinUrl.Some?)
      modifies this, all
      ensures Valid() && fresh(all - old(all)) && old(all) <= all
      ensures stored == old(stored) && removed == old(removed)
      ensures record.joinUrl.None? <==> outcome.Malformed?
      ensures outcome.Malformed? || outcome.Elsewhere? ==>
                links == old(links) && forall l :: l in old(all) ==> l.View() == old(l.View())
      ensures !outcome.Malformed? && record.key in old(links) && old(links[record.key].Connected(open)) ==>
                links == old(links) && (outcome.Kept? <==> links[record.key].record.joinUrl == record.joinUrl)
      ensures outcome.Kept? ==>
                && record.key in links && links == old(links) && links[record.key].secrets == secrets
                && links[record.key].Connected(open) && forall l :: l in old(all) ==> l.View() == old(l.View())
      ensures outcome.Awaiting? ==>
                && fresh(outcome.link) && outcome.link.Attempting(ok) && outcome.link.secrets == secrets
                && links == old(links)[record.key := outcome.link] && outcome.link.record == record
                && (record.key in old(links) ==> old(links)[record.key].disposed && !old(links[record.key].Connected(open)))
    {
      if record.joinUrl.None? {
        return Malformed;
      }
      if record.key in links {
        var existing := links[record.key];
        if existing.Connected(open) {
          outcome := Stay(existing, record, secrets);
          return;
        }
        existing.Dispose();
      }
      var link := Add(record, secrets, ok);
      return Awaiting(link);
    }

    // A link that is connected takes the secrets, or is somewhere else.
    method Stay(existing: Link, record: Record, secrets: string) returns (outcome: Introduction)
      requires Valid() && existing in all
      modifies existing`secrets
      ensures Valid()
      ensures outcome == if existing.record.joinUrl != record.joinUrl then Elsewhere(existing.record.joinUrl) else Kept
      ensures existing.secrets == if outcome.Kept? then secrets else old(existing.secrets)
    {
      if existing.record.joinUrl != record.joinUrl {
        return Elsewhere(existing.record.joinUrl);
      }
      existing.secrets := secrets;
      return Kept;
    }

    // createLink and connect: a link in the place of whatever was there, which is over by now.
    method Add(record: Record, secrets: string, ok: bool) returns (link: Link)
      requires forall l :: l in all ==> l.Valid() && l.options == options
      requires forall k :: k in links && k != record.key ==>
                 links[k] in all && links[k].record.key == k && links[k].started && !links[k].disposed
      modifies this`all, this`links
      ensures Valid() && fresh(link) && all == old(all) + {link} && links == old(links)[record.key := link]
      ensures link.record == record && link.secrets == secrets && link.Attempting(ok)
    {
      link := new Link(record, options, secrets);
      link.Connect(ok);
      all := all + {link};
      links := links[record.key := link];
    }

    // Welcomed, refused, or not answered in time: the one attempt that is not retried. By then another
    // introduction may have put another link in its place, which is left alone.
    method Introduced(link: Link, welcomed: bool)
      requires Valid() && link in all
      modifies this, link
      ensures Valid() && all == old(all) && removed == old(removed)
      ensures links == if !welcomed && old(link.record.key in links && links[link.record.key] == link)
                       then old(links) - {link.record.key} else old(links)
      ensures !welcomed ==> link.disposed
      ensures stored == set k | k in links :: links[k].record
    {
      if !welcomed {
        link.Dispose();
        if link.record.key in links && links[link.record.key] == link {
          links := links - {link.record.key};
        }
      }
      Persist();
    }

    // A link whose ticket was refused goes with its runtime, unless another is in its place by now.
    method Rejected(link: Link)
      requires link in all && link.disposed
      requires forall l :: l in all ==> l.Valid() && l.options == options
      requires forall k :: k in links ==> links[k] in all && links[k].record.key == k && links[k].started && (links[k] != link ==> !links[k].disposed)
      modifies this
      ensures Valid() && all == old(all)
      ensures var mine := old(link.record.key in links && links[link.record.key] == link);
              && links == (if mine then old(links) - {link.record.key} else old(links))
              && removed == (if mine then old(removed) + [link.record.key] else old(removed))
              && stored == (if mine then set k | k in links :: links[k].record else old(stored))
    {
      var key := link.record.key;
      if !(key in links && links[key] == link) {
        return;
      }
      Forget(key);
    }

    // Gone from the map and from what is stored, and the host is told to remove the runtime.
    method Forget(key: Key)
      modifies this`links, this`removed, this`stored
      ensures links == old(links) - {key} && removed == old(removed) + [key]
      ensures stored == set k | k in links :: links[k].record
    {
      links := links - {key};
      removed := removed + [key];
      Persist();
    }

    method OnClose(link: Link, id: SocketId, code: nat)
      requires Valid() && link in all && id in link.alive
      modifies this, link
      ensures Valid() && all == old(all)
      ensures link.View() == Next(old(link.View()), options, Closes(id, code))
      ensures var mine := old(link.record.key in links && links[link.record.key] == link) && Final(code);
              && links == (if mine then old(links) - {link.record.key} else old(links))
              && removed == (if mine then old(removed) + [link.record.key] else old(removed))
    {
      var ended := link.OnClose(id, code);
      if ended {
        Rejected(link);
      }
    }

    method OnUnexpectedResponse(link: Link, id: SocketId, status: nat)
      requires Valid() && link in all && id in link.alive
      modifies this, link
      ensures Valid() && all == old(all)
      ensures link.View() == Next(old(link.View()), options, AnsweredHttp(id, status))
      ensures var mine := old(link.record.key in links && links[link.record.key] == link) && Refusal(status);
              && links == (if mine then old(links) - {link.record.key} else old(links))
              && removed == (if mine then old(removed) + [link.record.key] else old(removed))
    {
      var ended := link.OnUnexpectedResponse(id, status);
      if ended {
        Rejected(link);
      }
    }

    // Reconnects with what was kept; `made` is, record by record, whether a socket could be made. A link that is
    // there stays; each other runtime has one for the first record of it, without secrets and told to connect.
    method Restore(records: seq<Record>, made: seq<bool>)
      requires Valid() && |made| == |records|
      requires forall i :: 0 <= i < |records| && made[i] ==> records[i].joinUrl.Some?
      modifies this`all, this`links
      ensures Valid() && fresh(all - old(all)) && old(all) <= all
      ensures forall k :: k in old(links) ==> k in links && links[k] == old(links)[k]
      ensures links.Keys == old(links).Keys + set r | r in records :: r.key
      ensures forall k :: k in links && k !in old(links) ==>
                && fresh(links[k])
                && var i := FirstFor(records, k); i < |records| && links[k].RestoredFrom(records[i], made[i])
    {
      ghost var there := links;
      for i := 0 to |records|
        invariant Valid() && fresh(all - old(all)) && old(all) <= all
        invariant forall k :: k in there ==> k in links && links[k] == there[k]
        invariant links.Keys == there.Keys + set r | r in records[..i] :: r.key
        invariant forall k :: k in links && k !in there ==> Restored(k, records, made, i)
        invariant forall k :: k in links && k !in there ==> links[k] in all - old(all)
      {
        RestoreNext(records, made, i);
      }
      assert records[..|records|] == records;
    }

    // The link there is for a runtime was made for its first record, one of the first so many.
    ghost predicate Restored(k: Key, records: seq<Record>, made: seq<bool>, n: nat)
      requires |made| == |records| && n <= |records|
      reads this, if k in links then {links[k]} else {}
    {
      k in links && FirstFor(records, k) < n && links[k].RestoredFrom(records[FirstFor(records, k)], made[FirstFor(records, k)])
    }

    method RestoreNext(records: seq<Record>, made: seq<bool>, i: nat)
      requires Valid() && i < |records| == |made| && (made[i] ==> records[i].joinUrl.Some?)
      requires (set r | r in records[..i] :: r.key) <= links.Keys
      modifies this`all, this`links
      ensures Valid() && fresh(all - old(all)) && old(all) <= all
      ensures forall k :: k in old(links) ==> k in links && links[k] == old(links)[k]
      ensures links.Keys == old(links).Keys + {records[i].key}
      ensures (set r | r in records[..i + 1] :: r.key) == (set r | r in records[..i] :: r.key) + {records[i].key}
      ensures forall k :: k in links && k !in old(links) ==> Restored(k, records, made, i + 1) && links[k] in all - old(all)
    {
      OneKeyMore(records, i);
      NewAt(records, i);
      RestoreOne(records[i], made[i]);
    }

    method RestoreOne(record: Record, made: bool)
      requires Valid() && (made ==> record.joinUrl.Some?)
      modifies this`all, this`links
      ensures Valid() && fresh(all - old(all)) && old(all) <= all
      ensures forall k :: k in old(links) ==> k in links && links[k] == old(links)[k]
      ensures links.Keys == old(links).Keys + {record.key}
      ensures record.key !in old(links) ==>
                var link := links[record.key];
                fresh(link) && link.RestoredFrom(record, made)
    {
      if record.key !in links {
        var link := Add(record, "", made);
      }
    }

    // A known runtime's link ends and goes from the map and from what is stored, and the runtime with it; an
    // unknown one changes nothing.
    method Remove(key: Key) returns (known: bool)
      requires Valid()
      modifies this, all
      ensures Valid() && all == old(all)
      ensures known <==> key in old(links)
      ensures links == old(links) - {key}
      ensures known ==> old(links)[key].disposed && removed == old(removed) + [key]
      ensures known ==> stored == set k | k in links :: links[k].record
      ensures !known ==> stored == old(stored) && removed == old(removed)
    {
      if key !in links {
        assert links - {key} == links;
        return false;
      }
      links[key].End();
      Forget(key);
      return true;
    }

    // Every link ends, and what is stored of them is what it was.
    method Stop()
      requires Valid()
      modifies this, all
      ensures Valid() && all == old(all) && links == map[]
      ensures stored == old(stored) && removed == old(removed)
      ensures forall k :: k in old(links) ==> old(links)[k].disposed
    {
      EndAll();
      links := map[];
    }

    method EndOne(key: Key)
      requires key in links && links[key] in all && forall l :: l in all ==> l.Valid()
      modifies links[key]
      ensures links[key].disposed && forall l :: l in all ==> l.Valid()
    {
      links[key].End();
    }

    method EndAll()
      requires (forall k :: k in links ==> links[k] in all) && forall l :: l in all ==> l.Valid()
      modifies all
      ensures forall l :: l in all ==> l.Valid()
      ensures forall k :: k in links ==> links[k].disposed
    {
      var remaining := links.Keys;
      while remaining != {}
        invariant remaining <= links.Keys
        invariant forall l :: l in all ==> l.Valid()
        invariant forall k :: k in links && k !in remaining ==> links[k].disposed
      {
        var key :| key in remaining;
        EndOne(key);
        remaining := remaining - {key};
      }
    }
  }

  // The first record of a runtime.
  function FirstFor(records: seq<Record>, k: Key): (i: nat)
    ensures i <= |records| && (i < |records| ==> records[i].key == k)
    ensures forall j :: 0 <= j < i ==> records[j].key != k
  {
    if records == [] || records[0].key == k then 0 else 1 + FirstFor(records[1..], k)
  }

  lemma NewAt(records: seq<Record>, i: nat)
    requires i < |records|
    ensures records[i].key !in (set r | r in records[..i] :: r.key) ==> FirstFor(records, records[i].key) == i
  {
    if records[i].key !in (set r | r in records[..i] :: r.key) {
      forall j | 0 <= j < i ensures records[j].key != records[i].key {
        assert records[..i][j] in records[..i];
      }
    }
  }

  // Whatever link is in the map is on a socket or about to try again, and not both.
  lemma GoesOnConnecting(links: CoordinatorLinks, k: Key)
    requires links.Valid() && k in links.links
    ensures var link := links.links[k];
            link.record.key == k && link.started && !link.disposed && (link.socket.Some? <==> link.timer.None?)
  {
    assert links.links[k].Valid();
  }

  lemma OneKeyMore(records: seq<Record>, i: nat)
    requires i < |records|
    ensures (set r | r in records[..i + 1] :: r.key) == (set r | r in records[..i] :: r.key) + {records[i].key}
  {
    assert records[..i + 1] == records[..i] + [records[i]];
  }
}
