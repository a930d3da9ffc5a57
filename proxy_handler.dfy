/** The raw TCP relays: one listener per fleet entry, bound on the entry's local port and
    forwarding to the entry's upstream address, plus the process-wide registry of running
    relays keyed by entry id (an insertion-ordered dict in the source).

    A registry entry is modelled by value as Entry(id, port, remote, listener): the source
    stores the handler object itself, but the only thing the registry ever does with it is
    stop it, that is, close the listener that handler registered and delete the entry under
    the handler's own id. The operating system is an oracle `bind` that answers the n-th bind
    attempt (the listener sockets use SO_REUSEPORT, so whether a bind succeeds is not a
    function of what this process has registered). */
module ProxyHandler {
  import opened Wrappers
  import opened Text

  /** An open listening socket, identified by the order in which it was created. */
  type Listener = nat

  /** proxy_servers[id] == {'handler': h, 'port': port, 'remote': remote}, h's server being `listener`. */
  datatype Entry = Entry(id: int, port: int, remote: string, listener: Listener)

  /** The listening sockets: those still open, the next fresh one, the bind attempts so far. */
  datatype Net = Net(open: set<Listener>, next: Listener, binds: nat)

  /** The registry together with the sockets. */
  datatype World = World(entries: seq<Entry>, net: Net)

  /** The answer of the operating system to one bind of 0.0.0.0:port: the server is listening,
      or start_server raised. `osError` tells an OSError (the only kind start() may clean up
      after) from any other exception, which start() re-raises as it is; `errno` is the
      OSError's errno and `message` is str() of the exception. */
  datatype BindAnswer = Bound | BindFailed(osError: bool, errno: int, message: string)

  /** The Linux errno for "address already in use". */
  const EADDRINUSE := 98

  /** The cleanup-and-retry condition of start(): an OSError with errno 98, or with the words
      in its text in any casing. */
  predicate AddressInUse(a: BindAnswer)
  {
    a.BindFailed? && a.osError && (a.errno == EADDRINUSE || Contains(LowerAscii(a.message), AddressInUsePhrase))
  }

  const AddressInUsePhrase := "address already in use"

  /** The phrase is recognised whatever the casing of the letters in the error text: any OSError
      whose text holds a spelling of it that lowers to the phrase asks for the cleanup. Any
      other exception never does, whatever its errno or text. */
  lemma {:induction false} AddressInUseAnyCasing(errno: int, message: string, spelling: string)
    requires Contains(message, spelling) && LowerAscii(spelling) == AddressInUsePhrase
    ensures AddressInUse(BindFailed(true, errno, message))
    ensures !AddressInUse(BindFailed(false, errno, message))
  {
    ContainsLowered(message, spelling);
  }

  function CleanupFailedMessage(port: int): string
  {
    "Port " + IntToString(port) + " is in use and couldn't be cleaned up"
  }

  // ---------------------------------------------------------------------------------------
  // The registry as an insertion-ordered dict

  /** Dict keys are unique. */
  predicate UniqueIds(es: seq<Entry>)
  {
    forall i, j :: 0 <= i < j < |es| ==> es[i].id != es[j].id
  }

  predicate IsRegistered(es: seq<Entry>, id: int)
  {
    exists e :: e in es && e.id == id
  }

  lemma {:induction false} UniqueIdsSame(es: seq<Entry>, e1: Entry, e2: Entry)
    requires UniqueIds(es) && e1 in es && e2 in es && e1.id == e2.id
    ensures e1 == e2
  {
    var i :| 0 <= i < |es| && es[i] == e1;
    var j :| 0 <= j < |es| && es[j] == e2;
    if i < j {} else if j < i {}
  }

  lemma {:induction false} UniqueIdsCons(e: Entry, es: seq<Entry>)
    requires UniqueIds(es) && !IsRegistered(es, e.id)
    ensures UniqueIds([e] + es)
  {
    var r := [e] + es;
    forall i, j | 0 <= i < j < |r| ensures r[i].id != r[j].id
    {
      if i == 0 {
        assert r[j] in es;
      } else {
        assert r[i] == es[i - 1] && r[j] == es[j - 1];
      }
    }
  }

  lemma {:induction false} UniqueIdsSnoc(es: seq<Entry>, e: Entry)
    requires UniqueIds(es) && !IsRegistered(es, e.id)
    ensures UniqueIds(es + [e])
  {
    var r := es + [e];
    forall i, j | 0 <= i < j < |r| ensures r[i].id != r[j].id
    {
      assert r[i] == es[i];
      if j == |es| {
        assert r[i] in es;
      } else {
        assert r[j] == es[j];
      }
    }
  }

  lemma {:induction false} UniqueIdsTail(es: seq<Entry>)
    requires UniqueIds(es) && es != []
    ensures UniqueIds(es[1..]) && !IsRegistered(es[1..], es[0].id)
  {
    forall e | e in es[1..] ensures e.id != es[0].id
    {
      var k :| 0 <= k < |es[1..]| && es[1..][k] == e;
      assert es[k + 1] == e;
    }
  }

  /** proxy_servers.get(id): the registered entry, if any. */
  function Lookup(es: seq<Entry>, id: int): (r: Option<Entry>)
    ensures r.Some? ==> r.value in es && r.value.id == id
    ensures r.None? <==> !IsRegistered(es, id)
    decreases |es|
  {
    if es == [] then None
    else if es[0].id == id then Some(es[0])
    else
      var r := Lookup(es[1..], id);
      assert forall e :: e in es ==> e == es[0] || e in es[1..];
      r
  }

  /** del proxy_servers[id], a no-op when the id is absent. */
  function RemoveEntry(es: seq<Entry>, id: int): (r: seq<Entry>)
    ensures forall e :: e in r <==> e in es && e.id != id
    ensures !IsRegistered(es, id) ==> r == es
    ensures |r| <= |es|
    decreases |es|
  {
    if es == [] then []
    else
      var rest := RemoveEntry(es[1..], id);
      assert forall e :: e in es ==> e == es[0] || e in es[1..];
      assert !IsRegistered(es, id) ==> !IsRegistered(es[1..], id);
      assert es == [es[0]] + es[1..];
      if es[0].id == id then rest else [es[0]] + rest
  }

  /** Deleting a key keeps the keys unique. */
  lemma {:induction false} RemoveEntryKeepsUnique(es: seq<Entry>, id: int)
    requires UniqueIds(es)
    ensures UniqueIds(RemoveEntry(es, id))
    decreases |es|
  {
    if es != [] {
      UniqueIdsTail(es);
      RemoveEntryKeepsUnique(es[1..], id);
      if es[0].id != id {
        UniqueIdsCons(es[0], RemoveEntry(es[1..], id));
      }
    }
  }

  /** proxy_servers[e.id] = e: overwrites an existing key in place, otherwise appends. */
  function PutEntry(es: seq<Entry>, e: Entry): (r: seq<Entry>)
    ensures !IsRegistered(es, e.id) ==> r == es + [e]
    ensures UniqueIds(es) ==> UniqueIds(r) && forall x :: x in r <==> x == e || (x in es && x.id != e.id)
    decreases |es|
  {
    if es == [] then [e]
    else
      assert forall x :: x in es ==> x == es[0] || x in es[1..];
      assert es == [es[0]] + es[1..];
      if es[0].id == e.id then
        var r := [e] + es[1..];
        assert UniqueIds(es) ==> UniqueIds(r) by {
          if UniqueIds(es) {
            UniqueIdsTail(es);
            UniqueIdsCons(e, es[1..]);
          }
        }
        r
      else
        var rest := PutEntry(es[1..], e);
        assert !IsRegistered(es, e.id) ==> !IsRegistered(es[1..], e.id);
        var r := [es[0]] + rest;
        assert UniqueIds(es) ==> UniqueIds(r) by {
          if UniqueIds(es) {
            UniqueIdsTail(es);
            assert !IsRegistered(rest, es[0].id);
            UniqueIdsCons(es[0], rest);
          }
        }
        r
  }

  /** The first registered entry, in insertion order, that holds `port` under another id. */
  function FirstConflict(es: seq<Entry>, port: int, self: int): (r: Option<nat>)
    ensures r.Some? ==> r.value < |es| && es[r.value].port == port && es[r.value].id != self
                        && forall j :: 0 <= j < r.value ==> !(es[j].port == port && es[j].id != self)
    ensures r.None? ==> forall e :: e in es ==> !(e.port == port && e.id != self)
    decreases |es|
  {
    if es == [] then None
    else if es[0].port == port && es[0].id != self then Some(0)
    else
      assert forall e :: e in es ==> e == es[0] || e in es[1..];
      match FirstConflict(es[1..], port, self)
      case None => None
      case Some(k) => Some(k + 1)
  }

  function ListenersOf(es: seq<Entry>): set<Listener>
  {
    set e | e in es :: e.listener
  }

  // ---------------------------------------------------------------------------------------
  // The whole state, and the operations of the module on it

  /** What the model keeps true of the registry and the sockets: unique ids, every registered
      listener open and registered once, and every open listener older than the next one. */
  predicate Consistent(w: World)
  {
    && UniqueIds(w.entries)
    && (forall e :: e in w.entries ==> e.listener in w.net.open)
    && (forall e1, e2 :: e1 in w.entries && e2 in w.entries && e1.listener == e2.listener ==> e1 == e2)
    && (forall l :: l in w.net.open ==> l < w.net.next)
  }

  /** A handler for `id` holding `server`: its server, if any, was created by the sockets and
      is not the listener of an entry under another id. */
  predicate HandlerConsistent(w: World, id: int, server: Option<Listener>)
  {
    server.Some? ==> server.value < w.net.next
                     && forall e :: e in w.entries && e.listener == server.value ==> e.id == id
  }

  function CloseListener(n: Net, l: Listener): Net
  {
    n.(open := n.open - {l})
  }

  /** RawProxyHandler.stop() for a handler of `id` holding `server`: close the server if there
      is one, then drop the registry entry under `id` whatever handler it belongs to. */
  function StopHandler(w: World, id: int, server: Option<Listener>): (r: World)
    ensures forall e :: e in r.entries <==> e in w.entries && e.id != id
    ensures !IsRegistered(r.entries, id)
    ensures UniqueIds(w.entries) ==> UniqueIds(r.entries)
    ensures r.net.next == w.net.next && r.net.binds == w.net.binds
    ensures r.net.open == if server.Some? then w.net.open - {server.value} else w.net.open
  {
    var net := if server.Some? then CloseListener(w.net, server.value) else w.net;
    if UniqueIds(w.entries) then
      RemoveEntryKeepsUnique(w.entries, id);
      World(RemoveEntry(w.entries, id), net)
    else World(RemoveEntry(w.entries, id), net)
  }

  /** stop_proxy_handler(pid): stops the registered handler of `pid`, if there is one. */
  function StopById(w: World, pid: int): (r: World)
    ensures !IsRegistered(r.entries, pid)
    ensures forall e: Entry :: e.id != pid ==> (e in r.entries <==> e in w.entries)
    ensures forall e :: e in r.entries ==> e in w.entries
    ensures r.net.next == w.net.next && r.net.binds == w.net.binds && r.net.open <= w.net.open
    ensures UniqueIds(w.entries) ==> forall e :: e in w.entries && e.id == pid ==> e.listener !in r.net.open
    ensures UniqueIds(w.entries) ==> forall l :: l in w.net.open && l !in r.net.open ==>
                                       exists e :: e in w.entries && e.id == pid && e.listener == l
    ensures !IsRegistered(w.entries, pid) ==> r == w
  {
    match Lookup(w.entries, pid)
    case None => w
    case Some(e) =>
      assert forall x :: x in w.entries && x.id == pid && UniqueIds(w.entries) ==> x == e by {
        forall x | x in w.entries && x.id == pid && UniqueIds(w.entries) ensures x == e {
          UniqueIdsSame(w.entries, x, e);
        }
      }
      StopHandler(w, pid, Some(e.listener))
  }

  lemma {:induction false} StopByIdKeepsConsistent(w: World, pid: int)
    requires Consistent(w)
    ensures Consistent(StopById(w, pid))
  {
  }

  /** RawProxyHandler(id, port, remote).start(retry) with the handler holding `server`:
      - if `id` is registered, stop this handler first (close its own server, drop the entry);
      - bind; on success record Entry(id, port, remote, new listener) under `id`;
      - on an address-in-use failure with `retry`, stop the first other registered id on the
        same port and start once more without retry, or fail when there is none;
      - on any other failure, fail with the error text. */
  function StartSpec(bind: (nat, int) -> BindAnswer, w: World, server: Option<Listener>,
                     id: int, port: int, remote: string, retry: bool): Started
    decreases if retry then 1 else 0
  {
    var w1 := if IsRegistered(w.entries, id) then StopHandler(w, id, server) else w;
    var answer := bind(w1.net.binds, port);
    var net1 := w1.net.(binds := w1.net.binds + 1);
    if answer.Bound? then
      var l := net1.next;
      Started(Pass, World(PutEntry(w1.entries, Entry(id, port, remote, l)), Net(net1.open + {l}, l + 1, net1.binds)), Some(l))
    else if retry && AddressInUse(answer) then
      match FirstConflict(w1.entries, port, id)
      case None => Started(Fail(CleanupFailedMessage(port)), World(w1.entries, net1), server)
      case Some(k) => StartSpec(bind, StopById(World(w1.entries, net1), w1.entries[k].id), server, id, port, remote, false)
    else
      Started(Fail(answer.message), World(w1.entries, net1), server)
  }

  /** The outcome of a start, the state after it, and the handler's server afterwards. */
  datatype Started = Started(outcome: Outcome<string>, world: World, server: Option<Listener>)

  /** A start succeeds exactly when it leaves `id` registered, with the requested port and
      remote and the handler's new, open listener; a failed start leaves `id` unregistered
      and the handler's server as it was. */
  lemma StartRegistersIffSucceeds(bind: (nat, int) -> BindAnswer, w: World, server: Option<Listener>,
                                  id: int, port: int, remote: string, retry: bool)
    ensures var s := StartSpec(bind, w, server, id, port, remote, retry);
      s.outcome.Pass? <==> IsRegistered(s.world.entries, id)
    ensures var s := StartSpec(bind, w, server, id, port, remote, retry);
      s.outcome.Pass? ==> s.server.Some? && Entry(id, port, remote, s.server.value) in s.world.entries
                          && s.server.value in s.world.net.open
    ensures var s := StartSpec(bind, w, server, id, port, remote, retry);
      s.outcome.Fail? ==> s.server == server
    decreases if retry then 1 else 0
  {
    var w1 := if IsRegistered(w.entries, id) then StopHandler(w, id, server) else w;
    var answer := bind(w1.net.binds, port);
    var net1 := w1.net.(binds := w1.net.binds + 1);
    if answer.Bound? {
      var e := Entry(id, port, remote, net1.next);
      assert PutEntry(w1.entries, e) == w1.entries + [e];
    } else if retry && AddressInUse(answer) {
      match FirstConflict(w1.entries, port, id)
      case None =>
      case Some(k) =>
        StartRegistersIffSucceeds(bind, StopById(World(w1.entries, net1), w1.entries[k].id), server, id, port, remote, false);
    }
  }

  /** Starting a registered id is the same as starting it once its handler has been stopped. */
  lemma {:induction false} StartAfterStop(bind: (nat, int) -> BindAnswer, w: World, server: Option<Listener>,
                       id: int, port: int, remote: string, retry: bool)
    requires IsRegistered(w.entries, id)
    ensures StartSpec(bind, w, server, id, port, remote, retry)
            == StartSpec(bind, StopHandler(w, id, server), server, id, port, remote, retry)
  {
    assert !IsRegistered(StopHandler(w, id, server).entries, id);
  }

  /** A start on an unregistered id: a successful bind appends the entry with a fresh listener;
      a failure other than address-in-use with retry fails with the error text. */
  lemma {:induction false} StartUnregistered(bind: (nat, int) -> BindAnswer, w: World, server: Option<Listener>,
                          id: int, port: int, remote: string, retry: bool)
    requires !IsRegistered(w.entries, id)
    ensures var answer := bind(w.net.binds, port);
      answer.Bound? ==>
        (StartSpec(bind, w, server, id, port, remote, retry)
         == Started(Pass, World(w.entries + [Entry(id, port, remote, w.net.next)],
                                Net(w.net.open + {w.net.next}, w.net.next + 1, w.net.binds + 1)), Some(w.net.next)))
    ensures var answer := bind(w.net.binds, port);
      !answer.Bound? && !(retry && AddressInUse(answer)) ==>
        (StartSpec(bind, w, server, id, port, remote, retry)
         == Started(Fail(answer.message), World(w.entries, w.net.(binds := w.net.binds + 1)), server))
  {
    var answer := bind(w.net.binds, port);
    if answer.Bound? {
      var e := Entry(id, port, remote, w.net.next);
      assert PutEntry(w.entries, e) == w.entries + [e];
    }
  }

  /** A start binds once, and a second time only after an address-in-use answer with retry on;
      the first bind is the next one the sockets see. */
  lemma {:induction false} StartBindsAtMostTwice(bind: (nat, int) -> BindAnswer, w: World, server: Option<Listener>,
                              id: int, port: int, remote: string, retry: bool)
    ensures var s := StartSpec(bind, w, server, id, port, remote, retry);
      || s.world.net.binds == w.net.binds + 1
      || (retry && AddressInUse(bind(w.net.binds, port)) && s.world.net.binds == w.net.binds + 2)
    ensures var s := StartSpec(bind, w, server, id, port, remote, retry);
      !bind(w.net.binds, port).Bound? && !(retry && AddressInUse(bind(w.net.binds, port))) ==>
        s.outcome == Fail(bind(w.net.binds, port).message)
  {
  }

  /** A start without retry leaves every entry under another id where it was. */
  lemma {:induction false} AttemptKeepsOthers(bind: (nat, int) -> BindAnswer, w: World, server: Option<Listener>,
                           id: int, port: int, remote: string)
    ensures var s := StartSpec(bind, w, server, id, port, remote, false);
      forall e: Entry :: e.id != id ==> (e in s.world.entries <==> e in w.entries)
  {
    var w1 := if IsRegistered(w.entries, id) then StopHandler(w, id, server) else w;
    var answer := bind(w1.net.binds, port);
    if answer.Bound? {
      var e := Entry(id, port, remote, w1.net.next);
      assert PutEntry(w1.entries, e) == w1.entries + [e];
    }
  }

  /** Apart from `id` itself, a start removes at most one registry entry, one that holds the
      same port, and adds none. */
  lemma {:induction false} StartEvictsAtMostOne(bind: (nat, int) -> BindAnswer, w: World, server: Option<Listener>,
                             id: int, port: int, remote: string, retry: bool)
    requires UniqueIds(w.entries)
    ensures var s := StartSpec(bind, w, server, id, port, remote, retry);
      forall e :: e in s.world.entries && e.id != id ==> e in w.entries
    ensures var s := StartSpec(bind, w, server, id, port, remote, retry);
      forall e :: e in w.entries && e.id != id && e !in s.world.entries ==> e.port == port
    ensures var s := StartSpec(bind, w, server, id, port, remote, retry);
      forall e1, e2 :: (e1 in w.entries && e2 in w.entries && e1.id != id && e2.id != id
                        && e1 !in s.world.entries && e2 !in s.world.entries) ==> e1 == e2
  {
    var s := StartSpec(bind, w, server, id, port, remote, retry);
    var w1 := if IsRegistered(w.entries, id) then StopHandler(w, id, server) else w;
    var answer := bind(w1.net.binds, port);
    if !retry || !AddressInUse(answer) || FirstConflict(w1.entries, port, id).None? {
      StartWithoutEviction(bind, w, server, id, port, remote, retry);
      AttemptKeepsOthers(bind, w, server, id, port, remote);
    } else {
      var k := FirstConflict(w1.entries, port, id).value;
      var c := w1.entries[k];
      var w2 := StopById(World(w1.entries, w1.net.(binds := w1.net.binds + 1)), c.id);
      StartAfterEviction(bind, w, w1, server, id, port, remote, k);
      AttemptKeepsOthers(bind, w2, server, id, port, remote);
      assert c in w.entries;
      forall e | e in w.entries && e.id != id && e !in s.world.entries
        ensures e == c
      {
        UniqueIdsSame(w.entries, e, c);
      }
    }
  }

  /** A start that evicts nobody leaves the registry an attempt without retry leaves. */
  lemma {:induction false} StartWithoutEviction(bind: (nat, int) -> BindAnswer, w: World, server: Option<Listener>,
                                                id: int, port: int, remote: string, retry: bool)
    requires var w1 := if IsRegistered(w.entries, id) then StopHandler(w, id, server) else w;
      !retry || !AddressInUse(bind(w1.net.binds, port)) || FirstConflict(w1.entries, port, id).None?
    ensures StartSpec(bind, w, server, id, port, remote, retry).world == StartSpec(bind, w, server, id, port, remote, false).world
  {
    var w1 := if IsRegistered(w.entries, id) then StopHandler(w, id, server) else w;
    var answer := bind(w1.net.binds, port);
    var net1 := w1.net.(binds := w1.net.binds + 1);
    if retry && !answer.Bound? {
      assert StartSpec(bind, w, server, id, port, remote, retry).world == World(w1.entries, net1);
      assert StartSpec(bind, w, server, id, port, remote, false).world == World(w1.entries, net1);
    }
  }

  /** A start that finds the port held by another id: exactly an attempt without retry after
      stopping that id. */
  lemma {:induction false} StartAfterEviction(bind: (nat, int) -> BindAnswer, w: World, w1: World, server: Option<Listener>,
                                              id: int, port: int, remote: string, k: nat)
    requires w1 == if IsRegistered(w.entries, id) then StopHandler(w, id, server) else w
    requires AddressInUse(bind(w1.net.binds, port)) && FirstConflict(w1.entries, port, id) == Some(k)
    ensures k < |w1.entries|
    ensures StartSpec(bind, w, server, id, port, remote, true)
              == StartSpec(bind, StopById(World(w1.entries, w1.net.(binds := w1.net.binds + 1)), w1.entries[k].id),
                           server, id, port, remote, false)
  {
    if IsRegistered(w.entries, id) {
      StartAfterStop(bind, w, server, id, port, remote, true);
    }
    StartUnregisteredEvicts(bind, w1, server, id, port, remote, k);
  }

  /** The same for an id not registered: no stop comes first. */
  lemma {:induction false} StartUnregisteredEvicts(bind: (nat, int) -> BindAnswer, w: World, server: Option<Listener>,
                                                   id: int, port: int, remote: string, k: nat)
    requires !IsRegistered(w.entries, id)
    requires AddressInUse(bind(w.net.binds, port)) && FirstConflict(w.entries, port, id) == Some(k)
    ensures k < |w.entries|
    ensures StartSpec(bind, w, server, id, port, remote, true)
              == StartSpec(bind, StopById(World(w.entries, w.net.(binds := w.net.binds + 1)), w.entries[k].id),
                           server, id, port, remote, false)
  {
  }

  lemma {:induction false} StopHandlerKeepsConsistent(w: World, id: int, server: Option<Listener>)
    requires Consistent(w) && HandlerConsistent(w, id, server)
    ensures Consistent(StopHandler(w, id, server)) && HandlerConsistent(StopHandler(w, id, server), id, server)
  {
  }

  /** A successful bind of an unregistered id keeps the state consistent. */
  lemma {:induction false} BoundKeepsConsistent(w: World, id: int, port: int, remote: string)
    requires Consistent(w) && !IsRegistered(w.entries, id)
    ensures var l := w.net.next;
      var w' := World(w.entries + [Entry(id, port, remote, l)], Net(w.net.open + {l}, l + 1, w.net.binds + 1));
      Consistent(w') && HandlerConsistent(w', id, Some(l))
  {
    UniqueIdsSnoc(w.entries, Entry(id, port, remote, w.net.next));
  }

  /** Starting keeps the registry and the sockets consistent, and leaves the handler's server
      consistent with them. */
  lemma {:induction false} StartKeepsConsistent(bind: (nat, int) -> BindAnswer, w: World, server: Option<Listener>,
                             id: int, port: int, remote: string, retry: bool)
    requires Consistent(w) && HandlerConsistent(w, id, server)
    ensures var s := StartSpec(bind, w, server, id, port, remote, retry);
      Consistent(s.world) && HandlerConsistent(s.world, id, s.server)
    decreases if retry then 1 else 0
  {
    var s := StartSpec(bind, w, server, id, port, remote, retry);
    var w1 := if IsRegistered(w.entries, id) then StopHandler(w, id, server) else w;
    if IsRegistered(w.entries, id) {
      StopHandlerKeepsConsistent(w, id, server);
    }
    var answer := bind(w1.net.binds, port);
    var net1 := w1.net.(binds := w1.net.binds + 1);
    var failed := World(w1.entries, net1);
    assert Consistent(failed) && HandlerConsistent(failed, id, server);
    if answer.Bound? {
      var e := Entry(id, port, remote, net1.next);
      assert PutEntry(w1.entries, e) == w1.entries + [e];
      BoundKeepsConsistent(w1, id, port, remote);
    } else if retry && AddressInUse(answer) && FirstConflict(w1.entries, port, id).Some? {
      var k := FirstConflict(w1.entries, port, id).value;
      var w2 := StopById(failed, w1.entries[k].id);
      StopByIdKeepsConsistent(failed, w1.entries[k].id);
      assert HandlerConsistent(w2, id, server);
      assert s == StartSpec(bind, w2, server, id, port, remote, false);
      StartKeepsConsistent(bind, w2, server, id, port, remote, false);
    } else {
      assert s.world == failed && s.server == server;
    }
  }


  /** A start without retry never closes a listener other than the handler's own server. */
  lemma {:induction false} AttemptKeepsListeners(bind: (nat, int) -> BindAnswer, w: World, id: int, port: int, remote: string)
    ensures var s := StartSpec(bind, w, None, id, port, remote, false);
      w.net.open <= s.world.net.open && s.world.net.next >= w.net.next
      && (forall e :: e in s.world.entries ==> e in w.entries || e.listener == w.net.next)
  {
    var w1 := if IsRegistered(w.entries, id) then StopHandler(w, id, None) else w;
    var answer := bind(w1.net.binds, port);
    if answer.Bound? {
      var e := Entry(id, port, remote, w1.net.next);
      assert PutEntry(w1.entries, e) == w1.entries + [e];
    }
  }

  /** A start on a handler without a server leaves an open listener that no entry refers to
      open and unreferenced. */
  lemma StartKeepsUnreferenced(bind: (nat, int) -> BindAnswer, w: World, id: int, port: int,
                               remote: string, retry: bool, l: Listener)
    requires l in w.net.open && l < w.net.next && l !in ListenersOf(w.entries)
    ensures var s := StartSpec(bind, w, None, id, port, remote, retry);
      l in s.world.net.open && l !in ListenersOf(s.world.entries)
    decreases if retry then 1 else 0
  {
    var w1 := if IsRegistered(w.entries, id) then StopHandler(w, id, None) else w;
    assert l in w1.net.open && l !in ListenersOf(w1.entries);
    var answer := bind(w1.net.binds, port);
    var net1 := w1.net.(binds := w1.net.binds + 1);
    if answer.Bound? {
      var e := Entry(id, port, remote, net1.next);
      assert PutEntry(w1.entries, e) == w1.entries + [e];
    } else if retry && AddressInUse(answer) {
      match FirstConflict(w1.entries, port, id)
      case None =>
      case Some(k) =>
        var w2 := StopById(World(w1.entries, net1), w1.entries[k].id);
        assert w1.entries[k] in w1.entries;
        assert l in w2.net.open && l !in ListenersOf(w2.entries);
        StartKeepsUnreferenced(bind, w2, id, port, remote, false, l);
    }
  }

  /** start() on a fresh handler whose id is already registered drops the old entry without
      closing the old listener: that listener stays open and no entry refers to it any more. */
  lemma {:induction false} StartOrphansReplacedListener(bind: (nat, int) -> BindAnswer, w: World, old_: Entry,
                                     port: int, remote: string, retry: bool)
    requires Consistent(w) && old_ in w.entries
    ensures var s := StartSpec(bind, w, None, old_.id, port, remote, retry);
      old_.listener in s.world.net.open && old_.listener !in ListenersOf(s.world.entries)
  {
    var w1 := StopHandler(w, old_.id, None);
    StartAfterStop(bind, w, None, old_.id, port, remote, retry);
    assert old_.listener in w1.net.open && old_.listener < w1.net.next;
    assert old_.listener !in ListenersOf(w1.entries);
    StartKeepsUnreferenced(bind, w1, old_.id, port, remote, retry, old_.listener);
  }

  // ---------------------------------------------------------------------------------------
  // Parsing the upstream address

  /** The upstream "ip:port" of a relay, as the handler keeps it. */
  datatype Remote = Remote(host: string, port: int)

  /** str(e) for the AttributeError of None.split(':'). */
  const NoneSplitMessage := "'NoneType' object has no attribute 'split'"

  /** str(e) for the IndexError of remote_parts[1]. */
  const IndexErrorMessage := "list index out of range"

  /** str(e) for the ValueError of int(text). */
  function IntValueErrorMessage(text: string): string
  {
    "invalid literal for int() with base 10: '" + text + "'"
  }

  /** remote_proxy.split(':')[0]: always defined. */
  function RemoteHost(s: string): string
  {
    Split(s, ':')[0]
  }

  /** int(remote_proxy.split(':')[1]). */
  function RemotePort(s: string): Result<int, string>
  {
    var parts := Split(s, ':');
    if |parts| < 2 then Failure(IndexErrorMessage)
    else match ParseInt(parts[1])
      case None => Failure(IntValueErrorMessage(parts[1]))
      case Some(p) => Success(p)
  }

  /** The address parsing of RawProxyHandler(...): host before the first ':', port after it. */
  function ParseRemote(remote: Option<string>): Result<Remote, string>
  {
    match remote
    case None => Failure(NoneSplitMessage)
    case Some(s) =>
      match RemotePort(s)
      case Failure(e) => Failure(e)
      case Success(p) => Success(Remote(RemoteHost(s), p))
  }

  /** f"{remote_host}:{remote_port}", the text stored in the registry. */
  function FormatRemote(r: Remote): string
  {
    r.host + ":" + IntToString(r.port)
  }

  lemma {:induction false} NoColonInIntToString(i: int)
    ensures ':' !in IntToString(i)
  {
    var d := NatToString(if i < 0 then -i else i);
    assert forall k :: 0 <= k < |d| ==> IsDigit(d[k]);
    if i < 0 {
      assert IntToString(i) == "-" + d;
    }
  }

  /** The registry's text of an address parses back to that address. */
  lemma {:induction false} ParseFormatRoundTrip(r: Remote)
    requires ':' !in r.host
    ensures ParseRemote(Some(FormatRemote(r))) == Success(r)
  {
    var digits := IntToString(r.port);
    NoColonInIntToString(r.port);
    SplitAtFirst(r.host, ':', digits);
    SplitWithoutSeparator(digits, ':');
    assert FormatRemote(r) == r.host + [':'] + digits;
    assert Split(FormatRemote(r), ':') == [r.host, digits];
    IntRoundTrip(r.port);
  }

  /** Whatever address was parsed, formatting and parsing it again changes nothing: the
      registry's text is a normal form of the configured one. */
  lemma {:induction false} FormatOfParsedIsStable(s: string)
    requires ParseRemote(Some(s)).Success?
    ensures ParseRemote(Some(FormatRemote(ParseRemote(Some(s)).value))) == ParseRemote(Some(s))
  {
    var r := ParseRemote(Some(s)).value;
    assert ':' !in Split(s, ':')[0];
    ParseFormatRoundTrip(r);
  }

  /** start_proxy_handler(id, port, remote): construct the handler (which parses the address),
      then start it with retry. A fresh handler holds no server. */
  function StartHandlerSpec(bind: (nat, int) -> BindAnswer, w: World, id: int, port: int,
                            remote: Option<string>): Started
  {
    match ParseRemote(remote)
    case Failure(e) => Started(Fail(e), w, None)
    case Success(r) => StartSpec(bind, w, None, id, port, FormatRemote(r), true)
  }

  /** restart_proxy_handler(id, port, remote): stop the registered handler, then start anew. */
  function RestartHandlerSpec(bind: (nat, int) -> BindAnswer, w: World, id: int, port: int,
                              remote: Option<string>): Started
  {
    StartHandlerSpec(bind, StopById(w, id), id, port, remote)
  }

  /** An address that does not parse makes start_proxy_handler fail with Python's error text
      before any socket is touched. */
  lemma {:induction false} StartHandlerRejectsBadRemote(bind: (nat, int) -> BindAnswer, w: World, id: int, port: int,
                                     remote: Option<string>)
    ensures var s := StartHandlerSpec(bind, w, id, port, remote);
      ParseRemote(remote).Failure? ==> s.outcome == Fail(ParseRemote(remote).error) && s.world == w
    ensures var s := StartHandlerSpec(bind, w, id, port, remote);
      remote.None? ==> s.outcome == Fail(NoneSplitMessage)
    ensures var s := StartHandlerSpec(bind, w, id, port, remote);
      remote.Some? && ':' !in remote.value ==> s.outcome == Fail(IndexErrorMessage)
  {
    if remote.Some? && ':' !in remote.value {
      SplitWithoutSeparator(remote.value, ':');
    }
  }

  /** restart_proxy_handler closes the old listener of `id` whatever happens next; the relay
      runs again exactly when the restart succeeds, with the re-formatted address. */
  lemma {:induction false} RestartClosesOldListener(bind: (nat, int) -> BindAnswer, w: World, old_: Entry, port: int,
                                 remote: Option<string>)
    requires Consistent(w) && old_ in w.entries
    ensures var s := RestartHandlerSpec(bind, w, old_.id, port, remote);
      old_.listener !in s.world.net.open
    ensures var s := RestartHandlerSpec(bind, w, old_.id, port, remote);
      s.outcome.Pass? <==> IsRegistered(s.world.entries, old_.id)
    ensures var s := RestartHandlerSpec(bind, w, old_.id, port, remote);
      s.outcome.Pass? ==> ParseRemote(remote).Success?
                          && Entry(old_.id, port, FormatRemote(ParseRemote(remote).value), s.server.value) in s.world.entries
    ensures var s := RestartHandlerSpec(bind, w, old_.id, port, remote);
      ParseRemote(remote).Failure? ==> s.world == StopById(w, old_.id)
  {
    var w1 := StopById(w, old_.id);
    assert old_.listener !in w1.net.open;
    assert old_.listener < w1.net.next;
    match ParseRemote(remote)
    case Failure(e) =>
    case Success(r) =>
      StartRegistersIffSucceeds(bind, w1, None, old_.id, port, FormatRemote(r), true);
      StartClosedStaysClosed(bind, w1, None, old_.id, port, FormatRemote(r), true, old_.listener);
  }

  /** A listener that is closed and older than the next one is never reopened by a start. */
  lemma StartClosedStaysClosed(bind: (nat, int) -> BindAnswer, w: World, server: Option<Listener>,
                               id: int, port: int, remote: string, retry: bool, l: Listener)
    requires l !in w.net.open && l < w.net.next
    ensures var s := StartSpec(bind, w, server, id, port, remote, retry);
      l !in s.world.net.open && l < s.world.net.next
    decreases if retry then 1 else 0
  {
    var w1 := if IsRegistered(w.entries, id) then StopHandler(w, id, server) else w;
    var answer := bind(w1.net.binds, port);
    var net1 := w1.net.(binds := w1.net.binds + 1);
    if !answer.Bound? && retry && AddressInUse(answer) {
      match FirstConflict(w1.entries, port, id)
      case None =>
      case Some(k) =>
        StartClosedStaysClosed(bind, StopById(World(w1.entries, net1), w1.entries[k].id), server, id, port, remote, false, l);
    }
  }

  // ---------------------------------------------------------------------------------------
  // The objects

  /** proxy_servers, the registry of running relays. */
  class Registry {
    var entries: seq<Entry>

    constructor ()
      ensures entries == []
    {
      entries := [];
    }

    method Put(e: Entry)
      modifies this
      ensures entries == PutEntry(old(entries), e)
    {
      entries := PutEntry(entries, e);
    }

    method Delete(id: int)
      modifies this
      ensures entries == RemoveEntry(old(entries), id)
    {
      entries := RemoveEntry(entries, id);
    }

    /** proxy_servers.clear(): forgets every relay without closing its listener. */
    method Clear()
      modifies this
      ensures entries == []
    {
      entries := [];
    }
  }

  /** The listening sockets of the process; `bind` answers the n-th bind attempt. */
  class Network {
    const bind: (nat, int) -> BindAnswer
    var open: set<Listener>
    var next: Listener
    var binds: nat

    constructor (bind: (nat, int) -> BindAnswer)
      ensures this.bind == bind && open == {} && next == 0 && binds == 0
    {
      this.bind := bind;
      open := {};
      next := 0;
      binds := 0;
    }

    function State(): Net
      reads this
    {
      Net(open, next, binds)
    }

    /** asyncio.start_server on 0.0.0.0:port: a new open listener, or the OS error. */
    method StartServer(port: int) returns (answer: BindAnswer, l: Listener)
      modifies this
      ensures answer == bind(old(binds), port)
      ensures answer.Bound? ==> l == old(next) && State() == Net(old(open) + {l}, old(next) + 1, old(binds) + 1)
      ensures !answer.Bound? ==> State() == old(State()).(binds := old(binds) + 1)
    {
      answer := bind(binds, port);
      binds := binds + 1;
      l := next;
      if answer.Bound? {
        open := open + {l};
        next := next + 1;
      }
    }

    /** server.close(): idempotent. */
    method Close(l: Listener)
      modifies this
      ensures State() == CloseListener(old(State()), l)
    {
      open := open - {l};
    }
  }

  /** One relay: its entry id and local port, its upstream address, its listener once bound. */
  class RawProxyHandler {
    const proxyId: int
    const port: int
    var remoteHost: string
    var remotePort: int
    var server: Option<Listener>

    /** RawProxyHandler(proxy_id, port, remote) once the address has parsed; see NewHandler. */
    constructor (proxyId: int, port: int, remote: Remote)
      ensures this.proxyId == proxyId && this.port == port
      ensures remoteHost == remote.host && remotePort == remote.port && server == None
    {
      this.proxyId := proxyId;
      this.port := port;
      remoteHost := remote.host;
      remotePort := remote.port;
      server := None;
    }

    /** The upstream address the handler currently holds. */
    function Address(): Remote
      reads this
    {
      Remote(remoteHost, remotePort)
    }

    /** is_running(): whether the registry holds an entry under this handler's id. */
    function IsRunning(reg: Registry): (b: bool)
      reads reg
      ensures b <==> Lookup(reg.entries, proxyId).Some?
    {
      IsRegistered(reg.entries, proxyId)
    }

    method Stop(reg: Registry, net: Network)
      modifies reg, net
      ensures World(reg.entries, net.State()) == StopHandler(old(World(reg.entries, net.State())), proxyId, server)
    {
      if server.Some? {
        net.Close(server.value);
      }
      if IsRegistered(reg.entries, proxyId) {
        reg.Delete(proxyId);
      }
    }

    /** start(retry): stop this handler first when its id is registered, then bind. */
    method Start(reg: Registry, net: Network, retry: bool) returns (r: Outcome<string>)
      modifies this, reg, net
      ensures Started(r, World(reg.entries, net.State()), server)
              == StartSpec(net.bind, old(World(reg.entries, net.State())), old(server), proxyId, port,
                           FormatRemote(old(Address())), retry)
      ensures remoteHost == old(remoteHost) && remotePort == old(remotePort)
      decreases if retry then 1 else 0, 2
    {
      if IsRegistered(reg.entries, proxyId) {
        StartAfterStop(net.bind, World(reg.entries, net.State()), server, proxyId, port, FormatRemote(Address()), retry);
        Stop(reg, net);
      }
      r := Bind(reg, net, retry);
    }

    /** The part of start(retry) after the registry check: bind, and on an address-in-use
        answer with retry stop the first other id on the port and start once more. */
    method Bind(reg: Registry, net: Network, retry: bool) returns (r: Outcome<string>)
      requires !IsRegistered(reg.entries, proxyId)
      modifies this, reg, net
      ensures Started(r, World(reg.entries, net.State()), server)
              == StartSpec(net.bind, old(World(reg.entries, net.State())), old(server), proxyId, port,
                           FormatRemote(old(Address())), retry)
      ensures remoteHost == old(remoteHost) && remotePort == old(remotePort)
      decreases if retry then 1 else 0, 1
    {
      StartUnregistered(net.bind, World(reg.entries, net.State()), server, proxyId, port, FormatRemote(Address()), retry);
      var answer, l := net.StartServer(port);
      if answer.Bound? {
        server := Some(l);
        reg.Put(Entry(proxyId, port, FormatRemote(Address()), l));
        return Pass;
      }
      if !(retry && AddressInUse(answer)) {
        return Fail(answer.message);
      }
      r := Retry(reg, net, World(reg.entries, old(net.State())));
    }

    /** The cleanup branch of start(retry=True), entered after the failed bind that followed `w0`:
        stop the first other id registered on the port and start once more without retry, or
        fail when there is none. */
    method Retry(reg: Registry, net: Network, ghost w0: World) returns (r: Outcome<string>)
      requires !IsRegistered(w0.entries, proxyId) && AddressInUse(net.bind(w0.net.binds, port))
      requires World(reg.entries, net.State()) == World(w0.entries, w0.net.(binds := w0.net.binds + 1))
      modifies this, reg, net
      ensures Started(r, World(reg.entries, net.State()), server)
              == StartSpec(net.bind, w0, old(server), proxyId, port, FormatRemote(old(Address())), true)
      ensures remoteHost == old(remoteHost) && remotePort == old(remotePort)
      decreases 1, 0
    {
      var conflict := FindConflict(reg.entries, port, proxyId);
      if conflict.None? {
        return Fail(CleanupFailedMessage(port));
      }
      StopProxyHandler(reg, net, reg.entries[conflict.value].id);
      r := Start(reg, net, false);
    }

    /** restart(new_remote): adopt a non-empty new address (the host is taken before the port
        is parsed, so a bad port leaves the new host and raises), then stop and start. */
    method Restart(reg: Registry, net: Network, newRemote: Option<string>) returns (r: Outcome<string>)
      modifies this, reg, net
      ensures newRemote.Some? && newRemote.value != "" ==> remoteHost == RemoteHost(newRemote.value)
      ensures newRemote.Some? && newRemote.value != "" && RemotePort(newRemote.value).Failure? ==>
                r == Fail(RemotePort(newRemote.value).error) && remotePort == old(remotePort)
                && reg.entries == old(reg.entries) && net.State() == old(net.State())
      ensures (newRemote.None? || newRemote.value == "" || RemotePort(newRemote.value).Success?) ==>
                remoteHost == (if newRemote.None? || newRemote.value == "" then old(remoteHost) else RemoteHost(newRemote.value))
                && remotePort == (if newRemote.None? || newRemote.value == "" then old(remotePort) else RemotePort(newRemote.value).value)
                && Started(r, World(reg.entries, net.State()), server)
                   == StartSpec(net.bind, StopHandler(old(World(reg.entries, net.State())), proxyId, old(server)),
                                old(server), proxyId, port, FormatRemote(Address()), true)
    {
      if newRemote.Some? && newRemote.value != "" {
        remoteHost := RemoteHost(newRemote.value);
        var p := RemotePort(newRemote.value);
        if p.Failure? {
          return Fail(p.error);
        }
        remotePort := p.value;
      }
      Stop(reg, net);
      r := Start(reg, net, true);
    }
  }

  /** The loop over list(proxy_servers.items()) in start(): the position of the first entry
      under another id that holds `port`. */
  method FindConflict(snapshot: seq<Entry>, port: int, self: int) returns (r: Option<nat>)
    ensures r == FirstConflict(snapshot, port, self)
  {
    var k := 0;
    while k < |snapshot| && !(snapshot[k].port == port && snapshot[k].id != self)
      invariant 0 <= k <= |snapshot|
      invariant FirstConflict(snapshot[k..], port, self).Some? ==>
                  FirstConflict(snapshot, port, self) == Some(k + FirstConflict(snapshot[k..], port, self).value)
      invariant FirstConflict(snapshot[k..], port, self).None? ==> FirstConflict(snapshot, port, self).None?
    {
      assert snapshot[k..][1..] == snapshot[k + 1..];
      k := k + 1;
    }
    if k == |snapshot| {
      return None;
    }
    return Some(k);
  }

  /** start_proxy_handler(id, port, remote). */
  method StartProxyHandler(reg: Registry, net: Network, id: int, port: int, remote: Option<string>)
    returns (r: Outcome<string>)
    modifies reg, net
    ensures var s := StartHandlerSpec(net.bind, old(World(reg.entries, net.State())), id, port, remote);
      r == s.outcome && World(reg.entries, net.State()) == s.world
  {
    var parsed := ParseRemote(remote);
    if parsed.Failure? {
      return Fail(parsed.error);
    }
    var handler := new RawProxyHandler(id, port, parsed.value);
    r := handler.Start(reg, net, true);
  }

  /** stop_proxy_handler(pid). */
  method StopProxyHandler(reg: Registry, net: Network, pid: int)
    modifies reg, net
    ensures World(reg.entries, net.State()) == StopById(old(World(reg.entries, net.State())), pid)
  {
    var found := Lookup(reg.entries, pid);
    if found.Some? {
      net.Close(found.value.listener);
      reg.Delete(pid);
    }
  }

  /** restart_proxy_handler(id, port, remote). */
  method RestartProxyHandler(reg: Registry, net: Network, id: int, port: int, remote: Option<string>)
    returns (r: Outcome<string>)
    modifies reg, net
    ensures var s := RestartHandlerSpec(net.bind, old(World(reg.entries, net.State())), id, port, remote);
      r == s.outcome && World(reg.entries, net.State()) == s.world
  {
    StopProxyHandler(reg, net, id);
    r := StartProxyHandler(reg, net, id, port, remote);
  }

  /** cleanup_all_proxies(): stops every registered relay, leaving the registry empty and
      every registered listener closed. */
  method CleanupAllProxies(reg: Registry, net: Network)
    requires UniqueIds(reg.entries)
    modifies reg, net
    ensures reg.entries == []
    ensures net.State() == old(net.State()).(open := old(net.open) - ListenersOf(old(reg.entries)))
  {
    var ids := seq(|reg.entries|, i requires 0 <= i < |reg.entries| reads reg => reg.entries[i].id);
    ghost var snapshot := reg.entries;
    for i := 0 to |ids|
      invariant reg.entries == snapshot[i..]
      invariant net.State() == old(net.State()).(open := old(net.open) - ListenersOf(snapshot[..i]))
    {
      assert ids[i] == snapshot[i].id;
      StopProxyHandler(reg, net, ids[i]);
      CleanupStep(snapshot, i, old(net.State()));
    }
    assert snapshot[..|ids|] == snapshot;
  }

  /** One iteration of cleanup_all_proxies: stopping the first remaining id drops the first
      remaining entry and closes its listener. */
  lemma {:induction false} CleanupStep(snapshot: seq<Entry>, i: nat, n0: Net)
    requires UniqueIds(snapshot) && i < |snapshot|
    ensures StopById(World(snapshot[i..], n0.(open := n0.open - ListenersOf(snapshot[..i]))), snapshot[i].id)
              == World(snapshot[i + 1..], n0.(open := n0.open - ListenersOf(snapshot[..i + 1])))
  {
    var rest := snapshot[i..];
    assert rest[0] == snapshot[i] && rest[1..] == snapshot[i + 1..];
    UniqueIdsSuffix(snapshot, i);
    RemoveHead(rest);
    assert Lookup(rest, snapshot[i].id) == Some(snapshot[i]);
    assert ListenersOf(snapshot[..i + 1]) == ListenersOf(snapshot[..i]) + {snapshot[i].listener} by {
      assert snapshot[..i + 1] == snapshot[..i] + [snapshot[i]];
    }
  }

  lemma {:induction false} UniqueIdsSuffix(es: seq<Entry>, i: nat)
    requires UniqueIds(es) && i <= |es|
    ensures UniqueIds(es[i..])
  {
    forall a, b | 0 <= a < b < |es[i..]| ensures es[i..][a].id != es[i..][b].id
    {
      assert es[i..][a] == es[i + a] && es[i..][b] == es[i + b];
    }
  }

  /** With unique ids, deleting the first key removes exactly the first entry. */
  lemma {:induction false} RemoveHead(es: seq<Entry>)
    requires UniqueIds(es) && es != []
    ensures RemoveEntry(es, es[0].id) == es[1..]
  {
    UniqueIdsTail(es);
    assert RemoveEntry(es[1..], es[0].id) == es[1..];
  }
}
