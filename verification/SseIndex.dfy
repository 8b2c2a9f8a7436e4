/** The index of open event streams: a map of mutable sets that close handlers have captured. After any sequence of
    connects and disconnects it holds exactly the pairs that a plain relation, computed from that sequence, says are
    open. */
module SseIndex {

  class Connection {
    var written: seq<string>

    constructor ()
      ensures written == []
    {
      written := [];
    }
  }

  /** The `Set` of one routing id: an object that the map and the close handlers share. */
  class Tabs {
    var members: set<Connection>

    constructor ()
      ensures members == {}
    {
      members := {};
    }
  }

  type Pair = (string, Connection)

  const CONNECTED := "event: CONNECTED"

  // ── The relation ──

  datatype Happening = Added(id: string, c: Connection) | Closed(c: Connection)

  /** The open pairs: a connection is added under an id, again or for the first time, and leaves all its ids when it
      closes. */
  ghost function Open(history: seq<Happening>): set<Pair> {
    if history == [] then {} else
    Next(Open(history[..|history| - 1]), history[|history| - 1])
  }

  function Next(open: set<Pair>, e: Happening): set<Pair> {
    if e.Added? then open + {(e.id, e.c)} else set p | p in open && p.1 != e.c
  }

  lemma OpenNext(history: seq<Happening>, next: Happening)
    ensures Open(history + [next]) == Next(Open(history), next)
  {
    assert (history + [next])[..|history|] == history;
  }

  /** A pair is open exactly when it has been added and its connection has not closed since. */
  lemma {:induction false} OpenExactly(history: seq<Happening>, id: string, c: Connection)
    ensures (id, c) in Open(history) <==>
            exists i :: 0 <= i < |history| && history[i] == Added(id, c)
                        && forall j :: i < j < |history| ==> history[j] != Closed(c)
  {
    if history != [] {
      var p, last := history[..|history| - 1], history[|history| - 1];
      OpenExactly(p, id, c);
      assert forall i :: 0 <= i < |p| ==> history[i] == p[i];
      if (id, c) in Open(p) && last != Closed(c) {
        var i :| 0 <= i < |p| && p[i] == Added(id, c) && forall j :: i < j < |p| ==> p[j] != Closed(c);
        assert history[i] == Added(id, c);
      }
      if i :| 0 <= i < |history| && history[i] == Added(id, c)
              && forall j :: i < j < |history| ==> history[j] != Closed(c)
      {
        assert i < |p| ==> p[i] == Added(id, c) && last == history[|history| - 1] != Closed(c);
      }
    }
  }

  // ── The index as a plain map ──

  type Groups = map<string, set<Connection>>

  /** The groups hold exactly these pairs, and none is empty. */
  ghost predicate Fits(groups: Groups, open: set<Pair>) {
    && (forall p :: p in open ==> p.0 in groups && p.1 in groups[p.0])
    && (forall id, c :: id in groups && c in groups[id] ==> (id, c) in open)
    && (forall id :: id in groups ==> groups[id] != {})
  }

  function With(groups: Groups, id: string, c: Connection): Groups {
    groups[id := (if id in groups then groups[id] else {}) + {c}]
  }

  /** `set.delete(c)`, and the id goes with its last member. */
  function Gone(groups: Groups, id: string, c: Connection): Groups {
    if id !in groups then groups
    else if groups[id] - {c} == {} then groups - {id}
    else groups[id := groups[id] - {c}]
  }

  lemma FitsWith(groups: Groups, open: set<Pair>, id: string, c: Connection)
    requires Fits(groups, open)
    ensures Fits(With(groups, id, c), open + {(id, c)})
  {
  }

  lemma FitsGone(groups: Groups, open: set<Pair>, id: string, c: Connection)
    requires Fits(groups, open)
    ensures Fits(Gone(groups, id, c), open - {(id, c)})
  {
    var g, o := Gone(groups, id, c), open - {(id, c)};
    forall p | p in o ensures p.0 in g && p.1 in g[p.0] {
      assert p in open && (p.0 == id ==> p.1 in groups[id] - {c});
    }
  }

  // ── The index ──

  /** A registered close handler with the set it captured. */
  datatype Handler = Handler(id: string, res: Connection, tabs: Tabs)

  function PairsOf(handlers: seq<Handler>): set<Pair> {
    set h | h in handlers :: (h.id, h.res)
  }

  lemma PairsMore(handlers: seq<Handler>, h: Handler)
    ensures PairsOf(handlers + [h]) == PairsOf(handlers) + {(h.id, h.res)}
  {
    assert forall g :: g in handlers + [h] <==> g in handlers || g == h;
  }

  /** The groups after the connection's handlers among these have run. */
  function GoneAll(groups: Groups, run: seq<Handler>, res: Connection): Groups {
    if run == [] then groups else
    var before, h := GoneAll(groups, run[..|run| - 1], res), run[|run| - 1];
    if h.res == res then Gone(before, h.id, res) else before
  }

  lemma GoneAllNext(groups: Groups, run: seq<Handler>, h: Handler, res: Connection)
    ensures GoneAll(groups, run + [h], res) == if h.res == res then Gone(GoneAll(groups, run, res), h.id, res)
            else GoneAll(groups, run, res)
  {
    assert (run + [h])[..|run|] == run;
  }

  function Parted(open: set<Pair>, run: seq<Handler>, res: Connection): set<Pair> {
    set p | p in open && !(p.1 == res && p in PairsOf(run))
  }

  lemma {:induction false} FitsGoneAll(groups: Groups, open: set<Pair>, run: seq<Handler>, res: Connection)
    requires Fits(groups, open)
    ensures Fits(GoneAll(groups, run, res), Parted(open, run, res))
  {
    hide Fits, Gone;
    if run == [] {
      assert Parted(open, run, res) == open;
    } else {
      var p, h := run[..|run| - 1], run[|run| - 1];
      FitsGoneAll(groups, open, p, res);
      PairsMore(p, h);
      assert p + [h] == run;
      if h.res == res {
        FitsGone(GoneAll(groups, p, res), Parted(open, p, res), h.id, res);
        assert Parted(open, run, res) == Parted(open, p, res) - {(h.id, res)};
      } else {
        assert Parted(open, run, res) == Parted(open, p, res);
      }
    }
  }

  /** The handlers of the other connections. */
  function Others(handlers: seq<Handler>, res: Connection): (others: seq<Handler>)
    ensures (forall h :: h in others ==> h in handlers && h.res != res) && forall h :: h in handlers && h.res != res ==>
            h in others
  {
    if handlers == [] then [] else
    Others(handlers[..|handlers| - 1], res) + if handlers[|handlers| - 1].res == res then []
        else [handlers[|handlers| - 1]]
  }

  lemma OthersPairs(handlers: seq<Handler>, open: set<Pair>, res: Connection)
    requires PairsOf(handlers) == open
    ensures PairsOf(Others(handlers, res)) == Next(open, Closed(res)) == Parted(open, handlers, res)
  {
    forall p | p in Next(open, Closed(res)) ensures p in PairsOf(Others(handlers, res)) {
      var h :| h in handlers && (h.id, h.res) == p;
      assert h in Others(handlers, res);
    }
  }

  class SseManager {
    var clients: map<string, Tabs>
    var closeHandlers: seq<Handler>  // of open connections, in the order of registration
    ghost var history: seq<Happening>

    constructor ()
      ensures Valid() && clients == map[] && history == []
    {
      clients, closeHandlers, history := map[], [], [];
    }

    ghost function Index(): Groups
      reads this`clients, clients.Values
    {
      map id | id in clients :: clients[id].members
    }

    /** The index holds the open pairs, each with a handler that still captures the very set stored under its id. */
    ghost predicate Valid()
      reads this, clients.Values
    {
      Shared() && Captured(closeHandlers) && PairsOf(closeHandlers) == Open(history) && Fits(Index(), Open(history))
    }

    /** No set under two ids. */
    ghost predicate Shared()
      reads this`clients
    {
      forall id, id' :: id in clients && id' in clients && clients[id] == clients[id'] ==> id == id'
    }

    ghost predicate Captured(handlers: seq<Handler>)
      reads this`clients
    {
      forall h :: h in handlers ==> h.id in clients && clients[h.id] == h.tabs
    }

    /** A connection may be added again under the same id: then it is greeted again and has one more handler. */
    method AddClient(routingId: string, res: Connection)
      requires Valid()
      modifies this, clients.Values, res
      ensures Valid() && history == old(history) + [Added(routingId, res)]
              && Index() == With(old(Index()), routingId, res)
      ensures res.written == old(res.written) + [CONNECTED]
      ensures routingId in clients && closeHandlers == old(closeHandlers) +
              [Handler(routingId, res, clients[routingId])]
      ensures forall id :: id in clients ==> if id in old(clients) then clients[id] == old(clients)[id]
              else fresh(clients[id])
    {
      hide Open, Fits, PairsOf, Captured, Next, Index, Shared;
      OpenNext(history, Added(routingId, res));
      FitsWith(Index(), Open(history), routingId, res);
      NextAdded(Open(history), routingId, res);
      var tabs := Join(routingId, res);
      res.written := res.written + [CONNECTED];
      PairsMore(closeHandlers, Handler(routingId, res, tabs));
      CapturedMore(Handler(routingId, res, tabs), closeHandlers);
      closeHandlers, history := closeHandlers + [Handler(routingId, res, tabs)], history + [Added(routingId, res)];
    }

    /** The set of the id, a new one if need be, gets the connection. */
    method Join(routingId: string, res: Connection) returns (tabs: Tabs)
      requires Shared() && Captured(closeHandlers)
      modifies this`clients, clients.Values
      ensures Shared() && Captured(closeHandlers) && Index() == With(old(Index()), routingId, res)
      ensures routingId in clients && tabs == clients[routingId]
      ensures forall id :: id in clients ==> if id in old(clients) then clients[id] == old(clients)[id]
              else fresh(clients[id])
    {
      if routingId !in clients {
        var empty := new Tabs();
        clients := clients[routingId := empty];
      }
      tabs := clients[routingId];
      tabs.members := tabs.members + {res};
      assert Index() == With(old(Index()), routingId, res);
    }

    static lemma NextAdded(open: set<Pair>, id: string, c: Connection)
      ensures Next(open, Added(id, c)) == open + {(id, c)}
    {
    }

    lemma CapturedMore(h: Handler, handlers: seq<Handler>)
      requires Captured(handlers) && h.id in clients && clients[h.id] == h.tabs
      ensures Captured(handlers + [h])
    {
    }

    /** Run handlers find their set, or it has lost its last member and its place in the map. */
    ghost predicate Linked(h: Handler)
      reads this`clients, h.tabs
    {
      if h.id in clients then clients[h.id] == h.tabs else h.tabs.members == {} && h.tabs !in clients.Values
    }

    /** One close handler. */
    method OnClose(h: Handler, ghost all: seq<Handler>)
      requires Shared() && h in all && forall g :: g in all ==> Linked(g)
      modifies this`clients, h.tabs
      ensures Shared() && Index() == Gone(old(Index()), h.id, h.res) && clients.Keys <= old(clients).Keys
      ensures forall id :: id in clients ==> clients[id] == old(clients)[id]
      ensures forall g :: g in all ==> Linked(g)
    {
      h.tabs.members := h.tabs.members - {h.res};
      if h.tabs.members == {} {
        clients := clients - {h.id};
      }
      assert Index() == Gone(old(Index()), h.id, h.res);
    }

    /** A closing connection runs every handler registered on it, twice for an id it was added under twice. */
    method Disconnect(res: Connection)
      requires Valid()
      modifies this, clients.Values
      ensures Valid() && history == old(history) + [Closed(res)]
      ensures forall id :: id in clients ==> id in old(clients) && clients[id] == old(clients)[id]
    {
      hide Open, Fits, Linked, Index, Shared, PairsOf, Next, Captured;
      OpenNext(history, Closed(res));
      FitsGoneAll(Index(), Open(history), closeHandlers, res);
      OthersPairs(closeHandlers, Open(history), res);
      AllLinked();
      RunHandlers(res);
      StillCaptured(closeHandlers, res, Open(old(history)));
      closeHandlers, history := Others(closeHandlers, res), history + [Closed(res)];
    }

    method RunHandlers(res: Connection)
      requires Shared() && forall h :: h in closeHandlers ==> Linked(h)
      modifies this`clients, set h | h in closeHandlers :: h.tabs
      ensures Shared() && forall h :: h in closeHandlers ==> Linked(h)
      ensures Index() == GoneAll(old(Index()), closeHandlers, res)
      ensures forall id :: id in clients ==> id in old(clients) && clients[id] == old(clients)[id]
    {
      hide Linked, Index, Gone, GoneAll, Shared;
      ghost var groups := Index();
      GoneNone(groups, res);
      for i := 0 to |closeHandlers|
        invariant Shared() && forall h :: h in closeHandlers ==> Linked(h)
        invariant Index() == GoneAll(groups, closeHandlers[..i], res)
        invariant forall id :: id in clients ==> id in old(clients) && clients[id] == old(clients)[id]
      {
        var h := closeHandlers[i];
        assert closeHandlers[..i + 1] == closeHandlers[..i] + [h];
        GoneAllNext(groups, closeHandlers[..i], h, res);
        if h.res == res {
          OnClose(h, closeHandlers);
        }
      }
      assert closeHandlers[..|closeHandlers|] == closeHandlers;
    }

    static lemma GoneNone(groups: Groups, res: Connection)
      ensures GoneAll(groups, [], res) == groups
    {
    }

    lemma AllLinked()
      requires Captured(closeHandlers)
      ensures forall h :: h in closeHandlers ==> Linked(h) && h.tabs in clients.Values
    {
    }

    lemma StillCaptured(handlers: seq<Handler>, res: Connection, open: set<Pair>)
      requires (forall h :: h in handlers ==> Linked(h)) && PairsOf(handlers) == open
               && Fits(Index(), Next(open, Closed(res)))
      ensures Captured(Others(handlers, res))
    {
      forall h | h in Others(handlers, res) ensures h.id in clients && clients[h.id] == h.tabs {
        assert (h.id, h.res) in Next(open, Closed(res));
      }
    }

    /** Any sequence of connects and disconnects: the map holds exactly the pairs it leaves open. */
    method Serve(events: seq<Happening>)
      requires Valid()
      modifies this, clients.Values, set e | e in events && e.Added? :: e.c
      ensures Valid() && history == old(history) + events && Fits(Index(), Open(old(history) + events))
    {
      hide Valid, Open;
      for i := 0 to |events|
        invariant Valid() && history == old(history) + events[..i]
        invariant forall id :: id in clients ==> clients[id] in old(clients.Values) || fresh(clients[id])
      {
        assert events[..i + 1] == events[..i] + [events[i]];
        match events[i]
        case Added(id, c) => AddClient(id, c);
        case Closed(c) => Disconnect(c);
      }
      assert events[..|events|] == events;
      IndexIsOpen();
    }

    /** Before the shutdown the map of sets is the relation, grouped by routing id. */
    lemma IndexIsOpen()
      requires Valid()
      ensures Fits(Index(), Open(history))
      ensures forall id :: id in clients <==> exists c :: (id, c) in Open(history)
    {
      forall id | id in clients ensures exists c :: (id, c) in Open(history) {
        assert id in Index() && Index()[id] != {};
        var c :| c in Index()[id];
        assert (id, c) in Open(history);
      }
    }

    lemma Subscribed(routingId: string)
      requires Valid()
      ensures routingId in clients ==> forall c :: c in clients[routingId].members <==> (routingId, c) in Open(history)
      ensures routingId !in clients ==> forall p :: p in Open(history) ==> p.0 != routingId
      ensures routingId in clients ==> clients[routingId].members != {}
    {
      hide Open;
      if routingId in clients { assert Index()[routingId] == clients[routingId].members; }
    }

    /** Each subscribed connection gets the event once, no other gets anything, and the index does not change. */
    method BroadcastTo(routingId: string, payload: string)
      requires Valid()
      modifies set p: Pair | p in Open(history) && p.0 == routingId :: p.1
      ensures Valid() && unchanged(this) && unchanged(clients.Values)
      ensures forall id, c :: id in clients && c in clients[id].members ==>
                c.written == if (routingId, c) in Open(history) then old(c.written) + [payload] else old(c.written)
    {
      hide Open, Valid;
      Subscribed(routingId);
      if routingId !in clients || clients[routingId].members == {} {
        return;
      }
      var todo := clients[routingId].members;
      while todo != {}
        invariant todo <= clients[routingId].members && Valid()
        invariant forall c :: c in clients[routingId].members ==>
                    c.written == if c in todo then old(c.written) else old(c.written) + [payload]
        invariant forall id, c :: id in clients && c in clients[id].members && c !in clients[routingId].members ==>
                    c.written == old(c.written)
        decreases todo
      {
        var res :| res in todo;
        assert (routingId, res) in Open(history);
        res.written := res.written + [payload];
        todo := todo - {res};
      }
    }
  }
}
