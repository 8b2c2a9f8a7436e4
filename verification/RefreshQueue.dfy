/** The browser client's response interceptor: many requests may fail with 401 at once, one token refresh serves them
    all. */
module RefreshQueues {

  type Id = nat

  /** Where a request is. `Leading` awaits the refresh it started, `Queued` the refresh of another request. */
  datatype Stage = InFlight(isRetry: bool) | Leading | Queued | Resolved | Rejected

  datatype Reply = Success | Unauthorized | OtherError

  /** `refreshes` are the requests whose interceptor-issued refresh is in flight; `sent` and `settled` are histories. */
  datatype Client = Client(isRefreshing: bool, subscribers: seq<Id>, refreshes: seq<Id>, stage: map<Id, Stage>,
                           sent: seq<Id>, settled: seq<Id>)

  datatype Move =
    | Send(id: Id)
    | Respond(id: Id, reply: Reply, refreshUrl: bool)
    | RefreshDone(i: nat, success: bool)

  predicate Enabled(c: Client, m: Move) {
    match m
    case Send(id) => id !in c.stage
    case Respond(id, _, _) => id in c.stage && c.stage[id].InFlight?
    case RefreshDone(i, _) => i < |c.refreshes|
  }

  function Resend(c: Client, id: Id): Client {
    c.(stage := c.stage[id := InFlight(true)], sent := c.sent + [id])
  }

  function Settle(c: Client, id: Id, stage: Stage): Client {
    c.(stage := c.stage[id := stage], settled := c.settled + [id])
  }

  /** A response arrives: the first 401 of a request starts a refresh or joins the one under way. */
  function OnResponse(c: Client, id: Id, reply: Reply, refreshUrl: bool): Client
    requires id in c.stage && c.stage[id].InFlight?
  {
    if reply == Success then Settle(c, id, Resolved)
    else if reply == Unauthorized && !c.stage[id].isRetry && !refreshUrl then
      if c.isRefreshing then c.(stage := c.stage[id := Queued], subscribers := c.subscribers + [id])
      else c.(stage := c.stage[id := Leading], isRefreshing := true, refreshes := c.refreshes + [id])
    else Settle(c, id, Rejected)
  }

  /** One subscriber's callback. */
  function Callback(c: Client, id: Id, success: bool): Client {
    if success then Resend(c, id) else Settle(c, id, Rejected)
  }

  function Callbacks(c: Client, ids: seq<Id>, success: bool): Client {
    if ids == [] then c else Callback(Callbacks(c, ids[..|ids| - 1], success), ids[|ids| - 1], success)
  }

  /** The refresh answers: the flag falls, the subscribers are called and forgotten, then the request that
      started it. */
  function OnRefreshDone(c: Client, i: nat, success: bool): Client
    requires i < |c.refreshes|
  {
    var leader := c.refreshes[i];
    var called := Callbacks(c.(isRefreshing := false, refreshes := c.refreshes[..i] + c.refreshes[i + 1..]),
                            c.subscribers, success);
    Callback(called.(subscribers := []), leader, success)
  }

  function Step(c: Client, m: Move): Client
    requires Enabled(c, m)
  {
    match m
    case Send(id) => c.(stage := c.stage[id := InFlight(false)], sent := c.sent + [id])
    case Respond(id, reply, refreshUrl) => OnResponse(c, id, reply, refreshUrl)
    case RefreshDone(i, success) => OnRefreshDone(c, i, success)
  }

  const IDLE: Client := Client(false, [], [], map[], [], [])

  predicate RunOk(c: Client, moves: seq<Move>)
    decreases |moves|
  {
    moves != [] ==> Enabled(c, moves[0]) && RunOk(Step(c, moves[0]), moves[1..])
  }

  function After(c: Client, moves: seq<Move>): Client
    requires RunOk(c, moves)
    decreases |moves|
  {
    if moves == [] then c else After(Step(c, moves[0]), moves[1..])
  }

  // ── The interceptor ──

  class Interceptor {
    var client: Client

    constructor ()
      ensures client == IDLE && SingleFlight(client)
    {
      client := IDLE;
    }

    method OnRefreshComplete(success: bool)
      modifies this
      ensures client == Callbacks(old(client), old(client).subscribers, success).(subscribers := [])
    {
      var subscribers := client.subscribers;
      for k := 0 to |subscribers|
        invariant client == Callbacks(old(client), subscribers[..k], success)
      {
        if success {
          client := client.(stage := client.stage[subscribers[k] := InFlight(true)],
                            sent := client.sent + [subscribers[k]]);
        } else {
          client := client.(stage := client.stage[subscribers[k] := Rejected],
                            settled := client.settled + [subscribers[k]]);
        }
        assert subscribers[..k + 1][..k] == subscribers[..k];
      }
      assert subscribers[..|subscribers|] == subscribers;
      client := client.(subscribers := []);
    }

    method HandleRefreshDone(i: nat, success: bool)
      requires i < |client.refreshes|
      modifies this
      ensures client == OnRefreshDone(old(client), i, success)
      ensures SingleFlight(old(client)) ==> SingleFlight(client)
    {
      if SingleFlight(client) { RefreshDoneKeeps(client, i, success); }
      var leader := client.refreshes[i];
      client := client.(isRefreshing := false, refreshes := client.refreshes[..i] + client.refreshes[i + 1..]);
      OnRefreshComplete(success);
      if success {
        client := client.(stage := client.stage[leader := InFlight(true)], sent := client.sent + [leader]);
      } else {
        client := client.(stage := client.stage[leader := Rejected], settled := client.settled + [leader]);
      }
    }

    method HandleResponse(id: Id, reply: Reply, refreshUrl: bool)
      requires id in client.stage && client.stage[id].InFlight?
      modifies this
      ensures client == OnResponse(old(client), id, reply, refreshUrl)
      ensures reply == Unauthorized && !refreshUrl && !old(client).stage[id].isRetry ==>
                && client.isRefreshing && client.settled == old(client).settled && client.sent == old(client).sent
                && (if old(client).isRefreshing then
                      client.stage == old(client).stage[id := Queued] && client.refreshes == old(client).refreshes
                      && client.subscribers == old(client).subscribers + [id]
                    else
                      client.stage == old(client).stage[id := Leading]
                      && client.refreshes == old(client).refreshes + [id]
                      && client.subscribers == old(client).subscribers)
      ensures reply != Unauthorized || refreshUrl || old(client).stage[id].isRetry ==>
                var stage := if reply == Success then Resolved else Rejected;
                client == old(client).(stage := old(client).stage[id := stage],
                                       settled := old(client).settled + [id])
      ensures SingleFlight(old(client)) ==> SingleFlight(client)
    {
      if SingleFlight(client) { ResponseKeeps(client, id, reply, refreshUrl); }
      if reply == Success {
        client := client.(stage := client.stage[id := Resolved], settled := client.settled + [id]);
        return;
      }
      if reply == Unauthorized && !client.stage[id].isRetry {
        if refreshUrl {
          client := client.(stage := client.stage[id := Rejected], settled := client.settled + [id]);
          return;
        }
        if client.isRefreshing {
          client := client.(stage := client.stage[id := Queued], subscribers := client.subscribers + [id]);
          return;
        }
        client := client.(stage := client.stage[id := Leading], isRefreshing := true,
                          refreshes := client.refreshes + [id]);
        return;
      }
      client := client.(stage := client.stage[id := Rejected], settled := client.settled + [id]);
    }
  }

  // ── The invariant ──

  function Times(s: seq<Id>, id: Id): nat {
    multiset(s)[id]
  }

  /** How often a request in a stage has been sent, at most, and settled, exactly. */
  predicate HistoryOk(c: Client, id: Id) {
    if id !in c.stage then Times(c.sent, id) == 0 && Times(c.settled, id) == 0
    else match c.stage[id]
         case InFlight(isRetry) => Times(c.sent, id) == (if isRetry then 2 else 1) && Times(c.settled, id) == 0
         case Leading | Queued => Times(c.sent, id) == 1 && Times(c.settled, id) == 0
         case Resolved | Rejected => 1 <= Times(c.sent, id) <= 2 && Times(c.settled, id) == 1
  }

  ghost predicate SingleFlight(c: Client) {
    && |c.refreshes| == (if c.isRefreshing then 1 else 0)
    && (!c.isRefreshing ==> c.subscribers == [])
    && (forall id :: id in c.subscribers <==> id in c.stage && c.stage[id] == Queued)
    && (forall id :: id in c.refreshes <==> id in c.stage && c.stage[id] == Leading)
    && (forall i, j :: 0 <= i < j < |c.subscribers| ==> c.subscribers[i] != c.subscribers[j])
    && (forall id :: HistoryOk(c, id))
  }

  /** What the callbacks do to one request. */
  ghost predicate Called(c: Client, d: Client, ids: seq<Id>, success: bool, id: Id) {
    && (id in d.stage <==> id in c.stage || id in ids)
    && (id in d.stage ==>
          d.stage[id] == if id in ids then (if success then InFlight(true) else Rejected) else c.stage[id])
    && Times(d.sent, id) == Times(c.sent, id) + (if success && id in ids then 1 else 0)
    && Times(d.settled, id) == Times(c.settled, id) + (if !success && id in ids then 1 else 0)
  }

  lemma CalledOnce(c: Client, d: Client, p: seq<Id>, last: Id, success: bool, id: Id)
    requires Called(c, d, p, success, id) && last !in p
    ensures Called(c, Callback(d, last, success), p + [last], success, id)
  {
  }

  lemma {:induction false} CallbacksDo(c: Client, ids: seq<Id>, success: bool)
    requires forall i, j :: 0 <= i < j < |ids| ==> ids[i] != ids[j]
    ensures var d := Callbacks(c, ids, success);
            && d.isRefreshing == c.isRefreshing && d.subscribers == c.subscribers && d.refreshes == c.refreshes
            && forall id :: Called(c, d, ids, success, id)
  {
    if ids != [] {
      var p, last := ids[..|ids| - 1], ids[|ids| - 1];
      CallbacksDo(c, p, success);
      assert ids == p + [last] && last !in p;
      forall id ensures Called(c, Callbacks(c, ids, success), ids, success, id) {
        CalledOnce(c, Callbacks(c, p, success), p, last, success, id);
      }
    }
  }

  predicate Waits(c: Client, id: Id) {
    id in c.stage && (c.stage[id] == Leading || c.stage[id] == Queued)
  }

  /** A finished refresh moves every waiting request on, and no other. */
  ghost predicate MovedOn(c: Client, d: Client, success: bool, id: Id) {
    && (id in d.stage <==> id in c.stage)
    && (id in c.stage ==>
          d.stage[id] == if Waits(c, id) then (if success then InFlight(true) else Rejected) else c.stage[id])
    && Times(d.sent, id) == Times(c.sent, id) + (if success && Waits(c, id) then 1 else 0)
    && Times(d.settled, id) == Times(c.settled, id) + (if !success && Waits(c, id) then 1 else 0)
  }

  lemma RefreshDoneDoes(c: Client, i: nat, success: bool)
    requires SingleFlight(c) && i < |c.refreshes|
    ensures var d := OnRefreshDone(c, i, success);
            && !d.isRefreshing && d.subscribers == [] && d.refreshes == [] && Waits(c, c.refreshes[i])
            && forall id :: MovedOn(c, d, success, id)
  {
    hide HistoryOk, Callback;
    var leader := c.refreshes[i];
    var start := c.(isRefreshing := false, refreshes := c.refreshes[..i] + c.refreshes[i + 1..]);
    CallbacksDo(start, c.subscribers, success);
    assert c.refreshes == [leader] && leader in c.refreshes;
    CallbackKeeps(Callbacks(start, c.subscribers, success).(subscribers := []), leader, success);
    forall id ensures MovedOn(c, OnRefreshDone(c, i, success), success, id) {
      assert id in c.refreshes <==> id in c.stage && c.stage[id] == Leading;
      assert id in c.subscribers <==> id in c.stage && c.stage[id] == Queued;
      assert Called(start, Callbacks(start, c.subscribers, success), c.subscribers, success, id);
      OneMoved(c, Callbacks(start, c.subscribers, success), leader, success, id);
    }
  }

  lemma CallbackKeeps(c: Client, id: Id, success: bool)
    ensures var d := Callback(c, id, success);
            && d.isRefreshing == c.isRefreshing && d.subscribers == c.subscribers && d.refreshes == c.refreshes
  {
  }

  lemma OneMoved(c: Client, d: Client, leader: Id, success: bool, id: Id)
    requires Called(c, d, c.subscribers, success, id) && leader in c.stage && c.stage[leader] == Leading
    requires id in c.subscribers <==> id in c.stage && c.stage[id] == Queued
    requires id == leader <==> id in c.stage && c.stage[id] == Leading
    ensures MovedOn(c, Callback(d.(subscribers := []), leader, success), success, id)
  {
  }

  lemma RefreshDoneKeeps(c: Client, i: nat, success: bool)
    requires SingleFlight(c) && i < |c.refreshes|
    ensures SingleFlight(OnRefreshDone(c, i, success))
  {
    hide OnRefreshDone;
    var d := OnRefreshDone(c, i, success);
    RefreshDoneDoes(c, i, success);
    forall id ensures HistoryOk(d, id) && (id in d.stage ==> d.stage[id] != Leading && d.stage[id] != Queued) {
      assert HistoryOk(c, id) && MovedOn(c, d, success, id);
    }
  }

  lemma ResponseHistory(c: Client, id: Id, reply: Reply, refreshUrl: bool, k: Id)
    requires HistoryOk(c, k) && HistoryOk(c, id) && id in c.stage && c.stage[id].InFlight?
    ensures HistoryOk(OnResponse(c, id, reply, refreshUrl), k)
  {
  }

  lemma ResponseKeeps(c: Client, id: Id, reply: Reply, refreshUrl: bool)
    requires SingleFlight(c) && id in c.stage && c.stage[id].InFlight?
    ensures SingleFlight(OnResponse(c, id, reply, refreshUrl))
  {
    hide HistoryOk;
    var d := OnResponse(c, id, reply, refreshUrl);
    assert id !in c.subscribers && id !in c.refreshes;
    forall k ensures HistoryOk(d, k) {
      ResponseHistory(c, id, reply, refreshUrl, k);
    }
    forall k ensures k in d.subscribers <==> k in d.stage && d.stage[k] == Queued {
      assert k in c.subscribers <==> k in c.stage && c.stage[k] == Queued;
    }
    forall k ensures k in d.refreshes <==> k in d.stage && d.stage[k] == Leading {
      assert k in c.refreshes <==> k in c.stage && c.stage[k] == Leading;
    }
  }

  lemma SendKeeps(c: Client, id: Id)
    requires SingleFlight(c) && id !in c.stage
    ensures SingleFlight(Step(c, Send(id)))
  {
    var d := Step(c, Send(id));
    forall k ensures HistoryOk(d, k) {
      assert HistoryOk(c, k);
    }
    forall k ensures k in d.subscribers <==> k in d.stage && d.stage[k] == Queued {
      assert k in c.subscribers <==> k in c.stage && c.stage[k] == Queued;
    }
    forall k ensures k in d.refreshes <==> k in d.stage && d.stage[k] == Leading {
      assert k in c.refreshes <==> k in c.stage && c.stage[k] == Leading;
    }
  }

  /** Single flight: over any arrival order of responses, at most one refresh is in flight, nobody waits for a refresh
      that is not, every request is sent at most twice and settles at most once. */
  lemma {:induction false} SingleFlightAlways(c: Client, moves: seq<Move>)
    requires SingleFlight(c) && RunOk(c, moves)
    ensures var d := After(c, moves);
            && SingleFlight(d)
            && |d.refreshes| <= 1 && (d.refreshes == [] ==> d.subscribers == [])
            && forall id :: Times(d.sent, id) <= 2 && Times(d.settled, id) <= 1
    decreases |moves|
  {
    hide SingleFlight, Step, Enabled;
    if moves == [] {
      AtMost(c);
    } else {
      StepKeeps(c, moves[0]);
      SingleFlightAlways(Step(c, moves[0]), moves[1..]);
    }
  }

  lemma AtMost(c: Client)
    requires SingleFlight(c)
    ensures |c.refreshes| <= 1 && (c.refreshes == [] ==> c.subscribers == [])
    ensures forall id :: Times(c.sent, id) <= 2 && Times(c.settled, id) <= 1
  {
    forall id ensures Times(c.sent, id) <= 2 && Times(c.settled, id) <= 1 {
      assert HistoryOk(c, id);
    }
  }

  lemma StepKeeps(c: Client, m: Move)
    requires SingleFlight(c) && Enabled(c, m)
    ensures SingleFlight(Step(c, m))
  {
    hide SingleFlight, OnResponse, OnRefreshDone;
    match m
    case Send(id) => SendKeeps(c, id);
    case Respond(id, reply, refreshUrl) => ResponseKeeps(c, id, reply, refreshUrl);
    case RefreshDone(i, success) => RefreshDoneKeeps(c, i, success);
  }

  // ── Every run ends ──

  /** How many steps a request can still take. */
  function Left(stage: Stage): nat {
    match stage
    case InFlight(isRetry) => if isRetry then 1 else 3
    case Leading | Queued => 2
    case Resolved | Rejected => 0
  }

  function Measure(stage: map<Id, Stage>): nat {
    Sum(stage, stage.Keys)
  }

  function Sum(stage: map<Id, Stage>, ids: set<Id>): nat
    requires ids <= stage.Keys
    decreases |ids|
  {
    if ids == {} then 0 else
    var id := Pick(ids);
    Left(stage[id]) + Sum(stage, ids - {id})
  }

  function Pick(ids: set<Id>): (x: Id)
    requires ids != {}
    ensures x in ids && forall y :: y in ids ==> x <= y
  {
    PickExists(ids);
    var x :| x in ids && forall y :: y in ids ==> x <= y;
    x
  }

  lemma PickExists(ids: set<Id>)
    requires ids != {}
    ensures exists x :: x in ids && forall y :: y in ids ==> x <= y
    decreases |ids|
  {
    var a :| a in ids;
    if ids - {a} == {} {
      assert ids == {a};
    } else {
      PickExists(ids - {a});
      var x :| x in ids - {a} && forall y :: y in ids - {a} ==> x <= y;
      var least := if a < x then a else x;
      assert forall y :: y in ids ==> y == a || y in ids - {a};
      assert least in ids && forall y :: y in ids ==> least <= y;
    }
  }

  /** No request takes more steps than before, and one takes fewer. */
  lemma {:induction false} SumFalls(before: map<Id, Stage>, after: map<Id, Stage>, ids: set<Id>, moved: Id)
    requires ids <= before.Keys && ids <= after.Keys
    requires forall id :: id in ids ==> Left(after[id]) <= Left(before[id])
    ensures Sum(after, ids) <= Sum(before, ids)
    ensures moved in ids && Left(after[moved]) < Left(before[moved]) ==> Sum(after, ids) < Sum(before, ids)
    decreases |ids|
  {
    if ids != {} { SumFalls(before, after, ids - {Pick(ids)}, moved); }
  }

  /** Every move but a new request brings the client closer to rest. */
  lemma MovesEnd(c: Client, m: Move)
    requires SingleFlight(c) && Enabled(c, m) && !m.Send?
    ensures Measure(Step(c, m).stage) < Measure(c.stage)
  {
    hide OnRefreshDone, Sum, SingleFlight;
    match m
    case Respond(id, reply, refreshUrl) =>
      SumFalls(c.stage, OnResponse(c, id, reply, refreshUrl).stage, c.stage.Keys, id);
      assert OnResponse(c, id, reply, refreshUrl).stage.Keys == c.stage.Keys;
    case RefreshDone(i, success) =>
      RefreshDoneDoes(c, i, success);
      var d := OnRefreshDone(c, i, success);
      assert MovedOn(c, d, success, c.refreshes[i]);
      forall id
        ensures (id in d.stage <==> id in c.stage) && (id in c.stage ==> Left(d.stage[id]) <= Left(c.stage[id]))
      {
        assert MovedOn(c, d, success, id);
      }
      assert d.stage.Keys == c.stage.Keys;
      SumFalls(c.stage, OnRefreshDone(c, i, success).stage, c.stage.Keys, c.refreshes[i]);
  }

  /** Nothing waits for ever: while a request is unsettled some response or refresh is still due. */
  lemma RestMeansSettled(c: Client)
    requires SingleFlight(c)
    requires forall m :: Enabled(c, m) ==> m.Send?
    ensures forall id :: id in c.stage ==> c.stage[id] in {Resolved, Rejected} && Times(c.settled, id) == 1
    ensures !c.isRefreshing && c.subscribers == []
  {
    assert c.isRefreshing ==> Enabled(c, RefreshDone(0, true));
    forall id | id in c.stage ensures c.stage[id] in {Resolved, Rejected} && Times(c.settled, id) == 1 {
      assert HistoryOk(c, id);
      assert c.stage[id].InFlight? == Enabled(c, Respond(id, Success, false));
      assert c.stage[id] == Queued ==> id in c.subscribers;
      assert c.stage[id] == Leading ==> id in c.refreshes;
    }
  }

  /** A run without new requests has at most as many moves as the measure allows. */
  lemma {:induction false} RunsEnd(c: Client, moves: seq<Move>)
    requires SingleFlight(c) && RunOk(c, moves) && forall i :: 0 <= i < |moves| ==> !moves[i].Send?
    ensures |moves| <= Measure(c.stage)
    decreases |moves|
  {
    hide SingleFlight, Step, Enabled;
    if moves != [] {
      StepKeeps(c, moves[0]);
      MovesEnd(c, moves[0]);
      RunsEnd(Step(c, moves[0]), moves[1..]);
    }
  }
}
