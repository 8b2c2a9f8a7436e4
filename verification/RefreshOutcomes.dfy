/** What becomes of each request: its replies and the refresh it waited for decide, and nothing else. */
module RefreshOutcomes {
  import opened RefreshQueues

  /** The replies a request has had, in order. */
  function Replies(moves: seq<Move>, id: Id): seq<Move> {
    if moves == [] then [] else
    var last := moves[|moves| - 1];
    Replies(moves[..|moves| - 1], id) + if last.Respond? && last.id == id then [last] else []
  }

  /** How the first refresh ended that finished after the first reply, if one has. */
  datatype Wait = NotYet | Renewed | Expired

  /** How the first refresh ended that finished after the first reply, if one has. */
  function Awaited(moves: seq<Move>, id: Id): Wait {
    if moves == [] then NotYet else
    var before, last := moves[..|moves| - 1], moves[|moves| - 1];
    if Awaited(before, id) != NotYet then Awaited(before, id)
    else if last.RefreshDone? && Replies(before, id) != [] then (if last.success then Renewed else Expired)
    else NotYet
  }

  /** A 401 outside the refresh URL. */
  predicate Refused(reply: Move) {
    reply.Respond? && reply.reply == Unauthorized && !reply.refreshUrl
  }

  predicate Succeeds(replies: seq<Move>) {
    replies != [] && var last := replies[|replies| - 1]; last.Respond? && last.reply == Success
  }

  /** The last reply was another error, or a 401 on the retry or on the refresh URL, or a first 401 whose refresh
      failed. */
  predicate Fails(replies: seq<Move>, awaited: Wait) {
    replies != [] &&
    var last := replies[|replies| - 1];
    last.Respond? &&
    (last.reply == OtherError
     || (last.reply == Unauthorized && (last.refreshUrl || |replies| == 2 || awaited == Expired)))
  }

  /** What the replies and the refresh say about a request: where it is, and how often it was sent. */
  predicate ToldBy(stage: Stage, sent: nat, replies: seq<Move>, awaited: Wait) {
    && |replies| <= 2 && (replies == [] ==> awaited == NotYet) && (|replies| == 2 ==> Refused(replies[0]) && sent == 2)
    && match stage
       case InFlight(isRetry) =>
         if isRetry then |replies| == 1 && Refused(replies[0]) && awaited == Renewed else replies == []
       case Leading | Queued => |replies| == 1 && Refused(replies[0]) && awaited == NotYet
       case Resolved => Succeeds(replies)
       case Rejected => Fails(replies, awaited)
  }

  predicate Told(c: Client, moves: seq<Move>, id: Id) {
    if id in c.stage then ToldBy(c.stage[id], Times(c.sent, id), Replies(moves, id), Awaited(moves, id))
    else Replies(moves, id) == [] && Awaited(moves, id) == NotYet
  }

  lemma OneMoreMove(moves: seq<Move>, m: Move, id: Id)
    ensures Replies(moves + [m], id) == Replies(moves, id) + if m.Respond? && m.id == id then [m] else []
    ensures Awaited(moves + [m], id) ==
            if Awaited(moves, id) != NotYet then Awaited(moves, id)
            else if m.RefreshDone? && Replies(moves, id) != [] then (if m.success then Renewed else Expired)
            else NotYet
  {
    assert (moves + [m])[..|moves|] == moves;
  }

  lemma StepTold(c: Client, moves: seq<Move>, m: Move, id: Id)
    requires SingleFlight(c) && Enabled(c, m) && Told(c, moves, id)
    ensures Told(Step(c, m), moves + [m], id)
  {
    hide Replies, Awaited, SingleFlight, Told, Step;
    match m
    case Send(_) => AfterSend(c, moves, m, id);
    case Respond(_, _, _) => AfterResponse(c, moves, m, id);
    case RefreshDone(_, _) => AfterRefresh(c, moves, m, id);
  }

  lemma AfterSend(c: Client, moves: seq<Move>, m: Move, id: Id)
    requires m.Send? && Enabled(c, m) && Told(c, moves, id)
    ensures Told(Step(c, m), moves + [m], id)
  {
    OneMoreMove(moves, m, id);
    hide Replies, Awaited;
  }

  lemma AfterResponse(c: Client, moves: seq<Move>, m: Move, id: Id)
    requires SingleFlight(c) && m.Respond? && Enabled(c, m) && Told(c, moves, id)
    ensures Told(Step(c, m), moves + [m], id)
  {
    hide *;
    ToldMeans(c, moves, id);
    OneMoreMove(moves, m, id);
    assert Replies(moves, id) + [] == Replies(moves, id);
    Responds(c, m, id);
    if m.id == id { RespondTold(c, m, Replies(moves, id), Awaited(moves, id)); }
    ToldMeans(Step(c, m), moves + [m], id);
  }

  lemma AfterRefresh(c: Client, moves: seq<Move>, m: Move, id: Id)
    requires SingleFlight(c) && m.RefreshDone? && Enabled(c, m) && Told(c, moves, id)
    ensures Told(Step(c, m), moves + [m], id)
  {
    hide *;
    ToldMeans(c, moves, id);
    OneMoreMove(moves, m, id);
    assert Replies(moves, id) + [] == Replies(moves, id);
    Renews(c, m, id);
    MovedTold(c, Step(c, m), id, Replies(moves, id), Awaited(moves, id), m.success);
    ToldMeans(Step(c, m), moves + [m], id);
  }

  lemma ToldMeans(c: Client, moves: seq<Move>, id: Id)
    ensures Told(c, moves, id) <==>
              if id in c.stage then ToldBy(c.stage[id], Times(c.sent, id), Replies(moves, id), Awaited(moves, id))
              else Replies(moves, id) == [] && Awaited(moves, id) == NotYet
  {
    hide ToldBy, Replies, Awaited, Times;
  }

  /** A response is to a request in flight and concerns no other request. */
  lemma Responds(c: Client, m: Move, id: Id)
    requires SingleFlight(c) && m.Respond? && Enabled(c, m)
    ensures m.id in c.stage && HistoryOk(c, m.id)
    ensures var d := Step(c, m);
            m.id != id ==>
              && (id in d.stage <==> id in c.stage) && (id in c.stage ==> d.stage[id] == c.stage[id])
              && Times(d.sent, id) == Times(c.sent, id)
  {
    assert HistoryOk(c, m.id);
    hide SingleFlight, HistoryOk;
  }

  lemma Renews(c: Client, m: Move, id: Id)
    requires SingleFlight(c) && m.RefreshDone? && Enabled(c, m)
    ensures MovedOn(c, Step(c, m), m.success, id)
  {
    RefreshDoneDoes(c, m.i, m.success);
  }

  lemma MovedTold(c: Client, d: Client, id: Id, replies: seq<Move>, awaited: Wait, success: bool)
    requires MovedOn(c, d, success, id)
    requires id in c.stage ==> ToldBy(c.stage[id], Times(c.sent, id), replies, awaited)
    ensures id in d.stage <==> id in c.stage
    ensures id in c.stage ==>
              ToldBy(d.stage[id], Times(d.sent, id), replies,
                     if awaited != NotYet then awaited
                     else if replies != [] then (if success then Renewed else Expired) else NotYet)
  {
    hide ToldBy;
    if id in c.stage { RefreshTold(c.stage[id], Times(c.sent, id), replies, awaited, success); }
  }

  lemma RespondTold(c: Client, m: Move, replies: seq<Move>, awaited: Wait)
    requires m.Respond? && Enabled(c, m) && HistoryOk(c, m.id)
             && ToldBy(c.stage[m.id], Times(c.sent, m.id), replies, awaited)
    ensures var d := Step(c, m);
            m.id in d.stage && ToldBy(d.stage[m.id], Times(d.sent, m.id), replies + [m], awaited)
  {
  }

  /** A refresh that ends moves the waiting requests on. */
  lemma RefreshTold(stage: Stage, sent: nat, replies: seq<Move>, awaited: Wait, success: bool)
    requires ToldBy(stage, sent, replies, awaited)
    ensures var waits := stage == Leading || stage == Queued;
            ToldBy(if waits then (if success then InFlight(true) else Rejected) else stage,
                   sent + (if success && waits then 1 else 0), replies,
                   if awaited != NotYet then awaited
                   else if replies != [] then (if success then Renewed else Expired) else NotYet)
  {
  }

  /** A first 401 settles nothing: it starts the one refresh or waits for it. */
  lemma RefusedWaits(c: Client, id: Id)
    requires SingleFlight(c) && id in c.stage && c.stage[id] == InFlight(false)
    ensures var d := Step(c, Respond(id, Unauthorized, false));
            && SingleFlight(d) && d.isRefreshing && |d.refreshes| == 1 && d.sent == c.sent && d.settled == c.settled
            && (c.isRefreshing ==> d.stage == c.stage[id := Queued] && d.subscribers == c.subscribers + [id]
                                   && d.refreshes == c.refreshes)
            && (!c.isRefreshing ==> d.stage == c.stage[id := Leading] && d.subscribers == [] && d.refreshes == [id])
  {
    ResponseKeeps(c, id, Unauthorized, false);
  }

  /** The last move of a run. */
  lemma {:induction false} RunsBack(c: Client, moves: seq<Move>)
    requires RunOk(c, moves) && moves != []
    ensures var before := moves[..|moves| - 1];
            && RunOk(c, before) && Enabled(After(c, before), moves[|moves| - 1])
            && After(c, moves) == Step(After(c, before), moves[|moves| - 1])
    decreases |moves|
  {
    hide Step, Enabled;
    if |moves| > 1 {
      RunsBack(Step(c, moves[0]), moves[1..]);
      assert moves[..|moves| - 1][1..] == moves[1..][..|moves| - 2];
      assert moves[..|moves| - 1][0] == moves[0];
    } else {
      assert moves[1..] == [];
    }
  }

  lemma {:induction false} ToldAlways(moves: seq<Move>, id: Id)
    requires RunOk(IDLE, moves)
    ensures SingleFlight(After(IDLE, moves)) && Told(After(IDLE, moves), moves, id)
    decreases |moves|
  {
    IdleSingle();
    SingleFlightAlways(IDLE, moves);
    if moves != [] {
      hide Step, Enabled, Told, SingleFlight;
      var before := moves[..|moves| - 1];
      RunsBack(IDLE, moves);
      ToldAlways(before, id);
      StepTold(After(IDLE, before), before, moves[|moves| - 1], id);
      assert before + [moves[|moves| - 1]] == moves;
    }
  }

  lemma IdleSingle()
    ensures SingleFlight(IDLE)
  {
  }

  /** Over every run: a request is resolved exactly when its last reply was a success, and rejected exactly when its
      last reply was another error, a 401 on its retry or on the refresh URL, or a first 401 whose refresh failed; it is
      sent again exactly when it was refused first and the refresh renewed the session. */
  lemma OutcomeExactly(moves: seq<Move>, id: Id)
    requires RunOk(IDLE, moves) && id in After(IDLE, moves).stage
    ensures var c := After(IDLE, moves);
            && (c.stage[id] == Resolved <==> Succeeds(Replies(moves, id)))
            && (c.stage[id] == Rejected <==> Fails(Replies(moves, id), Awaited(moves, id)))
            && (c.stage[id] == InFlight(true) <==>
                  |Replies(moves, id)| == 1 && Refused(Replies(moves, id)[0]) && Awaited(moves, id) == Renewed)
  {
    hide Step, Enabled, Replies, Awaited, RunOk, After, SingleFlight;
    ToldAlways(moves, id);
  }

  lemma {:induction false} ExpiredByRefresh(moves: seq<Move>, id: Id)
    requires Awaited(moves, id) == Expired
    ensures exists m :: m in moves && m.RefreshDone? && !m.success
  {
    var before := moves[..|moves| - 1];
    if Awaited(before, id) == Expired {
      ExpiredByRefresh(before, id);
      var m :| m in before && m.RefreshDone? && !m.success;
      assert m in moves;
    } else {
      assert moves[|moves| - 1] in moves;
    }
  }

  /** The point of the interceptor: when refreshes succeed and requests that are sent again succeed, then at rest every
      request that was refused first has been sent twice and is resolved. */
  lemma RefusedRequestsRecover(moves: seq<Move>, id: Id)
    requires RunOk(IDLE, moves) && forall m :: Enabled(After(IDLE, moves), m) ==> m.Send?
    requires forall m :: m in moves && m.RefreshDone? ==> m.success
    requires |Replies(moves, id)| == 2 ==> Succeeds(Replies(moves, id))
    requires Replies(moves, id) != [] && Refused(Replies(moves, id)[0])
    ensures id in After(IDLE, moves).stage && After(IDLE, moves).stage[id] == Resolved
    ensures Times(After(IDLE, moves).sent, id) == 2 && Times(After(IDLE, moves).settled, id) == 1
  {
    hide Step, Replies, Awaited, RunOk, After, SingleFlight;
    ToldAlways(moves, id);
    RestMeansSettled(After(IDLE, moves));
    if Awaited(moves, id) == Expired { ExpiredByRefresh(moves, id); }
  }
}
