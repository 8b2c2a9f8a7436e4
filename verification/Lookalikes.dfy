/** What a handler reads of the database: found rows, and the tracking row of its transaction. Databases that agree on
    these make handlers do the same, whatever else they hold. */
module Lookalikes {
  import opened Tables
  import opened Chain
  import opened Indexer
  import opened IndexerFacts

  ghost predicate FindsAlike(d: Db, d': Db, table: Table, x: int) {
    && Find(d, table, x) == Find(d', table, x)
    && (Find(d, table, x).Some? ==> d.rows[Find(d, table, x).value] == d'.rows[Find(d, table, x).value])
  }

  ghost predicate Lookalike(d: Db, d': Db, h: Hash) {
    && (forall table, x :: FindsAlike(d, d', table, x))
    && InfoOf(d, h) == InfoOf(d', h)
    && (InfoOf(d, h).link.Some? ==> (InfoOf(d, h).link.value.1 in d.rows <==> InfoOf(d, h).link.value.1 in d'.rows))
  }

  lemma AlikeMember(d: Db, d': Db, h: Hash)
    requires Lookalike(d, d', h)
    ensures MemberOf(TxOf(d, h)) == MemberOf(TxOf(d', h))
  {
    assert InfoOf(d, h) == InfoOf(d', h);
  }

  lemma AlikeOwner(d: Db, d': Db, h: Hash, ownTid: nat)
    requires Lookalike(d, d', h)
    ensures Find(d, Ownerships, ownTid) == Find(d', Ownerships, ownTid)
    ensures OwnerColumn(d, ownTid, OwnerUser) == OwnerColumn(d', ownTid, OwnerUser)
    ensures OwnerColumn(d, ownTid, OwnerWallet) == OwnerColumn(d', ownTid, OwnerWallet)
  {
    assert FindsAlike(d, d', Ownerships, ownTid);
  }

  lemma AlikeFind(d: Db, d': Db, h: Hash, table: Table, x: nat)
    requires Lookalike(d, d', h)
    ensures Find(d, table, x) == Find(d', table, x)
  {
    assert FindsAlike(d, d', table, x);
  }

  lemma AlikeParents(d: Db, d': Db, dir: Directory, log: Log)
    requires Lookalike(d, d', log.hash) && KindOf(log.event).Make?
    ensures Parents(d, dir, TxOf(d, log.hash), log.event) == Parents(d', dir, TxOf(d', log.hash), log.event)
  {
    var h := log.hash;
    assert InfoOf(d, h) == InfoOf(d', h);
    match log.event
    case VehicleReg(_, _, _, dvpId) => AlikeFind(d, d', h, Passports, dvpId);
    case LoanReg(_, dvpId, _, _, _) => AlikeFind(d, d', h, Passports, dvpId);
    case XferInit(_, ownTid, _, _) => AlikeFind(d, d', h, Ownerships, ownTid);
    case ChallanIssued(_, ownTid, _, _) => AlikeFind(d, d', h, Ownerships, ownTid);
    case PolicyIssued(_, ownTid, _) => AlikeFind(d, d', h, Ownerships, ownTid);
    case PucIssued(_, ownTid, _) => AlikeFind(d, d', h, Ownerships, ownTid);
  }

  lemma AlikePromotion(d: Db, d': Db, dir: Directory, log: Log)
    requires Lookalike(d, d', log.hash) && KindOf(log.event).Make?
    ensures PromoteData(d, dir, log.event) == PromoteData(d', dir, log.event)
  {
    match log.event
    case PolicyIssued(_, ownTid, _) => AlikeOwner(d, d', log.hash, ownTid);
    case PucIssued(_, ownTid, _) => AlikeOwner(d, d', log.hash, ownTid);
    case _ =>
  }

  lemma AlikeCreate(d: Db, d': Db, dir: Directory, log: Log)
    requires Lookalike(d, d', log.hash) && KindOf(log.event).Make?
    ensures CreateOnly(d, dir, TxOf(d, log.hash), log.event) == CreateOnly(d', dir, TxOf(d', log.hash), log.event)
  {
    hide Lookalike, Find;
    var h := log.hash;
    AlikeMember(d, d', h);
    SameInfoOf(d, d', h);
    match log.event
    case VehicleReg(_, _, _, dvpId) => AlikeFind(d, d', h, Passports, dvpId);
    case LoanReg(_, dvpId, _, _, _) => AlikeFind(d, d', h, Passports, dvpId);
    case XferInit(_, ownTid, _, _) => AlikeFind(d, d', h, Ownerships, ownTid);
    case ChallanIssued(_, ownTid, _, _) => AlikeOwner(d, d', h, ownTid);
    case PolicyIssued(_, ownTid, _) => AlikeOwner(d, d', h, ownTid);
    case PucIssued(_, ownTid, _) => AlikeOwner(d, d', h, ownTid);
  }

  lemma SameInfoOf(d: Db, d': Db, h: Hash)
    requires Lookalike(d, d', h)
    ensures InfoOf(d, h) == InfoOf(d', h)
  {
  }

  lemma AlikeLink(d: Db, d': Db, log: Log)
    requires Lookalike(d, d', log.hash) && KindOf(log.event).Make?
    ensures Linked(TxOf(d, log.hash), log.event) == Linked(TxOf(d', log.hash), log.event)
    ensures var link := Linked(TxOf(d, log.hash), log.event); link.Some? ==>
            (link.value in d.rows <==> link.value in d'.rows)
  {
    assert InfoOf(d, log.hash) == InfoOf(d', log.hash);
  }

  lemma AlikeMake(d: Db, d': Db, dir: Directory, log: Log)
    requires Lookalike(d, d', log.hash) && KindOf(log.event).Make?
    ensures MakeEffect(d, dir, TxOf(d, log.hash), log.event) == MakeEffect(d', dir, TxOf(d', log.hash), log.event)
  {
    hide Lookalike, Parents, Linked, PromoteData, CreateOnly, UpsertData, Find;
    AlikeParents(d, d', dir, log);
    AlikePromotion(d, d', dir, log);
    AlikeCreate(d, d', dir, log);
    AlikeLink(d, d', log);
    AlikeFind(d, d', log.hash, KindOf(log.event).table, KindOf(log.event).x);
  }

  lemma AlikeAmend(d: Db, d': Db, dir: Directory, log: Log)
    requires Lookalike(d, d', log.hash) && KindOf(log.event).Amend?
    ensures AmendData(dir, TxOf(d, log.hash), log.event) == AmendData(dir, TxOf(d', log.hash), log.event)
  {
    hide Lookalike;
    AlikeMember(d, d', log.hash);
  }

  lemma LookalikeEffect(d: Db, d': Db, dir: Directory, log: Log)
    requires Lookalike(d, d', log.hash) && !log.event.PendingLoanCancelled?
    ensures EffectOf(d, dir, log) == EffectOf(d', dir, log) && SecondEffect(d, log) == SecondEffect(d', log)
  {
    hide Lookalike, MakeEffect, AmendData, Find;
    match KindOf(log.event)
    case Make(_, _) =>
      AlikeMake(d, d', dir, log);
      if log.event.VehicleReg? { AlikeFind(d, d', log.hash, Passports, log.event.dvpId); }
    case Amend(table, x) =>
      AlikeFind(d, d', log.hash, table, x);
      AlikeAmend(d, d', dir, log);
    case _ =>
  }
}
