/** The staff of an institution: who may create, promote and deactivate whom, and what that keeps over whole runs. */
module RoleHierarchy {

  datatype Role = Owner | Admin | Operator | Viewer

  type MemberId = nat

  datatype Member = Member(entity: nat, role: Role, isActive: bool, email: string)

  type Staff = map<MemberId, Member>

  /** The caller as the access token names him. */
  datatype Caller = Caller(sub: MemberId, role: Role, entity: nat)

  datatype Error = Self | NotFound | Hierarchy | EmailTaken

  datatype Result = Done(staff: Staff) | Refused(error: Error)

  /** `assertRoleHierarchy`. */
  predicate MayModify(caller: Role, target: Role) {
    caller == Owner || (caller == Admin && target != Owner && target != Admin)
  }

  predicate EmailKnown(staff: Staff, email: string) {
    exists id :: id in staff && staff[id].email == email
  }

  function Create(staff: Staff, caller: Caller, id: MemberId, role: Role, email: string): Result
    requires id !in staff
  {
    if !MayModify(caller.role, role) then Refused(Hierarchy)
    else if EmailKnown(staff, email) then Refused(EmailTaken)
    else Done(staff[id := Member(caller.entity, role, true, email)])
  }

  function Modify(staff: Staff, caller: Caller, target: MemberId, newRole: Role, change: Member -> Member): Result {
    if target == caller.sub then Refused(Self)
    else if target !in staff || staff[target].entity != caller.entity then Refused(NotFound)
    else if !MayModify(caller.role, staff[target].role) || !MayModify(caller.role, newRole) then Refused(Hierarchy)
    else Done(staff[target := change(staff[target])])
  }

  function UpdateRole(staff: Staff, caller: Caller, target: MemberId, newRole: Role): Result {
    Modify(staff, caller, target, newRole, (m: Member) => m.(role := newRole))
  }

  function Toggle(staff: Staff, caller: Caller, target: MemberId, isActive: bool): Result {
    Modify(staff, caller, target, Viewer, (m: Member) => m.(isActive := isActive))
  }

  // ── The service ──

  class MemberService {
    var staff: Staff

    constructor (staff: Staff)
      ensures this.staff == staff
    {
      this.staff := staff;
    }

    static method AssertRoleHierarchy(caller: Role, target: Role) returns (ok: bool)
      ensures ok <==> caller == Owner || (caller == Admin && target in {Operator, Viewer})
    {
      if caller == Owner { return true; }
      if caller == Admin {
        if target == Owner || target == Admin { return false; }
        return true;
      }
      return false;
    }

    method FindByEmail(email: string) returns (known: bool)
      ensures known <==> EmailKnown(staff, email)
    {
      var ids := staff.Keys;
      while ids != {}
        invariant ids <= staff.Keys
        invariant forall id :: id in staff && staff[id].email == email ==> id in ids
        decreases ids
      {
        var id :| id in ids;
        if staff[id].email == email { return true; }
        ids := ids - {id};
      }
      return false;
    }

    method CreateMember(caller: Caller, id: MemberId, role: Role, email: string) returns (refused: set<Error>)
      requires id !in staff
      modifies this
      ensures Create(old(staff), caller, id, role, email) == if refused == {} then Done(staff)
              else Refused(Only(refused))
      ensures refused == {} <==>
              && (caller.role == Owner || (caller.role == Admin && role in {Operator, Viewer}))
              && forall m :: m in old(staff) ==> old(staff)[m].email != email
      ensures refused == {} ==> staff == old(staff)[id := Member(caller.entity, role, true, email)]
      ensures |refused| <= 1 && (refused != {} ==> staff == old(staff))
    {
      var ok := AssertRoleHierarchy(caller.role, role);
      if !ok { return {Hierarchy}; }
      var known := FindByEmail(email);
      if known { return {EmailTaken}; }
      staff := staff[id := Member(caller.entity, role, true, email)];
      return {};
    }

    method UpdateMemberRole(target: MemberId, newRole: Role, caller: Caller) returns (refused: set<Error>)
      modifies this
      ensures UpdateRole(old(staff), caller, target, newRole) == if refused == {} then Done(staff)
              else Refused(Only(refused))
      ensures refused == {} <==>
              && target != caller.sub && target in old(staff) && old(staff)[target].entity == caller.entity
              && (caller.role == Owner || (caller.role == Admin && old(staff)[target].role in {Operator, Viewer}
                                           && newRole in {Operator, Viewer}))
      ensures refused == {} ==> staff == old(staff)[target := old(staff)[target].(role := newRole)]
      ensures |refused| <= 1 && (refused != {} ==> staff == old(staff))
    {
      if target == caller.sub { return {Self}; }
      if target !in staff || staff[target].entity != caller.entity { return {NotFound}; }
      var ok := AssertRoleHierarchy(caller.role, staff[target].role);
      if !ok { return {Hierarchy}; }
      ok := AssertRoleHierarchy(caller.role, newRole);
      if !ok { return {Hierarchy}; }
      staff := staff[target := staff[target].(role := newRole)];
      return {};
    }

    method ToggleMemberStatus(target: MemberId, isActive: bool, caller: Caller) returns (refused: set<Error>)
      modifies this
      ensures Toggle(old(staff), caller, target, isActive) == if refused == {} then Done(staff)
              else Refused(Only(refused))
      ensures refused == {} <==>
              && target != caller.sub && target in old(staff) && old(staff)[target].entity == caller.entity
              && (caller.role == Owner || (caller.role == Admin && old(staff)[target].role in {Operator, Viewer}))
      ensures refused == {} ==> staff == old(staff)[target := old(staff)[target].(isActive := isActive)]
      ensures |refused| <= 1 && (refused != {} ==> staff == old(staff))
    {
      if target == caller.sub { return {Self}; }
      if target !in staff || staff[target].entity != caller.entity { return {NotFound}; }
      var ok := AssertRoleHierarchy(caller.role, staff[target].role);
      if !ok { return {Hierarchy}; }
      staff := staff[target := staff[target].(isActive := isActive)];
      return {};
    }
  }

  function Only(errors: set<Error>): Error {
    if Self in errors then Self else if NotFound in errors then NotFound else if EmailTaken in errors then EmailTaken
       else Hierarchy
  }

  // ── Whole runs ──

  datatype Call =
    | CreateCall(id: MemberId, role: Role, email: string)
    | RoleCall(target: MemberId, newRole: Role)
    | StatusCall(target: MemberId, isActive: bool)

  datatype Request = Request(caller: Caller, call: Call)

  function Outcome(staff: Staff, r: Request): Result {
    match r.call
    case CreateCall(id, role, email) => if id in staff then Refused(EmailTaken)
      else Create(staff, r.caller, id, role, email)
    case RoleCall(target, newRole) => UpdateRole(staff, r.caller, target, newRole)
    case StatusCall(target, isActive) => Toggle(staff, r.caller, target, isActive)
  }

  function Serve(staff: Staff, r: Request): Staff {
    match Outcome(staff, r) case Done(after) => after case Refused(_) => staff
  }

  function ServeAll(staff: Staff, requests: seq<Request>): Staff {
    if requests == [] then staff else Serve(ServeAll(staff, requests[..|requests| - 1]), requests[|requests| - 1])
  }

  /** The token tells the truth: the caller is an active member of the entity with that role. */
  predicate Current(staff: Staff, c: Caller) {
    c.sub in staff && staff[c.sub].isActive && staff[c.sub].role == c.role && staff[c.sub].entity == c.entity
  }

  predicate AllCurrent(staff: Staff, requests: seq<Request>) {
    forall i :: 0 <= i < |requests| ==> Current(ServeAll(staff, requests[..i]), requests[i].caller)
  }

  predicate ActiveOwner(staff: Staff, entity: nat, id: MemberId) {
    id in staff && staff[id].entity == entity && staff[id].role == Owner && staff[id].isActive
  }

  predicate HasActiveOwner(staff: Staff, entity: nat) {
    exists id :: id in staff && ActiveOwner(staff, entity, id)
  }

  /** A call that touches an owner is made by an active owner, and not on himself. */
  lemma ServeKeepsOwner(staff: Staff, r: Request, entity: nat)
    requires HasActiveOwner(staff, entity) && Current(staff, r.caller)
    ensures HasActiveOwner(Serve(staff, r), entity)
  {
    var id :| id in staff && ActiveOwner(staff, entity, id);
    var after := Serve(staff, r);
    if !ActiveOwner(after, entity, id) {
      assert ActiveOwner(after, entity, r.caller.sub);
    }
  }

  lemma {:induction false} AllCurrentPrefix(staff: Staff, requests: seq<Request>)
    requires AllCurrent(staff, requests) && requests != []
    ensures AllCurrent(staff, requests[..|requests| - 1])
  {
    var p := requests[..|requests| - 1];
    forall i | 0 <= i < |p| ensures Current(ServeAll(staff, p[..i]), p[i].caller) {
      assert p[..i] == requests[..i];
    }
  }

  /** An institution with an active owner keeps one, whatever its members do with current tokens. */
  lemma {:induction false} OwnerNeverLost(staff: Staff, requests: seq<Request>, entity: nat)
    requires HasActiveOwner(staff, entity) && AllCurrent(staff, requests)
    ensures HasActiveOwner(ServeAll(staff, requests), entity)
  {
    if requests != [] {
      AllCurrentPrefix(staff, requests);
      OwnerNeverLost(staff, requests[..|requests| - 1], entity);
      ServeKeepsOwner(ServeAll(staff, requests[..|requests| - 1]), requests[|requests| - 1], entity);
    }
  }

  predicate Senior(m: Member) {
    m.role == Owner || m.role == Admin
  }

  /** Owners and admins with their flags. */
  function Seniors(staff: Staff): Staff {
    map id | id in staff && Senior(staff[id]) :: staff[id]
  }

  lemma ServeKeepsSeniors(staff: Staff, r: Request)
    requires r.caller.role != Owner
    ensures Seniors(Serve(staff, r)) == Seniors(staff)
  {
    var after := Serve(staff, r);
    forall id ensures (id in after && Senior(after[id])) <==> (id in staff && Senior(staff[id])) {
    }
  }

  /** Where no owner acts, the owners and admins, and which of them are active, never change. */
  lemma {:induction false} SeniorsFixedWithoutOwner(staff: Staff, requests: seq<Request>)
    requires forall i :: 0 <= i < |requests| ==> requests[i].caller.role != Owner
    ensures Seniors(ServeAll(staff, requests)) == Seniors(staff)
  {
    if requests != [] {
      SeniorsFixedWithoutOwner(staff, requests[..|requests| - 1]);
      ServeKeepsSeniors(ServeAll(staff, requests[..|requests| - 1]), requests[|requests| - 1]);
    }
  }

  // ── Tokens that have gone stale ──

  function ActiveOwners(staff: Staff, entity: nat): set<MemberId> {
    set id | id in staff && ActiveOwner(staff, entity, id)
  }

  /** A demotion or a deactivation of an owner. */
  predicate Unseats(call: Call) {
    (call.RoleCall? && call.newRole != Owner) || (call.StatusCall? && !call.isActive)
  }

  /** The target is the only active owner, and the token says that somebody else is one. */
  predicate Fatal(staff: Staff, r: Request, entity: nat) {
    && Unseats(r.call) && ActiveOwners(staff, entity) == {r.call.target}
    && r.caller.role == Owner && r.caller.entity == entity && r.caller.sub != r.call.target
  }

  /** Whatever the token says, one request takes the last active owner from an institution exactly then. */
  lemma OneRequestLosesOwner(staff: Staff, r: Request, entity: nat)
    requires HasActiveOwner(staff, entity)
    ensures !HasActiveOwner(Serve(staff, r), entity) <==> Fatal(staff, r, entity)
  {
    var after, owners := Serve(staff, r), ActiveOwners(staff, entity);
    var id :| id in staff && ActiveOwner(staff, entity, id);
    if Fatal(staff, r, entity) {
      forall other | other in after ensures !ActiveOwner(after, entity, other) {
        assert other in owners ==> other == r.call.target;
      }
    } else if r.call.CreateCall? {
      assert ActiveOwner(after, entity, id);
    } else if exists other :: other in owners && other != r.call.target {
      var other :| other in owners && other != r.call.target;
      assert ActiveOwner(after, entity, other);
    } else {
      assert owners == {r.call.target} by { assert id in owners; }
      assert ActiveOwner(after, entity, r.call.target);
    }
  }

  /** The institution has an active owner before and after every request. */
  predicate AlwaysOwned(staff: Staff, requests: seq<Request>, entity: nat) {
    forall i :: 0 <= i <= |requests| ==> HasActiveOwner(ServeAll(staff, requests[..i]), entity)
  }

  predicate FatalAt(staff: Staff, requests: seq<Request>, entity: nat, i: nat)
    requires i < |requests|
  {
    Fatal(ServeAll(staff, requests[..i]), requests[i], entity)
  }

  lemma NextServed(staff: Staff, requests: seq<Request>, i: nat)
    requires i < |requests|
    ensures ServeAll(staff, requests[..i + 1]) == Serve(ServeAll(staff, requests[..i]), requests[i])
  {
    assert requests[..i + 1][..i] == requests[..i];
  }

  /** Over any run with any tokens, an institution always has an active owner exactly when no request of the run is
      fatal at its turn. */
  lemma OwnedExactlyWithoutFatal(staff: Staff, requests: seq<Request>, entity: nat)
    requires HasActiveOwner(staff, entity)
    ensures AlwaysOwned(staff, requests, entity) <==>
            forall i :: 0 <= i < |requests| ==> !FatalAt(staff, requests, entity, i)
  {
    if AlwaysOwned(staff, requests, entity) {
      forall i | 0 <= i < |requests| ensures !FatalAt(staff, requests, entity, i) {
        NextServed(staff, requests, i);
        OneRequestLosesOwner(ServeAll(staff, requests[..i]), requests[i], entity);
        assert HasActiveOwner(ServeAll(staff, requests[..i + 1]), entity);
      }
    }
    if forall i :: 0 <= i < |requests| ==> !FatalAt(staff, requests, entity, i) {
      forall i | 0 <= i <= |requests| ensures HasActiveOwner(ServeAll(staff, requests[..i]), entity) {
        OwnedSoFar(staff, requests, entity, i);
      }
    }
  }

  lemma {:induction false} OwnedSoFar(staff: Staff, requests: seq<Request>, entity: nat, i: nat)
    requires HasActiveOwner(staff, entity) && i <= |requests|
    requires forall j :: 0 <= j < |requests| ==> !FatalAt(staff, requests, entity, j)
    ensures HasActiveOwner(ServeAll(staff, requests[..i]), entity)
  {
    if i > 0 {
      OwnedSoFar(staff, requests, entity, i - 1);
      assert !FatalAt(staff, requests, entity, i - 1);
      NextServed(staff, requests, i - 1);
      OneRequestLosesOwner(ServeAll(staff, requests[..i - 1]), requests[i - 1], entity);
    }
  }

  /** Every token of the run told the truth when the run began. */
  predicate IssuedAt(staff: Staff, requests: seq<Request>) {
    forall i :: 0 <= i < |requests| ==> Current(staff, requests[i].caller)
  }

  /** With tokens that were all true at the start an institution can lose its last owner exactly when it has two: one
      deactivates the others, and then a token from before lets one of those deactivate him. */
  lemma StaleTokensLoseTheOwner(staff: Staff, entity: nat)
    requires HasActiveOwner(staff, entity)
    ensures (exists requests :: IssuedAt(staff, requests) && !HasActiveOwner(ServeAll(staff, requests), entity)) <==>
            |ActiveOwners(staff, entity)| >= 2
  {
    var a :| a in staff && ActiveOwner(staff, entity, a);
    var owners := ActiveOwners(staff, entity);
    if owners == {a} {
      forall requests | IssuedAt(staff, requests) ensures HasActiveOwner(ServeAll(staff, requests), entity) {
        OnlyOwnerStays(staff, requests, entity, a);
      }
    } else {
      TwoOwners(owners, a);
      var b :| b in owners && b != a;
      var requests := LeaveOnly(staff, staff, entity, a);
      var last := Request(Caller(b, Owner, entity), StatusCall(a, false));
      var served := ServeAll(staff, requests);
      OneRequestLosesOwner(served, last, entity);
      assert (requests + [last])[..|requests|] == requests;
      assert IssuedAt(staff, requests + [last]) && !HasActiveOwner(ServeAll(staff, requests + [last]), entity);
    }
  }

  lemma TwoOwners(owners: set<MemberId>, a: MemberId)
    requires a in owners && owners != {a}
    ensures |owners| >= 2 && exists b :: b in owners && b != a
  {
    assert owners == {a} + (owners - {a});
    if owners - {a} != {} { var b :| b in owners - {a}; }
  }

  /** `a` deactivates every other owner, on a token issued when the staff was `start`. */
  lemma {:induction false} LeaveOnly(start: Staff, staff: Staff, entity: nat, a: MemberId)
    returns (requests: seq<Request>)
    requires ActiveOwner(start, entity, a) && ActiveOwner(staff, entity, a)
    ensures IssuedAt(start, requests) && ActiveOwners(ServeAll(staff, requests), entity) == {a}
    ensures HasActiveOwner(ServeAll(staff, requests), entity)
    decreases |ActiveOwners(staff, entity)|
  {
    var others := ActiveOwners(staff, entity) - {a};
    if others == {} {
      requests := [];
      assert ActiveOwners(staff, entity) == {a};
      assert ActiveOwner(ServeAll(staff, requests), entity, a);
    } else {
      var b :| b in others;
      var r := Request(Caller(a, Owner, entity), StatusCall(b, false));
      assert ActiveOwners(Serve(staff, r), entity) == ActiveOwners(staff, entity) - {b};
      var rest := LeaveOnly(start, Serve(staff, r), entity, a);
      ServeFirst(staff, r, rest);
      requests := [r] + rest;
    }
  }

  lemma {:induction false} ServeFirst(staff: Staff, r: Request, rest: seq<Request>)
    ensures ServeAll(staff, [r] + rest) == ServeAll(Serve(staff, r), rest)
  {
    if rest == [] {
      assert [r] + rest == [r] && [r][..0] == [];
      assert ServeAll(staff, [r]) == Serve(ServeAll(staff, []), r);
    } else {
      ServeFirst(staff, r, rest[..|rest| - 1]);
      assert ([r] + rest)[..|rest|] == [r] + rest[..|rest| - 1];
    }
  }

  lemma {:induction false} OnlyOwnerStays(staff: Staff, requests: seq<Request>, entity: nat, a: MemberId)
    requires ActiveOwners(staff, entity) == {a} && IssuedAt(staff, requests)
    ensures ActiveOwner(ServeAll(staff, requests), entity, a)
  {
    if requests == [] {
      assert a in ActiveOwners(staff, entity);
    } else {
      var p, r := requests[..|requests| - 1], requests[|requests| - 1];
      OnlyOwnerStays(staff, p, entity, a);
      assert Current(staff, r.caller);
      assert r.caller.role == Owner && r.caller.entity == entity ==> r.caller.sub in ActiveOwners(staff, entity);
    }
  }
}
