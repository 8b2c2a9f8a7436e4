/** What the chain tells the backend: the events of the mirrored contracts, and how a transaction ends. */
module Chain {
  import opened Tables

  /** Events with their ABI arguments, in ABI order. */
  datatype Event =
    | VehicleReg(ownTid: nat, owner: string, rtoId: nat, dvpId: nat)
    | XferInit(reqId: nat, ownTid: nat, seller: string, buyer: string)
    | XferCancelled(reqId: nat)
    | XferApproved(reqId: nat, approver: nat)
    | XferDone(reqId: nat, ownTid: nat, newOwner: string)
    | ChallanIssued(challanId: nat, ownTid: nat, policeId: nat, amount: nat)
    | ChallanPaid(challanId: nat)
    | ChallanCancelled(challanId: nat, isAdminCancel: bool)
    | PolicyIssued(polId: nat, ownTid: nat, compId: nat)
    | PolicyExpired(polId: nat)
    | ClaimFiled(polId: nat, claimNum: nat)
    | PucIssued(certId: nat, ownTid: nat, passed: bool)
    | PucExpired(certId: nat)
    | LoanReg(loanId: nat, dvpId: nat, bankId: nat, borrower: string, amount: nat)
    | NocIssued(loanId: nat)
    | NocMinted(loanId: nat, owner: string)
    | LoanRefinanced(oldLoanId: nat, newLoanId: nat)
    | PendingLoanAttached(dvpId: nat, bankId: nat)
    | PendingLoanCancelled(dvpId: nat, bankId: nat)
    | VehicleMfg(tokenId: nat)
    | VehicleScrapped(tokenId: nat, scrapId: nat)
    | VehicleAssignedToDealer(tokenId: nat, dealer: string)

  datatype Contract = Passport | OwnershipToken | ChallanContract | InsuranceToken | PucToken | LoanContract

  function ContractOf(ev: Event): Contract {
    match ev
    case VehicleReg(_, _, _, _) | XferInit(_, _, _, _) | XferCancelled(_) | XferApproved(_, _) | XferDone(_, _, _) =>
      OwnershipToken
    case ChallanIssued(_, _, _, _) | ChallanPaid(_) | ChallanCancelled(_, _) => ChallanContract
    case PolicyIssued(_, _, _) | PolicyExpired(_) | ClaimFiled(_, _) => InsuranceToken
    case PucIssued(_, _, _) | PucExpired(_) => PucToken
    case LoanReg(_, _, _, _, _) | NocIssued(_) | NocMinted(_, _) | LoanRefinanced(_, _)
       | PendingLoanAttached(_, _) | PendingLoanCancelled(_, _) => LoanContract
    case VehicleMfg(_) | VehicleScrapped(_, _) | VehicleAssignedToDealer(_, _) => Passport
  }

  /** An event log of a successful transaction. */
  datatype Log = Log(hash: Hash, block: nat, event: Event)

  /** Tables no modelled writer changes: users by stored (lower-case) wallet, the institution `findFirst` returns for
      an on-chain id, and the on-chain id of every institution. Institutions of different kinds can share an on-chain
      id. */
  datatype Directory = Directory(users: map<string, nat>, entities: map<nat, nat>, chainIds: map<nat, nat>)

  function UserOf(dir: Directory, wallet: string): Option<nat> {
    if wallet in dir.users then Some(dir.users[wallet]) else None
  }

  function EntityOf(dir: Directory, chainId: nat): Option<nat> {
    if chainId in dir.entities then Some(dir.entities[chainId]) else None
  }

  /** JavaScript `toLowerCase` on an ASCII string. */
  function Lower(s: string): (r: string)
    ensures |r| == |s|
  {
    seq(|s|, i requires 0 <= i < |s| => LowerChar(s[i]))
  }

  function LowerChar(c: char): char {
    if 'A' <= c <= 'Z' then (c as int - 'A' as int + 'a' as int) as char else c
  }
}
