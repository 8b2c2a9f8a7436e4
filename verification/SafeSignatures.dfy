/** Signatures of a Safe proposal: no owner signs twice whatever the letter case of the wallet, and the executor hands
    the signatures over in strictly ascending order of the signers' numeric addresses, as the Safe contract demands. */
module SafeSignatures {
  import opened Chain
  import opened SafeGovernance

  // ── Hexadecimal addresses ──

  predicate HexDigit(c: char) {
    '0' <= c <= '9' || 'a' <= c <= 'f'
  }

  function Digit(c: char): (d: nat)
    requires HexDigit(c)
    ensures d < 16
  {
    if c <= '9' then c as int - '0' as int else c as int - 'a' as int + 10
  }

  /** An address in either letter case. */
  predicate IsAddress(w: string) {
    |w| == 42 && w[0] == '0' && w[1] in {'x', 'X'} && forall i :: 2 <= i < 42 ==> HexDigit(LowerChar(w[i]))
  }

  function Pow16(n: nat): (p: nat)
    ensures p > 0
  {
    if n == 0 then 1 else 16 * Pow16(n - 1)
  }

  /** The number a string of lower-case hexadecimal digits denotes. */
  function Value(s: string): (v: nat)
    requires forall i :: 0 <= i < |s| ==> HexDigit(s[i])
    ensures v < Pow16(|s|)
  {
    if s == [] then 0 else
    ValueBound(Digit(s[0]), Value(s[1..]), Pow16(|s| - 1));
    Digit(s[0]) * Pow16(|s| - 1) + Value(s[1..])
  }

  lemma ValueBound(d: nat, v: nat, p: nat)
    requires d < 16 && v < p
    ensures d * p + v < 16 * p
  {
    assert (d + 1) * p <= 16 * p;
  }

  function Numeric(w: string): nat
    requires IsAddress(w)
  {
    Value(Lower(w)[2..])
  }

  /** String order, character by character. */
  predicate Before(a: string, b: string) {
    if a == [] || b == [] then a == [] && b != []
    else if a[0] != b[0] then a[0] < b[0]
    else Before(a[1..], b[1..])
  }

  lemma LeadingDigit(d: nat, e: nat, v: nat, w: nat, p: nat)
    requires d < e && v < p
    ensures d * p + v < e * p + w
  {
    assert (d + 1) * p <= e * p;
  }

  /** On lower-case hexadecimal of equal length, string order is numeric order. */
  lemma {:induction false} StringOrderIsNumeric(a: string, b: string)
    requires |a| == |b| && (forall i :: 0 <= i < |a| ==> HexDigit(a[i]))
             && (forall i :: 0 <= i < |b| ==> HexDigit(b[i]))
    ensures Before(a, b) <==> Value(a) < Value(b)
    ensures a == b <==> Value(a) == Value(b)
  {
    if a != [] {
      var p := Pow16(|a| - 1);
      StringOrderIsNumeric(a[1..], b[1..]);
      if a[0] == b[0] {
        assert a == [a[0]] + a[1..] && b == [b[0]] + b[1..];
      } else if a[0] < b[0] {
        LeadingDigit(Digit(a[0]), Digit(b[0]), Value(a[1..]), Value(b[1..]), p);
      } else {
        LeadingDigit(Digit(b[0]), Digit(a[0]), Value(b[1..]), Value(a[1..]), p);
      }
    }
  }

  /** The two leading characters of an address do not matter. */
  lemma AddressOrder(a: string, b: string)
    requires IsAddress(a) && IsAddress(b)
    ensures Before(Lower(a), Lower(b)) <==> Numeric(a) < Numeric(b)
    ensures Lower(a) == Lower(b) <==> Numeric(a) == Numeric(b)
  {
    var x, y := Lower(a), Lower(b);
    assert x[0] == y[0] == '0' && x[1] == y[1] == 'x';
    assert x[1..][1..] == x[2..] && y[1..][1..] == y[2..];
    assert x == [x[0], x[1]] + x[2..] && y == [y[0], y[1]] + y[2..];
    StringOrderIsNumeric(x[2..], y[2..]);
  }

  // ── Signing ──

  datatype Signature = Signature(signerWallet: string, data: string)

  predicate Signs(s: Signature, wallet: string) {
    Lower(s.signerWallet) == Lower(wallet)
  }

  /** No two rows of one owner, and every signer is an address. */
  predicate DistinctSigners(rows: seq<Signature>) {
    && (forall i :: 0 <= i < |rows| ==> IsAddress(rows[i].signerWallet))
    && (forall i, j :: 0 <= i < j < |rows| ==> !Signs(rows[i], rows[j].signerWallet))
  }

  datatype Refusal = NotPending | AlreadySigned | WrongSigner | NotAnOwner

  class SafeProposal {
    var status: ProposalStatus
    var signatures: seq<Signature>
    const threshold: nat
    const owners: seq<string>

    constructor (threshold: nat, owners: seq<string>)
      requires forall o :: o in owners ==> IsAddress(o)
      ensures this.threshold == threshold && this.owners == owners && status == Collecting && signatures == []
              && Valid()
    {
      this.threshold, this.owners, this.status, this.signatures := threshold, owners, Collecting, [];
    }

    ghost predicate Valid()
      reads this
    {
      DistinctSigners(signatures) && forall o :: o in owners ==> IsAddress(o)
    }

    /** One call of `signProposal` as one step; `recovered` is the wallet that made the signature. */
    method Sign(wallet: string, data: string, recovered: string) returns (refused: set<Refusal>)
      requires Valid()
      modifies this`signatures, this`status
      ensures Valid()
      ensures signatures == if refused == {} then old(signatures) + [Signature(wallet, data)] else old(signatures)
      ensures status == if refused == {} && |signatures| >= threshold then ThresholdMet else old(status)
      ensures refused == {} <==>
              && old(status) == Collecting
              && (forall s :: s in old(signatures) ==> !Signs(s, wallet))
              && Lower(recovered) == Lower(wallet)
              && (exists o :: o in owners && Lower(o) == Lower(wallet))
    {
      if status != Collecting { return {NotPending}; }
      for i := 0 to |signatures|
        invariant forall j :: 0 <= j < i ==> !Signs(signatures[j], wallet)
        invariant signatures == old(signatures)
      {
        if Signs(signatures[i], wallet) { return {AlreadySigned}; }
      }
      if Lower(recovered) != Lower(wallet) { return {WrongSigner}; }
      var isOwner := false;
      for i := 0 to |owners|
        invariant isOwner <==> exists j :: 0 <= j < i && Lower(owners[j]) == Lower(wallet)
      {
        if Lower(owners[i]) == Lower(wallet) { isOwner := true; }
      }
      if !isOwner { return {NotAnOwner}; }
      OwnerIsAddress(owners, wallet);
      signatures := signatures + [Signature(wallet, data)];
      if |signatures| >= threshold { status := ThresholdMet; }
      refused := {};
    }

    /** The signatures that `executeSafeTxInternal` adds to the Safe transaction, one by one. */
    method CollectSignatures() returns (added: seq<Signature>)
      requires Valid()
      ensures multiset(added) == multiset(signatures)
      ensures forall s :: s in added ==> IsAddress(s.signerWallet)
      ensures forall i, j :: 0 <= i < j < |added| ==> Numeric(added[i].signerWallet) < Numeric(added[j].signerWallet)
    {
      var sortedSignatures := SortBySigner(signatures);
      SortIsPermutation(signatures);
      SortIsOrdered(signatures);
      added := [];
      for i := 0 to |sortedSignatures|
        invariant added == sortedSignatures[..i]
      {
        added := added + [sortedSignatures[i]];
      }
      assert added == sortedSignatures;
      StrictlyAscending(signatures, added);
    }
  }

  lemma OwnerIsAddress(owners: seq<string>, wallet: string)
    requires (forall o :: o in owners ==> IsAddress(o)) && exists j :: 0 <= j < |owners|
                                                                       && Lower(owners[j]) == Lower(wallet)
    ensures IsAddress(wallet)
  {
    var j :| 0 <= j < |owners| && Lower(owners[j]) == Lower(wallet);
    var o := owners[j];
    assert IsAddress(o) && |o| == |wallet|;
    assert forall i :: 0 <= i < |o| ==> LowerChar(o[i]) == LowerChar(wallet[i]) by {
      assert forall i :: 0 <= i < |o| ==> Lower(o)[i] == LowerChar(o[i]) && Lower(wallet)[i] == LowerChar(wallet[i]);
    }
    assert LowerChar(o[0]) == '0' && LowerChar(o[1]) == 'x';
  }

  // ── The sort ──

  predicate NotAfter(a: Signature, b: Signature) {
    !Before(Lower(b.signerWallet), Lower(a.signerWallet))
  }

  function Place(s: Signature, sorted: seq<Signature>): seq<Signature> {
    if sorted == [] || !NotAfter(sorted[0], s) then [s] + sorted else [sorted[0]] + Place(s, sorted[1..])
  }

  /** A stable sort by signer. */
  function SortBySigner(rows: seq<Signature>): seq<Signature> {
    if rows == [] then [] else Place(rows[|rows| - 1], SortBySigner(rows[..|rows| - 1]))
  }

  lemma {:induction false} PlacePermutes(s: Signature, sorted: seq<Signature>)
    ensures multiset(Place(s, sorted)) == multiset(sorted + [s])
  {
    if sorted == [] || !NotAfter(sorted[0], s) {
    } else {
      PlacePermutes(s, sorted[1..]);
      assert sorted == [sorted[0]] + sorted[1..];
    }
  }

  lemma {:induction false} SortIsPermutation(rows: seq<Signature>)
    ensures multiset(SortBySigner(rows)) == multiset(rows)
  {
    if rows != [] {
      var p, last := rows[..|rows| - 1], rows[|rows| - 1];
      SortIsPermutation(p);
      PlacePermutes(last, SortBySigner(p));
      assert rows == p + [last];
    }
  }

  predicate Ordered(s: seq<Signature>) {
    forall i, j :: 0 <= i < j < |s| ==> NotAfter(s[i], s[j])
  }

  lemma {:induction false} BeforeIsTotal(a: string, b: string)
    ensures Before(a, b) || Before(b, a) || a == b
    ensures !(Before(a, b) && Before(b, a))
    ensures !Before(a, a)
  {
    if a != [] && b != [] && a[0] == b[0] {
      BeforeIsTotal(a[1..], b[1..]);
      assert a == [a[0]] + a[1..] && b == [b[0]] + b[1..];
    }
    if a != [] { BeforeIrreflexive(a); }
  }

  lemma {:induction false} BeforeIrreflexive(a: string)
    ensures !Before(a, a)
  {
    if a != [] { BeforeIrreflexive(a[1..]); }
  }

  lemma {:induction false} BeforeIsTransitive(a: string, b: string, c: string)
    requires Before(a, b) && Before(b, c)
    ensures Before(a, c)
  {
    if a != [] && a[0] == b[0] && b[0] == c[0] { BeforeIsTransitive(a[1..], b[1..], c[1..]); }
  }

  lemma NotAfterIsTransitive(a: Signature, b: Signature, c: Signature)
    requires NotAfter(a, b) && NotAfter(b, c)
    ensures NotAfter(a, c)
  {
    var x, y, z := Lower(a.signerWallet), Lower(b.signerWallet), Lower(c.signerWallet);
    BeforeIsTotal(x, y);
    BeforeIsTotal(y, z);
    BeforeIsTotal(x, z);
    if Before(z, x) {
      if Before(x, y) { BeforeIsTransitive(z, x, y); }
    }
  }

  lemma {:induction false} PlaceKeepsOrder(s: Signature, sorted: seq<Signature>)
    requires Ordered(sorted)
    ensures Ordered(Place(s, sorted))
  {
    var r := Place(s, sorted);
    if sorted != [] && NotAfter(sorted[0], s) {
      var rest := Place(s, sorted[1..]);
      PlaceKeepsOrder(s, sorted[1..]);
      PlacePermutes(s, sorted[1..]);
      forall j | 0 <= j < |rest| ensures NotAfter(sorted[0], rest[j]) {
        assert rest[j] in multiset(rest);
        assert rest[j] == s || rest[j] in sorted[1..];
      }
    } else if sorted != [] {
      BeforeIsTotal(Lower(s.signerWallet), Lower(sorted[0].signerWallet));
      forall j | 0 <= j < |sorted| ensures NotAfter(s, sorted[j]) {
        if j > 0 { NotAfterIsTransitive(s, sorted[0], sorted[j]); }
      }
    }
  }

  lemma {:induction false} SortIsOrdered(rows: seq<Signature>)
    ensures Ordered(SortBySigner(rows))
  {
    if rows != [] {
      SortIsOrdered(rows[..|rows| - 1]);
      PlaceKeepsOrder(rows[|rows| - 1], SortBySigner(rows[..|rows| - 1]));
    }
  }

  /** A sorted permutation of rows with distinct signers ascends strictly by numeric address. */
  lemma StrictlyAscending(rows: seq<Signature>, sorted: seq<Signature>)
    requires DistinctSigners(rows) && multiset(sorted) == multiset(rows) && Ordered(sorted)
    ensures forall s :: s in sorted ==> IsAddress(s.signerWallet)
    ensures forall i, j :: 0 <= i < j < |sorted| ==> Numeric(sorted[i].signerWallet) < Numeric(sorted[j].signerWallet)
  {
    forall s | s in sorted ensures s in rows && IsAddress(s.signerWallet) {
      assert s in multiset(sorted);
    }
    forall i, j | 0 <= i < j < |sorted| ensures Numeric(sorted[i].signerWallet) < Numeric(sorted[j].signerWallet) {
      TwoPlaces(rows, sorted, i, j);
      BeforeIsTotal(Lower(sorted[i].signerWallet), Lower(sorted[j].signerWallet));
      AddressOrder(sorted[i].signerWallet, sorted[j].signerWallet);
    }
  }

  lemma TwoPlaces(rows: seq<Signature>, sorted: seq<Signature>, i: nat, j: nat)
    requires DistinctSigners(rows) && multiset(sorted) == multiset(rows) && i < j < |sorted|
    ensures !Signs(sorted[i], sorted[j].signerWallet)
  {
    var a, b := sorted[i], sorted[j];
    assert a in multiset(sorted) && b in multiset(sorted);
    var x :| 0 <= x < |rows| && rows[x] == a;
    var y :| 0 <= y < |rows| && rows[y] == b;
    OnlyOnce(rows, x);
    CountedTwice(sorted, i, j);
    assert x != y;
    assert x < y ==> !Signs(rows[x], rows[y].signerWallet);
    assert y < x ==> !Signs(rows[y], rows[x].signerWallet);
  }

  lemma CountedTwice(s: seq<Signature>, i: nat, j: nat)
    requires i < j < |s|
    ensures s[i] == s[j] ==> multiset(s)[s[i]] >= 2
  {
    assert s == s[..j] + s[j..];
    assert s[i] in s[..j] && s[j] in s[j..];
    assert multiset(s[..j])[s[i]] >= 1 && multiset(s[j..])[s[j]] >= 1;
  }

  lemma OnlyOnce(rows: seq<Signature>, x: nat)
    requires DistinctSigners(rows) && x < |rows|
    ensures multiset(rows)[rows[x]] == 1
  {
    var a, before, after := rows[x], rows[..x], rows[x + 1..];
    assert rows == before + [a] + after;
    assert a !in before && a !in after by {
      assert forall i :: 0 <= i < x ==> !Signs(rows[i], a.signerWallet);
      assert forall i :: x < i < |rows| ==> !Signs(a, rows[i].signerWallet);
    }
  }
}
