/** A list loop that inserts into the list it is iterating: group headers before cheatcodes. */
module GroupHeaders {

  /** A cheatcode, or the copy of one that carries a group header. */
  datatype Entry = Entry(group: string, declaration: string, isHeader: bool)

  function UpperChar(c: char): char {
    if 'a' <= c <= 'z' then (c as int - 'a' as int + 'A' as int) as char else c
  }

  function Title(group: string): string {
    if group == "evm" then "EVM" else if group == "json" then "JSON"
    else if group == "" then "" else [UpperChar(group[0])] + group[1..]
  }

  function HeaderOf(e: Entry): Entry {
    Entry(e.group, "// ======== " + Title(e.group) + " ========", true)
  }

  /** The list with a header before the first entry of each group not seen yet. */
  function Prefixed(cheats: seq<Entry>, seen: set<string>): seq<Entry> {
    if cheats == [] then []
    else if cheats[0].group in seen then [cheats[0]] + Prefixed(cheats[1..], seen)
    else [HeaderOf(cheats[0]), cheats[0]] + Prefixed(cheats[1..], seen + {cheats[0].group})
  }

  function Groups(cheats: seq<Entry>): set<string> {
    set e | e in cheats :: e.group
  }

  class CheatcodeList {
    var cheats: seq<Entry>

    constructor (cheats: seq<Entry>)
      ensures this.cheats == cheats
    {
      this.cheats := cheats;
    }

    /** The iterator's index moves past the inserted header to the entry it was inserted for, whose group is seen by
        then; so the loop ends: groups run out first, then indices. */
    method PrefixWithGroupHeaders()
      modifies this
      ensures cheats == Prefixed(old(cheats), {})
    {
      hide Prefixed, HeaderOf;
      PrefixedNothing();
      var s: set<string> := {};
      var i := 0;
      while i < |cheats|
        invariant i <= |cheats|
        invariant Prefixed(old(cheats), {}) == cheats[..i] + Prefixed(cheats[i..], s)
        invariant forall e :: e in cheats[i..] ==> e in old(cheats)
        decreases Groups(old(cheats)) - s, |cheats| - i
      {
        var cheat := cheats[i];
        ghost var done, rest := cheats[..i], cheats[i..];
        assert rest[0] == cheat && cheats[i + 1..] == rest[1..] && cheat in old(cheats);
        if cheat.group in s {
          PrefixedSeen(done, rest, s);
          assert cheats[..i + 1] == done + [cheat];
          i := i + 1;
          continue;
        }
        PrefixedNew(done, rest, s);
        assert cheat.group in Groups(old(cheats)) - s;
        s := s + {cheat.group};
        var c := HeaderOf(cheat);
        cheats := cheats[..i] + [c] + cheats[i..];
        assert cheats[i + 1..] == rest && cheats[..i + 1] == done + [c];
        i := i + 1;
      }
      assert cheats[..i] == cheats && cheats[i..] == [];
    }
  }

  lemma PrefixedNothing()
    ensures forall seen :: Prefixed([], seen) == []
  {
  }

  lemma PrefixedSeen(done: seq<Entry>, rest: seq<Entry>, seen: set<string>)
    requires rest != [] && rest[0].group in seen
    ensures done + Prefixed(rest, seen) == (done + [rest[0]]) + Prefixed(rest[1..], seen)
  {
  }

  lemma PrefixedNew(done: seq<Entry>, rest: seq<Entry>, seen: set<string>)
    requires rest != [] && rest[0].group !in seen
    ensures done + Prefixed(rest, seen) == (done + [HeaderOf(rest[0])]) + Prefixed(rest, seen + {rest[0].group})
  {
  }

  // ── What the result is ──

  function DropHeaders(list: seq<Entry>): seq<Entry> {
    if list == [] then [] else (if list[0].isHeader then [] else [list[0]]) + DropHeaders(list[1..])
  }

  predicate Plain(list: seq<Entry>) {
    forall i :: 0 <= i < |list| ==> !list[i].isHeader
  }

  /** Dropping the headers gives the original list back. */
  lemma {:induction false} HeadersOnlyAdd(cheats: seq<Entry>, seen: set<string>)
    requires Plain(cheats)
    ensures DropHeaders(Prefixed(cheats, seen)) == cheats
  {
    if cheats != [] {
      var r := Prefixed(cheats, seen);
      if cheats[0].group in seen {
        HeadersOnlyAdd(cheats[1..], seen);
        assert r[1..] == Prefixed(cheats[1..], seen);
      } else {
        HeadersOnlyAdd(cheats[1..], seen + {cheats[0].group});
        assert r[1..] == [cheats[0]] + Prefixed(cheats[1..], seen + {cheats[0].group});
        assert r[1..][1..] == Prefixed(cheats[1..], seen + {cheats[0].group});
      }
    }
  }

  /** Nothing of this group stands before index `k`. */
  predicate FirstOfGroup(list: seq<Entry>, k: nat)
    requires k < |list|
  {
    forall j :: 0 <= j < k ==> list[j].group != list[k].group
  }

  /** `k` holds a header that is the first entry of its group and stands right before a member of the group. */
  predicate HeaderAt(list: seq<Entry>, k: nat)
    requires k < |list|
  {
    list[k].isHeader && FirstOfGroup(list, k) && k + 1 < |list| && !list[k + 1].isHeader
        && list[k + 1].group == list[k].group
  }

  predicate WellHeaded(list: seq<Entry>, seen: set<string>) {
    && (forall k :: 0 <= k < |list| && list[k].isHeader ==> HeaderAt(list, k) && list[k].group !in seen)
    && (forall k :: 0 <= k < |list| && FirstOfGroup(list, k) && list[k].group !in seen ==> list[k].isHeader)
  }

  lemma HeaderShifts(x: Entry, rest: seq<Entry>, k: nat)
    requires k < |rest| && HeaderAt(rest, k) && x.group != rest[k].group
    ensures HeaderAt([x] + rest, k + 1)
  {
    var r := [x] + rest;
    forall j | 0 <= j < k + 1 ensures r[j].group != r[k + 1].group {
      if j > 0 { assert r[j] == rest[j - 1]; }
    }
    assert r[k + 2] == rest[k + 1];
  }

  lemma FirstShifts(x: Entry, rest: seq<Entry>, k: nat)
    requires k < |rest| && FirstOfGroup([x] + rest, k + 1)
    ensures FirstOfGroup(rest, k) && x.group != rest[k].group
  {
    var r := [x] + rest;
    assert r[0].group != r[k + 1].group;
    forall j | 0 <= j < k ensures rest[j].group != rest[k].group {
      assert r[j + 1].group != r[k + 1].group;
    }
  }

  lemma SeenOne(e: Entry, rest: seq<Entry>, seen: set<string>)
    requires WellHeaded(rest, seen) && e.group in seen && !e.isHeader
    ensures WellHeaded([e] + rest, seen)
  {
    hide HeaderAt, FirstOfGroup;
    var r := [e] + rest;
    forall k | 0 <= k < |r| && r[k].isHeader ensures HeaderAt(r, k) && r[k].group !in seen {
      assert r[k] == rest[k - 1];
      HeaderShifts(e, rest, k - 1);
    }
    forall k | 0 <= k < |r| && FirstOfGroup(r, k) && r[k].group !in seen ensures r[k].isHeader {
      assert k > 0 && r[k] == rest[k - 1];
      FirstShifts(e, rest, k - 1);
    }
  }

  lemma NewHeader(e: Entry, rest: seq<Entry>)
    requires !e.isHeader
    ensures HeaderAt([HeaderOf(e)] + ([e] + rest), 0)
  {
  }

  lemma NewOne(e: Entry, rest: seq<Entry>, seen: set<string>)
    requires WellHeaded(rest, seen + {e.group}) && e.group !in seen && !e.isHeader
    ensures WellHeaded([HeaderOf(e)] + ([e] + rest), seen)
  {
    hide HeaderAt, FirstOfGroup;
    var mid := [e] + rest;
    var r := [HeaderOf(e)] + mid;
    assert HeaderOf(e).group == e.group && HeaderOf(e).isHeader;
    NewHeader(e, rest);
    forall k | 0 <= k < |r| && r[k].isHeader ensures HeaderAt(r, k) && r[k].group !in seen {
      if k > 0 {
        assert r[k] == mid[k - 1] && k > 1 && mid[k - 1] == rest[k - 2];
        HeaderShifts(e, rest, k - 2);
        HeaderShifts(HeaderOf(e), mid, k - 1);
      }
    }
    forall k | 0 <= k < |r| && FirstOfGroup(r, k) && r[k].group !in seen ensures r[k].isHeader {
      if k > 0 {
        FirstShifts(HeaderOf(e), mid, k - 1);
        assert r[k] == mid[k - 1] && k > 1 && mid[k - 1] == rest[k - 2];
        FirstShifts(e, rest, k - 2);
      }
    }
  }

  /** Every header is the first entry of its group, right before the group's first member, and every group has one. */
  lemma {:induction false} OneHeaderPerGroup(cheats: seq<Entry>, seen: set<string>)
    requires Plain(cheats)
    ensures WellHeaded(Prefixed(cheats, seen), seen)
  {
    hide WellHeaded, HeaderOf, FirstOfGroup, HeaderAt;
    if cheats == [] {
      NothingWellHeaded(seen);
    } else {
      var e, rest := cheats[0], cheats[1..];
      if e.group in seen {
        OneHeaderPerGroup(rest, seen);
        SeenOne(e, Prefixed(rest, seen), seen);
      } else {
        OneHeaderPerGroup(rest, seen + {e.group});
        NewOne(e, Prefixed(rest, seen + {e.group}), seen);
        assert Prefixed(cheats, seen) == [HeaderOf(e)] + ([e] + Prefixed(rest, seen + {e.group}));
      }
    }
  }

  lemma NothingWellHeaded(seen: set<string>)
    ensures WellHeaded([], seen)
  {
  }
}
