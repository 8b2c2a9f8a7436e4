/** Search input in LIKE patterns: after sanitizing, a search finds exactly the texts that contain the typed words. */
module SearchEscape {
  import opened Tables

  const MAX_LENGTH: nat := 100

  // ── sanitizeSearchInput ──

  /** JavaScript white space and line terminators. */
  predicate IsSpace(c: char) {
    var n := c as int;
    9 <= n <= 13 || n == 32 || n == 0xA0 || n == 0x1680 || 0x2000 <= n <= 0x200A
        || n in {0x2028, 0x2029, 0x202F, 0x205F, 0x3000, 0xFEFF}
  }

  function TrimStart(s: string): string {
    if s != [] && IsSpace(s[0]) then TrimStart(s[1..]) else s
  }

  function TrimEnd(s: string): string {
    if s != [] && IsSpace(s[|s| - 1]) then TrimEnd(s[..|s| - 1]) else s
  }

  function Capped(s: string): (r: string)
    ensures |r| <= MAX_LENGTH
  {
    var t := TrimEnd(TrimStart(s));
    if |t| <= MAX_LENGTH then t else t[..MAX_LENGTH]
  }

  lemma {:induction false} TrimStartSplits(s: string) returns (before: string)
    ensures s == before + TrimStart(s) && forall c :: c in before ==> IsSpace(c)
    ensures TrimStart(s) == [] || !IsSpace(TrimStart(s)[0])
  {
    if s != [] && IsSpace(s[0]) {
      before := TrimStartSplits(s[1..]);
      before := [s[0]] + before;
    } else {
      before := "";
    }
  }

  lemma {:induction false} TrimEndSplits(s: string) returns (after: string)
    ensures s == TrimEnd(s) + after && forall c :: c in after ==> IsSpace(c)
    ensures TrimEnd(s) == [] || !IsSpace(TrimEnd(s)[|TrimEnd(s)| - 1])
  {
    if s != [] && IsSpace(s[|s| - 1]) {
      after := TrimEndSplits(s[..|s| - 1]);
      assert s == TrimEnd(s) + after + [s[|s| - 1]];
      after := after + [s[|s| - 1]];
    } else {
      after := "";
    }
  }

  /** Trimming takes white space from both ends and nothing else, and the cap takes the rest from the end only. */
  lemma CappedExactly(s: string) returns (before: string, kept: string, after: string)
    ensures s == before + kept + after && (forall c :: c in before + after ==> IsSpace(c))
    ensures kept == [] || (!IsSpace(kept[0]) && !IsSpace(kept[|kept| - 1]))
    ensures Capped(s) == if |kept| <= MAX_LENGTH then kept else kept[..MAX_LENGTH]
  {
    before := TrimStartSplits(s);
    after := TrimEndSplits(TrimStart(s));
    kept := TrimEnd(TrimStart(s));
    assert kept != [] ==> kept[0] == TrimStart(s)[0];
  }

  /** `replace(/c/g, by)`. */
  function ReplaceAll(s: string, c: char, to: string): string {
    if s == [] then [] else (if s[0] == c then to else [s[0]]) + ReplaceAll(s[1..], c, to)
  }

  /** The three replaces, the escape character first. */
  function Replaced(s: string): string {
    ReplaceAll(ReplaceAll(ReplaceAll(s, '\\', "\\\\"), '%', "\\%"), '_', "\\_")
  }

  function SanitizeSearchInput(input: Option<string>): Option<string> {
    if input.None? || input.value == [] then None else Some(Replaced(Capped(input.value)))
  }

  // ── One escape per character ──

  predicate Special(c: char) {
    c == '\\' || c == '%' || c == '_'
  }

  function Escaped(s: string): string {
    if s == [] then [] else (if Special(s[0]) then ['\\', s[0]] else [s[0]]) + Escaped(s[1..])
  }

  lemma {:induction false} ReplaceConcat(a: string, b: string, c: char, to: string)
    ensures ReplaceAll(a + b, c, to) == ReplaceAll(a, c, to) + ReplaceAll(b, c, to)
  {
    if a == [] {
      assert a + b == b;
    } else {
      assert (a + b)[1..] == a[1..] + b;
      ReplaceConcat(a[1..], b, c, to);
    }
  }

  lemma ReplaceOne(x: char, c: char, to: string)
    ensures ReplaceAll([x], c, to) == if x == c then to else [x]
  {
    assert [x][1..] == [];
  }

  lemma ReplaceTwo(x: char, y: char, c: char, to: string)
    requires x != c && y != c
    ensures ReplaceAll([x, y], c, to) == [x, y]
  {
    assert [x, y][1..] == [y];
    ReplaceOne(y, c, to);
  }

  lemma ReplacedConcat(a: string, b: string)
    ensures Replaced(a + b) == Replaced(a) + Replaced(b)
  {
    ReplaceConcat(a, b, '\\', "\\\\");
    var a1, b1 := ReplaceAll(a, '\\', "\\\\"), ReplaceAll(b, '\\', "\\\\");
    ReplaceConcat(a1, b1, '%', "\\%");
    ReplaceConcat(ReplaceAll(a1, '%', "\\%"), ReplaceAll(b1, '%', "\\%"), '_', "\\_");
  }

  lemma ReplacedOne(x: char)
    ensures Replaced([x]) == if Special(x) then ['\\', x] else [x]
  {
    ReplaceOne(x, '\\', "\\\\");
    if x == '\\' {
      ReplaceTwo('\\', '\\', '%', "\\%");
      ReplaceTwo('\\', '\\', '_', "\\_");
    } else {
      ReplaceOne(x, '%', "\\%");
      if x == '%' {
        ReplaceTwo('\\', '%', '_', "\\_");
      } else {
        ReplaceOne(x, '_', "\\_");
      }
    }
  }

  /** The three successive replaces are one escape per character. */
  lemma {:induction false} ThreeReplacesAreOneEscape(s: string)
    ensures Replaced(s) == Escaped(s)
  {
    if s != [] {
      assert s == [s[0]] + s[1..];
      ReplacedConcat([s[0]], s[1..]);
      ReplacedOne(s[0]);
      ThreeReplacesAreOneEscape(s[1..]);
    }
  }

  // ── LIKE ──

  /** The pattern does not end in the middle of an escape. */
  predicate WellFormed(p: string) {
    if p == [] then true
    else if p[0] == '\\' then |p| >= 2 && WellFormed(p[2..])
    else WellFormed(p[1..])
  }

  /** LIKE with the backslash as escape character, section 9.7.1 of the PostgreSQL documentation. */
  predicate Like(t: string, p: string)
    decreases |p|, |t|
  {
    if p == [] then t == []
    else if p[0] == '%' then Like(t, p[1..]) || (t != [] && Like(t[1..], p))
    else if p[0] == '_' then t != [] && Like(t[1..], p[1..])
    else if p[0] == '\\' then |p| >= 2 && t != [] && t[0] == p[1] && Like(t[1..], p[2..])
    else t != [] && t[0] == p[0] && Like(t[1..], p[1..])
  }

  predicate OccursAt(t: string, s: string, i: nat) {
    i + |s| <= |t| && t[i..i + |s|] == s
  }

  predicate Contains(t: string, s: string) {
    exists i :: 0 <= i <= |t| && OccursAt(t, s, i)
  }

  lemma AfterEscape(c: char, q: string)
    requires WellFormed(q)
    ensures WellFormed(['\\', c] + q)
  {
    assert (['\\', c] + q)[2..] == q;
  }

  lemma {:induction false} EscapedIsWellFormed(s: string, rest: string)
    requires WellFormed(rest)
    ensures WellFormed(Escaped(s) + rest)
  {
    if s == [] {
      assert Escaped(s) + rest == rest;
    } else {
      EscapedIsWellFormed(s[1..], rest);
      var p, q := Escaped(s) + rest, Escaped(s[1..]) + rest;
      if Special(s[0]) {
        assert p == ['\\', s[0]] + q;
        AfterEscape(s[0], q);
      } else {
        assert p == [s[0]] + q;
        assert p[1..] == q;
      }
    }
  }

  function EscapeOne(c: char): string {
    if Special(c) then ['\\', c] else [c]
  }

  lemma EscapedCharMatchesItself(c: char, q: string, t: string)
    ensures Like(t, EscapeOne(c) + q) <==> t != [] && t[0] == c && Like(t[1..], q)
  {
    var p := EscapeOne(c) + q;
    if Special(c) {
      assert p[0] == '\\' && p[1] == c && p[2..] == q;
    } else {
      assert p[0] == c && p[1..] == q;
    }
  }

  /** An escaped string matches itself, literally. */
  lemma {:induction false} EscapedMatchesItself(s: string, rest: string, t: string)
    ensures Like(t, Escaped(s) + rest) <==> |t| >= |s| && t[..|s|] == s && Like(t[|s|..], rest)
  {
    hide Like;
    if s == [] {
      assert Escaped(s) + rest == rest && t[0..] == t;
    } else {
      assert Escaped(s) + rest == EscapeOne(s[0]) + (Escaped(s[1..]) + rest);
      EscapedCharMatchesItself(s[0], Escaped(s[1..]) + rest, t);
      if t != [] {
        EscapedMatchesItself(s[1..], rest, t[1..]);
        if |t| >= |s| {
          assert t[..|s|] == [t[0]] + t[1..][..|s| - 1] && s == [s[0]] + s[1..];
          assert t[1..][|s| - 1..] == t[|s|..];
        }
      }
    }
  }

  /** A leading `%` skips any prefix. */
  lemma {:induction false} PercentSkips(t: string, p: string)
    ensures Like(t, "%" + p) <==> exists i :: 0 <= i <= |t| && Like(t[i..], p)
    decreases |t|
  {
    assert ("%" + p)[1..] == p && t[0..] == t;
    if t != [] {
      PercentSkips(t[1..], p);
      if i :| 0 <= i <= |t[1..]| && Like(t[1..][i..], p) { assert t[1..][i..] == t[i + 1..]; }
      if i :| 0 < i <= |t| && Like(t[i..], p) { assert t[1..][i - 1..] == t[i..]; }
    } else {
      assert forall i :: 0 <= i <= |t| ==> t[i..] == t;
    }
  }

  lemma EverythingAfter(t: string)
    ensures Like(t, "%")
  {
    PercentSkips(t, "");
    assert "%" + "" == "%" && t[|t|..] == "";
  }

  /** Escaped input between two `%` matches exactly the texts that contain it. */
  lemma EscapedSearchIsLiteral(s: string, t: string)
    ensures Like(t, "%" + (Escaped(s) + "%")) <==> Contains(t, s)
  {
    PercentSkips(t, Escaped(s) + "%");
    if Contains(t, s) {
      var i :| 0 <= i <= |t| && OccursAt(t, s, i);
      assert t[i..][..|s|] == s;
      EverythingAfter(t[i..][|s|..]);
      EscapedMatchesItself(s, "%", t[i..]);
    }
    if Like(t, "%" + (Escaped(s) + "%")) {
      var i :| 0 <= i <= |t| && Like(t[i..], Escaped(s) + "%");
      EscapedMatchesItself(s, "%", t[i..]);
      assert t[i..i + |s|] == t[i..][..|s|];
      assert OccursAt(t, s, i);
    }
  }

  /** Search escaping is literal: for every non-empty input the pattern of `contains` is well formed, and it matches a
      text just when the text contains the trimmed input of at most 100 characters. */
  lemma SearchIsLiteral(input: string, t: string)
    requires input != []
    ensures SanitizeSearchInput(Some(input)).Some?
    ensures var pattern := "%" + (SanitizeSearchInput(Some(input)).value + "%");
            WellFormed(pattern) && (Like(t, pattern) <==> Contains(t, Capped(input)))
  {
    var s := Capped(input);
    ThreeReplacesAreOneEscape(s);
    EscapedSearchIsLiteral(s, t);
    var rest := Escaped(s) + "%";
    assert ("%")[1..] == "";
    EscapedIsWellFormed(s, "%");
    assert ("%" + rest)[1..] == rest;
  }

  /** Cutting the escaped string instead could leave an escape without its character. */
  lemma CutAfterEscapingDangles(s: string)
    requires |s| == MAX_LENGTH && s[MAX_LENGTH - 1] == '%' && forall i :: 0 <= i < MAX_LENGTH - 1 ==> !Special(s[i])
    ensures |Escaped(s)| > MAX_LENGTH && !WellFormed(Escaped(s)[..MAX_LENGTH])
  {
    var p := s[..MAX_LENGTH - 1];
    PlainStays(p, "%");
    assert s == p + "%";
    assert Escaped("%") == "\\%" by { assert ("%")[1..] == ""; }
    assert Escaped(s)[..MAX_LENGTH] == p + "\\";
    PlainThenEscape(p);
  }

  lemma {:induction false} PlainStays(p: string, rest: string)
    requires forall i :: 0 <= i < |p| ==> !Special(p[i])
    ensures Escaped(p + rest) == p + Escaped(rest)
  {
    if p == [] {
      assert p + rest == rest;
    } else {
      assert (p + rest)[1..] == p[1..] + rest;
      PlainStays(p[1..], rest);
      assert p == [p[0]] + p[1..];
    }
  }

  lemma {:induction false} PlainThenEscape(p: string)
    requires forall i :: 0 <= i < |p| ==> !Special(p[i])
    ensures !WellFormed(p + "\\")
  {
    if p != [] {
      assert (p + "\\")[1..] == p[1..] + "\\";
      PlainThenEscape(p[1..]);
    }
  }
}
