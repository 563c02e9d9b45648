/**
 * The notation parser: `TryParseDiceNotation` and the pattern
 * `^(\d+)d(\d+)([\+\-]\d+)?$` (case-insensitive) it matches each token
 * against, written out as a deterministic recogniser over the token's
 * characters.
 */
module Notation {
  import opened Wrappers
  import opened Decimal

  /** One roll: how many dice, how many sides, and the signed modifier if any. */
  datatype RollSpec = RollSpec(diceCount: nat, diceSize: nat, modifier: Option<int>)

  /** The parse result as `TryParseDiceNotation` leaves it: the bool it returns and its out-parameter. */
  datatype ParseOutcome = ParseOutcome(success: bool, result: RollSpec)

  /**
   * A successful match of the pattern: the first two capture groups, the
   * letter between them, and the third group (sign included) when it took part.
   */
  datatype Match = Match(group1: string, letter: char, group2: string, group3: Option<string>)

  predicate IsDiceLetter(c: char) {
    c == 'd' || c == 'D'
  }

  predicate IsSign(c: char) {
    c == '+' || c == '-'
  }

  predicate DigitGroup(s: string) {
    |s| >= 1 && AllDigits(s)
  }

  /** `[\+\-]\d+`: a sign followed by one or more digits. */
  predicate SignedGroup(g: string) {
    |g| >= 2 && IsSign(g[0]) && AllDigits(g[1..])
  }

  predicate WellFormed(m: Match) {
    && DigitGroup(m.group1)
    && IsDiceLetter(m.letter)
    && DigitGroup(m.group2)
    && (m.group3.Some? ==> SignedGroup(m.group3.value))
  }

  /** The token a match covers, start to end. */
  function Spell(m: Match): string {
    m.group1 + [m.letter] + m.group2 + (if m.group3.Some? then m.group3.value else "")
  }

  /** Length of the longest prefix of `s` made of digits. */
  function DigitRun(s: string): (n: nat)
    ensures n <= |s|
    ensures AllDigits(s[..n])
    ensures n < |s| ==> !IsDigit(s[n])
  {
    if s == [] || !IsDigit(s[0]) then 0
    else
      var n := 1 + DigitRun(s[1..]);
      assert forall i :: 1 <= i < n ==> s[..n][i] == s[1..][..n - 1][i - 1];
      n
  }

  lemma {:induction false} DigitRunOf(a: string, b: string)
    requires AllDigits(a)
    requires b == [] || !IsDigit(b[0])
    ensures DigitRun(a + b) == |a|
  {
    if a != [] {
      assert (a + b)[1..] == a[1..] + b;
      DigitRunOf(a[1..], b);
    } else {
      assert a + b == b;
    }
  }

  /**
   * The pattern, as a recogniser: the whole token must be consumed. Each group
   * of digits is taken greedily; since the characters after a group ('d', a
   * sign, or the end) are never digits, greedy matching is the only way the
   * pattern can match, so no backtracking is needed.
   */
  function MatchToken(t: string): (r: Option<Match>)
    ensures r.Some? ==> WellFormed(r.value) && Spell(r.value) == t
  {
    var i := DigitRun(t);
    if i == 0 || i == |t| || !IsDiceLetter(t[i]) then None
    else
      var rest := t[i + 1..];
      var j := DigitRun(rest);
      if j == 0 then None
      else if j == |rest| then
        assert t == t[..i] + [t[i]] + rest;
        Some(Match(t[..i], t[i], rest, None))
      else if !IsSign(rest[j]) then None
      else
        var tail := rest[j + 1..];
        if DigitRun(tail) == 0 || DigitRun(tail) != |tail| then None
        else
          assert tail[..|tail|] == tail;
          assert rest[j..][1..] == tail;
          assert t == t[..i] + [t[i]] + rest[..j] + rest[j..];
          Some(Match(t[..i], t[i], rest[..j], Some(rest[j..])))
  }

  /** `int.Parse` of the third group: the sign is part of the number. */
  function SignedValue(g: string): int
    requires SignedGroup(g)
  {
    if g[0] == '-' then -(Value(g[1..]) as int) else Value(g[1..])
  }

  /** The roll a match denotes. */
  function SpecOf(m: Match): RollSpec
    requires WellFormed(m)
  {
    RollSpec(Value(m.group1), Value(m.group2),
             if m.group3.Some? then Some(SignedValue(m.group3.value)) else None)
  }

  /** `TryParseDiceNotation`: on a mismatch, false with the out-result left at (0, 0, null). */
  function TryParseDiceNotation(t: string): (r: ParseOutcome)
    ensures !r.success ==> r.result == RollSpec(0, 0, None)
    ensures r.success ==> MatchToken(t).Some? && r.result == SpecOf(MatchToken(t).value)
  {
    match MatchToken(t)
    case None => ParseOutcome(false, RollSpec(0, 0, None))
    case Some(m) => ParseOutcome(true, SpecOf(m))
  }

  /** The count group and the letter are read off the front of a token. */
  lemma {:induction false} HeadOf(g1: string, letter: char, after: string)
    requires DigitGroup(g1) && IsDiceLetter(letter)
    ensures DigitRun(g1 + [letter] + after) == |g1|
    ensures (g1 + [letter] + after)[..|g1|] == g1
    ensures (g1 + [letter] + after)[|g1|] == letter
    ensures (g1 + [letter] + after)[|g1| + 1..] == after
  {
    assert g1 + [letter] + after == g1 + ([letter] + after);
    DigitRunOf(g1, [letter] + after);
  }

  lemma {:induction false} MatchCompletePlain(m: Match)
    requires WellFormed(m) && m.group3 == None
    ensures MatchToken(Spell(m)) == Some(m)
  {
    assert Spell(m) == m.group1 + [m.letter] + m.group2;
    HeadOf(m.group1, m.letter, m.group2);
    assert m.group2 == m.group2 + [];
    DigitRunOf(m.group2, []);
  }

  /** After the size group, a signed modifier group is read to the end of the token. */
  lemma {:induction false} SignedTail(g2: string, g: string)
    requires DigitGroup(g2) && SignedGroup(g)
    ensures DigitRun(g2 + g) == |g2|
    ensures (g2 + g)[..|g2|] == g2
    ensures (g2 + g)[|g2|] == g[0]
    ensures (g2 + g)[|g2|..] == g
    ensures (g2 + g)[|g2| + 1..] == g[1..]
    ensures DigitRun(g[1..]) == |g[1..]|
  {
    DigitRunOf(g2, g);
    assert g[1..] == g[1..] + [];
    DigitRunOf(g[1..], []);
  }

  lemma {:induction false} MatchCompleteSigned(m: Match)
    requires WellFormed(m) && m.group3.Some?
    ensures MatchToken(Spell(m)) == Some(m)
  {
    var g := m.group3.value;
    var after := m.group2 + g;
    assert Spell(m) == m.group1 + [m.letter] + after;
    HeadOf(m.group1, m.letter, after);
    SignedTail(m.group2, g);
  }

  /** Every well-formed spelling is recognised, with exactly the groups it was built from. */
  lemma MatchComplete(m: Match)
    requires WellFormed(m)
    ensures MatchToken(Spell(m)) == Some(m)
  {
    if m.group3.None? {
      MatchCompletePlain(m);
    } else {
      MatchCompleteSigned(m);
    }
  }

  /** Parsing accepts exactly the tokens that are the spelling of a well-formed match. */
  lemma ParseAcceptance(t: string)
    ensures TryParseDiceNotation(t).success <==> exists m :: WellFormed(m) && Spell(m) == t
  {
    if exists m :: WellFormed(m) && Spell(m) == t {
      var m :| WellFormed(m) && Spell(m) == t;
      MatchComplete(m);
    }
  }

  /** The values a spelled token parses to: the two digit groups and the signed third group. */
  lemma ParseValues(m: Match)
    requires WellFormed(m)
    ensures TryParseDiceNotation(Spell(m)) == ParseOutcome(true, SpecOf(m))
    ensures TryParseDiceNotation(Spell(m)).result.diceCount == Value(m.group1)
    ensures TryParseDiceNotation(Spell(m)).result.diceSize == Value(m.group2)
    ensures TryParseDiceNotation(Spell(m)).result.modifier.None? <==> m.group3.None?
  {
    MatchComplete(m);
  }

  /** A token splits into the pattern's groups in at most one way. */
  lemma MatchUnique(m1: Match, m2: Match)
    requires WellFormed(m1) && WellFormed(m2)
    requires Spell(m1) == Spell(m2)
    ensures m1 == m2
  {
    MatchComplete(m1);
    MatchComplete(m2);
  }

  /** Tokens missing a count, a letter or a size are rejected. */
  lemma RejectedShapes()
    ensures !TryParseDiceNotation("d6").success
    ensures !TryParseDiceNotation("").success
    ensures !TryParseDiceNotation("2d").success
  {
    assert DigitRun("d6") == 0;
    assert DigitRun("") == 0;
    assert DigitRun("2d") == 1;
  }

  /** The separator must be the letter d (either case). */
  lemma RejectedLetter()
    ensures !TryParseDiceNotation("2x6").success
  {
    assert DigitRun("2x6") == 1;
  }

  /** Nothing may follow the size but a signed number. */
  lemma RejectedTails()
    ensures !TryParseDiceNotation("2d6*").success
    ensures !TryParseDiceNotation("2d6+").success
  {
    assert DigitRun("2d6*") == 1 && DigitRun("6*") == 1;
    assert DigitRun("2d6+") == 1 && DigitRun("6+") == 1 && DigitRun("") == 0;
  }

  /** Tokens the pattern accepts, with the letter in either case and a mandatory sign on the modifier. */
  lemma AcceptedPlain()
    ensures TryParseDiceNotation("2d6") == ParseOutcome(true, RollSpec(2, 6, None))
  {
    hide TryParseDiceNotation;
    var m := Match("2", 'd', "6", None);
    ParseValues(m);
    assert Spell(m) == "2d6";
  }

  lemma AcceptedPlus()
    ensures TryParseDiceNotation("1D20+5") == ParseOutcome(true, RollSpec(1, 20, Some(5)))
  {
    hide TryParseDiceNotation;
    var m := Match("1", 'D', "20", Some("+5"));
    PlusParts();
    ParseValues(m);
  }

  /** The parts of "1D20+5" and the values they denote. */
  lemma PlusParts()
    ensures WellFormed(Match("1", 'D', "20", Some("+5")))
    ensures Spell(Match("1", 'D', "20", Some("+5"))) == "1D20+5"
    ensures SpecOf(Match("1", 'D', "20", Some("+5"))) == RollSpec(1, 20, Some(5))
  {
    assert Value("20") == 20 by { assert "20"[..1] == "2"; assert "2"[..0] == ""; }
    assert SignedValue("+5") == 5 by { assert "+5"[1..] == "5"; }
  }

  lemma AcceptedMinus()
    ensures TryParseDiceNotation("3d8-2") == ParseOutcome(true, RollSpec(3, 8, Some(-2)))
  {
    hide TryParseDiceNotation;
    MinusParts();
    ParseValues(Match("3", 'd', "8", Some("-2")));
  }

  /** The parts of "3d8-2" and the values they denote. */
  lemma MinusParts()
    ensures WellFormed(Match("3", 'd', "8", Some("-2")))
    ensures Spell(Match("3", 'd', "8", Some("-2"))) == "3d8-2"
    ensures SpecOf(Match("3", 'd', "8", Some("-2"))) == RollSpec(3, 8, Some(-2))
  {
    assert "-2"[1..] == "2";
  }

  lemma AcceptedZeroes()
    ensures TryParseDiceNotation("0d0-0") == ParseOutcome(true, RollSpec(0, 0, Some(0)))
  {
    hide TryParseDiceNotation;
    ZeroesParts();
    ParseValues(Match("0", 'd', "0", Some("-0")));
  }

  /** The parts of "0d0-0" and the values they denote. */
  lemma ZeroesParts()
    ensures WellFormed(Match("0", 'd', "0", Some("-0")))
    ensures Spell(Match("0", 'd', "0", Some("-0"))) == "0d0-0"
    ensures SpecOf(Match("0", 'd', "0", Some("-0"))) == RollSpec(0, 0, Some(0))
  {
    assert "-0"[1..] == "0";
  }
}
