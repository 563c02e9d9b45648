/**
 * The roll evaluator and renderer, `GetDiceNotationResult`: the title built
 * eagerly from the roll specifications, and the action, a closure that rolls
 * the dice, writes the body text and adds every subtotal into a `totalSum`
 * variable it captured when it was created.
 *
 * The random source is replaced by the sequence of values it hands out
 * (`draws`), consumed in order: all dice of the first roll, then all dice of
 * the second, and so on.
 */
module Evaluator {
  import opened Wrappers
  import opened Decimal
  import opened Text
  import opened Notation

  /** The line break the body uses (`Environment.NewLine`), taken as one character. */
  const NewLine: string := "\n"
  const IconPath: string := "Images\\light-dice_1.png"
  const PressToRoll: string := "Press To Roll"
  const RollingTitle: string := "Rolling..."

  /**
   * A launcher result: title, subtitle, icon and score, and the batch of
   * rolls its action rolls when the result has an action. A property the
   * source never sets is the empty string here.
   */
  datatype Result = Result(title: string, subTitle: string, icon: string, score: int,
                           action: Option<seq<RollSpec>>)

  /** What the action hands to the host's message box. */
  datatype Message = Message(title: string, body: string, icon: string)

  const BareResult: Result := Result("", "", "", 0, None)

  // ---------------------------------------------------------------- title

  /** The `+#;-#;0` format: an explicit sign on a non-zero modifier, a bare "0" for zero. */
  function FormatModifier(m: int): string {
    if m > 0 then "+" + NatToString(m)
    else if m < 0 then "-" + NatToString(-m)
    else "0"
  }

  /** A zero modifier is written "0"; any other is its sign followed by at least one digit. */
  lemma FormatModifierShape(m: int)
    ensures m == 0 <==> FormatModifier(m) == "0"
    ensures m != 0 ==> |FormatModifier(m)| >= 2
    ensures m > 0 ==> FormatModifier(m)[0] == '+'
    ensures m < 0 ==> FormatModifier(m)[0] == '-'
  {
    if m != 0 {
      var mag: nat := if m > 0 then m else -m;
      assert |NatToString(mag)| >= 1;
    }
  }

  function ModifierText(modifier: Option<int>): string {
    if modifier.Some? then FormatModifier(modifier.value) else ""
  }

  /** One roll in the title: `{diceCount}d{diceSize}` and the formatted modifier. */
  function SpecTitle(spec: RollSpec): string {
    NatToString(spec.diceCount) + "d" + NatToString(spec.diceSize) + ModifierText(spec.modifier)
  }

  function SpecTitles(specs: seq<RollSpec>): (ts: seq<string>)
    ensures |ts| == |specs|
    ensures forall k {:trigger ts[k]} :: 0 <= k < |specs| ==> ts[k] == SpecTitle(specs[k])
  {
    seq(|specs|, k requires 0 <= k < |specs| => SpecTitle(specs[k]))
  }

  /** The whole title: the rolls' titles, one space between consecutive ones. */
  function Title(specs: seq<RollSpec>): string {
    Join(SpecTitles(specs), " ")
  }

  // ---------------------------------------------------------------- rolls

  /** How many values the random source hands out for a batch. */
  function TotalDice(specs: seq<RollSpec>): nat {
    if specs == [] then 0 else TotalDice(specs[..|specs| - 1]) + specs[|specs| - 1].diceCount
  }

  function Sum(xs: seq<int>): int {
    if xs == [] then 0 else Sum(xs[..|xs| - 1]) + xs[|xs| - 1]
  }

  /** The values the draw `Next(1, diceSize + 1)` can give: [1, diceSize], and 1 for a zero size. */
  predicate InRange(v: int, diceSize: nat) {
    1 <= v <= (if diceSize == 0 then 1 else diceSize)
  }

  /** The draws of each roll, in batch order. */
  function Rolls(specs: seq<RollSpec>, draws: seq<int>): (rs: seq<seq<int>>)
    requires |draws| == TotalDice(specs)
    ensures |rs| == |specs|
    ensures forall k {:trigger rs[k]} :: 0 <= k < |specs| ==> |rs[k]| == specs[k].diceCount
  {
    if specs == [] then []
    else
      var k := |draws| - specs[|specs| - 1].diceCount;
      Rolls(specs[..|specs| - 1], draws[..k]) + [draws[k..]]
  }

  /** The source of randomness handed out values in range for every die of every roll. */
  predicate LegalDraws(specs: seq<RollSpec>, draws: seq<int>) {
    && |draws| == TotalDice(specs)
    && forall k, j :: 0 <= k < |specs| && 0 <= j < |Rolls(specs, draws)[k]| ==>
         InRange(Rolls(specs, draws)[k][j], specs[k].diceSize)
  }

  function ModifierOrZero(spec: RollSpec): int {
    if spec.modifier.Some? then spec.modifier.value else 0
  }

  /** A roll's subtotal: its draws plus its modifier (0 when absent). */
  function Subtotal(spec: RollSpec, rolls: seq<int>): int {
    Sum(rolls) + ModifierOrZero(spec)
  }

  /** The sum of the subtotals of a batch. */
  function GrandTotal(specs: seq<RollSpec>, draws: seq<int>): int
    requires |draws| == TotalDice(specs)
  {
    if specs == [] then 0
    else
      var k := |draws| - specs[|specs| - 1].diceCount;
      GrandTotal(specs[..|specs| - 1], draws[..k]) + Subtotal(specs[|specs| - 1], draws[k..])
  }

  function ModifierSum(specs: seq<RollSpec>): int {
    if specs == [] then 0 else ModifierSum(specs[..|specs| - 1]) + ModifierOrZero(specs[|specs| - 1])
  }

  // ---------------------------------------------------------------- body

  /** The draws as decimal strings, in order. */
  function IntStrings(xs: seq<int>): seq<string> {
    seq(|xs|, k requires 0 <= k < |xs| => IntToString(xs[k]))
  }

  /** The ` = {subtotal}` suffix is shown for more than one die or any modifier. */
  predicate ShowsSubtotal(spec: RollSpec, rolls: seq<int>) {
    |rolls| > 1 || spec.modifier.Some?
  }

  /** The start of a roll's line: `{diceCount}d{diceSize}: `. */
  function RollName(spec: RollSpec): string {
    NatToString(spec.diceCount) + "d" + NatToString(spec.diceSize) + ": "
  }

  /** ` ({modifier})` when the roll has a modifier. */
  function ModifierNote(spec: RollSpec): string {
    if spec.modifier.Some? then " (" + FormatModifier(spec.modifier.value) + ")" else ""
  }

  /** ` = {subtotal}` when the line shows the subtotal. */
  function SubtotalNote(spec: RollSpec, rolls: seq<int>): string {
    if ShowsSubtotal(spec, rolls) then " = " + IntToString(Subtotal(spec, rolls)) else ""
  }

  /** A roll's line up to the subtotal: its name, the draws joined by ", ", the modifier note. */
  function LineHead(spec: RollSpec, rolls: seq<int>): string {
    RollName(spec) + Join(IntStrings(rolls), ", ") + ModifierNote(spec)
  }

  function SpecLine(spec: RollSpec, rolls: seq<int>): string {
    LineHead(spec, rolls) + SubtotalNote(spec, rolls)
  }

  function Lines(specs: seq<RollSpec>, draws: seq<int>): (ls: seq<string>)
    requires |draws| == TotalDice(specs)
    ensures |ls| == |specs|
  {
    if specs == [] then []
    else
      var k := |draws| - specs[|specs| - 1].diceCount;
      Lines(specs[..|specs| - 1], draws[..k]) + [SpecLine(specs[|specs| - 1], draws[k..])]
  }

  function TotalLine(total: int): string {
    "Total: " + IntToString(total)
  }

  /** The last line of the body: the running total, shown for more than one roll. */
  function Summary(specs: seq<RollSpec>, draws: seq<int>, prior: int): seq<string>
    requires |draws| == TotalDice(specs)
  {
    if |specs| > 1 then [TotalLine(prior + GrandTotal(specs, draws))] else []
  }

  /**
   * The body an invocation shows when `totalSum` held `prior` before it: the
   * lines one per roll, and for more than one roll a last line with the
   * running total, separated by line breaks.
   */
  function Body(specs: seq<RollSpec>, draws: seq<int>, prior: int): string
    requires |draws| == TotalDice(specs)
  {
    Join(Lines(specs, draws) + Summary(specs, draws, prior), NewLine)
  }

  // ---------------------------------------------------------------- lemmas: title

  lemma FormatModifierParses(m: int)
    requires m != 0
    ensures SignedGroup(FormatModifier(m))
    ensures SignedValue(FormatModifier(m)) == m
  {
    var s := FormatModifier(m);
    var mag: nat := if m > 0 then m else -m;
    assert s[1..] == NatToString(mag);
    NatToStringCanonical(mag);
    ValueOfNatToString(mag);
  }

  /** The groups a title's spelling is made of. */
  function TitleMatch(spec: RollSpec): Match {
    Match(NatToString(spec.diceCount), 'd', NatToString(spec.diceSize),
          if spec.modifier.Some? then Some(FormatModifier(spec.modifier.value)) else None)
  }

  /** A roll's title parses back to the same roll, unless its modifier is zero. */
  lemma SpecTitleParses(spec: RollSpec)
    requires spec.modifier != Some(0)
    ensures TryParseDiceNotation(SpecTitle(spec)) == ParseOutcome(true, spec)
  {
    var m := TitleMatch(spec);
    if spec.modifier.Some? {
      FormatModifierParses(spec.modifier.value);
    }
    NatToStringCanonical(spec.diceCount);
    NatToStringCanonical(spec.diceSize);
    assert Spell(m) == SpecTitle(spec);
    ParseValues(m);
    ValueOfNatToString(spec.diceCount);
    ValueOfNatToString(spec.diceSize);
  }

  /**
   * A zero modifier is written as a bare "0" glued to the die size: the
   * title of `1d6+0` is `1d60`, which reads back as sixty-sided dice.
   */
  lemma ZeroModifierTitle()
    ensures SpecTitle(RollSpec(1, 6, Some(0))) == "1d60"
    ensures TryParseDiceNotation("1d60") == ParseOutcome(true, RollSpec(1, 60, None))
  {
    hide TryParseDiceNotation;
    var m := Match("1", 'd', "60", None);
    assert Spell(m) == "1d60";
    ParseValues(m);
    assert Value("60") == 60 by { assert "60"[..1] == "6"; assert "6"[..0] == ""; }
  }

  /** A token written without leading zeros, with a lower-case letter and a non-zero modifier. */
  predicate CanonicalMatch(m: Match) {
    && WellFormed(m)
    && Canonical(m.group1)
    && m.letter == 'd'
    && Canonical(m.group2)
    && (m.group3.Some? ==> Canonical(m.group3.value[1..]) && Value(m.group3.value[1..]) != 0)
  }

  /** The title of a parsed canonical token is the token itself. */
  lemma TitleOfParsed(m: Match)
    requires CanonicalMatch(m)
    ensures SpecTitle(SpecOf(m)) == Spell(m)
  {
    NatToStringOfValue(m.group1);
    NatToStringOfValue(m.group2);
    if m.group3.Some? {
      var g := m.group3.value;
      NatToStringOfValue(g[1..]);
      assert g == [g[0]] + g[1..];
    }
  }

  lemma NatToStringExcludes(n: nat, c: char)
    requires !IsDigit(c)
    ensures c !in NatToString(n)
  {
    NatToStringCanonical(n);
  }

  lemma FormatModifierExcludes(m: int, c: char)
    requires !IsDigit(c) && c != '+' && c != '-'
    ensures c !in FormatModifier(m)
  {
    if m > 0 {
      NatToStringExcludes(m, c);
    } else if m < 0 {
      NatToStringExcludes(-m, c);
    }
  }

  lemma SpecTitleExcludes(spec: RollSpec, c: char)
    requires !IsDigit(c) && c != 'd' && c != '+' && c != '-'
    ensures c !in SpecTitle(spec)
  {
    NatToStringExcludes(spec.diceCount, c);
    NatToStringExcludes(spec.diceSize, c);
    if spec.modifier.Some? {
      FormatModifierExcludes(spec.modifier.value, c);
    }
  }

  /** Splitting a title at its spaces gives the rolls' titles in order. */
  lemma TitleTokens(specs: seq<RollSpec>)
    requires |specs| >= 1
    ensures Split(Title(specs), ' ') == SpecTitles(specs)
  {
    forall k | 0 <= k < |specs| ensures ' ' !in SpecTitles(specs)[k] {
      SpecTitleExcludes(specs[k], ' ');
    }
    SplitJoin(SpecTitles(specs), ' ');
  }

  // ---------------------------------------------------------------- lemmas: rolls

  lemma {:induction false} TotalDicePrefix(specs: seq<RollSpec>, i: nat)
    requires i <= |specs|
    ensures TotalDice(specs[..i]) <= TotalDice(specs)
  {
    if i < |specs| {
      var init := specs[..|specs| - 1];
      assert init[..i] == specs[..i];
      TotalDicePrefix(init, i);
    } else {
      assert specs[..i] == specs;
    }
  }

  lemma {:induction false} SumAppend(a: seq<int>, b: seq<int>)
    ensures Sum(a + b) == Sum(a) + Sum(b)
  {
    if b == [] {
      assert a + b == a;
    } else {
      assert (a + b)[..|a + b| - 1] == a + b[..|b| - 1];
      SumAppend(a, b[..|b| - 1]);
    }
  }

  /** The grand total is all draws of the batch plus all its modifiers. */
  lemma {:induction false} GrandTotalIsDrawsPlusModifiers(specs: seq<RollSpec>, draws: seq<int>)
    requires |draws| == TotalDice(specs)
    ensures GrandTotal(specs, draws) == Sum(draws) + ModifierSum(specs)
  {
    if specs != [] {
      var k := |draws| - specs[|specs| - 1].diceCount;
      GrandTotalIsDrawsPlusModifiers(specs[..|specs| - 1], draws[..k]);
      assert draws == draws[..k] + draws[k..];
      SumAppend(draws[..k], draws[k..]);
    } else {
      assert draws == [];
    }
  }

  lemma {:induction false} SumBounds(xs: seq<int>, lo: int, hi: int)
    requires forall j :: 0 <= j < |xs| ==> lo <= xs[j] <= hi
    ensures |xs| * lo <= Sum(xs) <= |xs| * hi
  {
    if xs != [] {
      var init := xs[..|xs| - 1];
      SumBounds(init, lo, hi);
      assert |xs| * lo == |init| * lo + lo;
      assert |xs| * hi == |init| * hi + hi;
    }
  }

  /** A roll's subtotal lies between all ones and all maximal faces, shifted by the modifier. */
  lemma SubtotalBounds(spec: RollSpec, rolls: seq<int>)
    requires |rolls| == spec.diceCount
    requires forall j :: 0 <= j < |rolls| ==> InRange(rolls[j], spec.diceSize)
    ensures spec.diceCount + ModifierOrZero(spec) <= Subtotal(spec, rolls)
    ensures Subtotal(spec, rolls) <= spec.diceCount * (if spec.diceSize == 0 then 1 else spec.diceSize) + ModifierOrZero(spec)
  {
    SumBounds(rolls, 1, if spec.diceSize == 0 then 1 else spec.diceSize);
  }

  /** Each roll in a set of legal draws has a subtotal within its bounds. */
  lemma LegalSubtotals(specs: seq<RollSpec>, draws: seq<int>, k: nat)
    requires LegalDraws(specs, draws) && k < |specs|
    ensures specs[k].diceCount + ModifierOrZero(specs[k]) <= Subtotal(specs[k], Rolls(specs, draws)[k])
    ensures Subtotal(specs[k], Rolls(specs, draws)[k])
            <= specs[k].diceCount * (if specs[k].diceSize == 0 then 1 else specs[k].diceSize) + ModifierOrZero(specs[k])
  {
    SubtotalBounds(specs[k], Rolls(specs, draws)[k]);
  }

  /** The rolls of a batch, laid end to end, are exactly the draws. */
  lemma {:induction false} RollsCoverDraws(specs: seq<RollSpec>, draws: seq<int>)
    requires |draws| == TotalDice(specs)
    ensures Concat(Rolls(specs, draws)) == draws
  {
    if specs != [] {
      var k := |draws| - specs[|specs| - 1].diceCount;
      RollsCoverDraws(specs[..|specs| - 1], draws[..k]);
      var rs := Rolls(specs, draws);
      assert rs[..|rs| - 1] == Rolls(specs[..|specs| - 1], draws[..k]);
      assert draws == draws[..k] + draws[k..];
    }
  }

  function Concat(rs: seq<seq<int>>): seq<int> {
    if rs == [] then [] else Concat(rs[..|rs| - 1]) + rs[|rs| - 1]
  }

  // ---------------------------------------------------------------- lemmas: body

  /** The characters a body line is written with, besides digits. */
  predicate LineChar(c: char) {
    IsDigit(c) || c == 'd' || c == ':' || c == ' ' || c == ',' || c == '(' || c == ')'
    || c == '+' || c == '-' || c == '='
  }

  lemma IntToStringExcludes(i: int, c: char)
    requires !IsDigit(c) && c != '-'
    ensures c !in IntToString(i)
  {
    if i < 0 {
      NatToStringExcludes(-i, c);
    } else {
      NatToStringExcludes(i, c);
    }
  }

  lemma RollNameExcludes(spec: RollSpec, c: char)
    requires !LineChar(c) || c == '='
    ensures c !in RollName(spec)
  {
    NatToStringExcludes(spec.diceCount, c);
    NatToStringExcludes(spec.diceSize, c);
  }

  lemma DrawsTextExcludes(rolls: seq<int>, c: char)
    requires !LineChar(c) || c == '='
    ensures c !in Join(IntStrings(rolls), ", ")
  {
    forall k | 0 <= k < |rolls| ensures c !in IntStrings(rolls)[k] {
      IntToStringExcludes(rolls[k], c);
    }
    JoinExcludes(IntStrings(rolls), ", ", c);
  }

  lemma ModifierNoteExcludes(spec: RollSpec, c: char)
    requires !LineChar(c) || c == '='
    ensures c !in ModifierNote(spec)
  {
    if spec.modifier.Some? {
      FormatModifierExcludes(spec.modifier.value, c);
    }
  }

  lemma LineHeadExcludes(spec: RollSpec, rolls: seq<int>, c: char)
    requires !LineChar(c) || c == '='
    ensures c !in LineHead(spec, rolls)
  {
    RollNameExcludes(spec, c);
    DrawsTextExcludes(rolls, c);
    ModifierNoteExcludes(spec, c);
  }

  /**
   * A line shows `=` exactly when it shows the subtotal, and then it ends
   * with ` = {subtotal}`.
   */
  lemma SubtotalShown(spec: RollSpec, rolls: seq<int>)
    ensures '=' in SpecLine(spec, rolls) <==> ShowsSubtotal(spec, rolls)
    ensures ShowsSubtotal(spec, rolls) ==>
              SpecLine(spec, rolls) == LineHead(spec, rolls) + " = " + IntToString(Subtotal(spec, rolls))
    ensures !ShowsSubtotal(spec, rolls) ==> SpecLine(spec, rolls) == LineHead(spec, rolls)
  {
    LineHeadExcludes(spec, rolls, '=');
    if ShowsSubtotal(spec, rolls) {
      var s := SpecLine(spec, rolls);
      assert s[|LineHead(spec, rolls)| + 1] == '=';
    }
  }

  /** A single die with no modifier shows just its value after the roll's name. */
  lemma SingleDieLine(spec: RollSpec, v: int)
    requires spec.diceCount == 1 && spec.modifier == None
    ensures SpecLine(spec, [v]) == NatToString(1) + "d" + NatToString(spec.diceSize) + ": " + IntToString(v)
    ensures '=' !in SpecLine(spec, [v])
  {
    SubtotalShown(spec, [v]);
  }

  lemma SpecLineExcludes(spec: RollSpec, rolls: seq<int>, c: char)
    requires !LineChar(c)
    ensures c !in SpecLine(spec, rolls)
  {
    LineHeadExcludes(spec, rolls, c);
    IntToStringExcludes(Subtotal(spec, rolls), c);
  }

  lemma {:induction false} LinesAt(specs: seq<RollSpec>, draws: seq<int>)
    requires |draws| == TotalDice(specs)
    ensures |Lines(specs, draws)| == |specs|
    ensures forall k :: 0 <= k < |specs| ==>
              Lines(specs, draws)[k] == SpecLine(specs[k], Rolls(specs, draws)[k])
  {
    hide SpecLine;
    if specs != [] {
      var k := |draws| - specs[|specs| - 1].diceCount;
      LinesAt(specs[..|specs| - 1], draws[..k]);
    }
  }

  /** A character no line can hold is in no line of the batch. */
  lemma LinesExclude(specs: seq<RollSpec>, draws: seq<int>, c: char)
    requires |draws| == TotalDice(specs) && !LineChar(c)
    ensures forall k :: 0 <= k < |specs| ==> c !in Lines(specs, draws)[k]
  {
    hide SpecLine;
    LinesAt(specs, draws);
    forall k | 0 <= k < |specs| ensures c !in Lines(specs, draws)[k] {
      SpecLineExcludes(specs[k], Rolls(specs, draws)[k], c);
    }
  }

  lemma SummaryExcludes(specs: seq<RollSpec>, draws: seq<int>, prior: int, c: char)
    requires |draws| == TotalDice(specs) && !LineChar(c) && c != 'T' && c != 'o' && c != 't' && c != 'a' && c != 'l'
    ensures forall k :: 0 <= k < |Summary(specs, draws, prior)| ==> c !in Summary(specs, draws, prior)[k]
  {
    if |specs| > 1 {
      IntToStringExcludes(prior + GrandTotal(specs, draws), c);
    }
  }

  /** No line of a body, the total line included, holds a line break. */
  lemma BodyPartsExclude(specs: seq<RollSpec>, draws: seq<int>, prior: int)
    requires |draws| == TotalDice(specs)
    ensures forall k :: 0 <= k < |Lines(specs, draws) + Summary(specs, draws, prior)| ==>
              '\n' !in (Lines(specs, draws) + Summary(specs, draws, prior))[k]
  {
    LinesExclude(specs, draws, '\n');
    SummaryExcludes(specs, draws, prior, '\n');
    ConcatExcludes(Lines(specs, draws), Summary(specs, draws, prior), '\n');
  }

  /**
   * Read line by line, a body holds one line per roll, in batch order, and
   * for more than one roll a last line with the running total.
   */
  lemma BodyLines(specs: seq<RollSpec>, draws: seq<int>, prior: int)
    requires |specs| >= 1 && |draws| == TotalDice(specs)
    ensures Split(Body(specs, draws, prior), '\n') == Lines(specs, draws) + Summary(specs, draws, prior)
  {
    BodyPartsExclude(specs, draws, prior);
    SplitJoin(Lines(specs, draws) + Summary(specs, draws, prior), '\n');
  }

  // ---------------------------------------------------------------- operations

  /** Appending one more roll's title (after a space unless it is the first) extends the title. */
  lemma TitleStep(specs: seq<RollSpec>, i: nat)
    requires i < |specs|
    ensures Title(specs[..i + 1]) == Title(specs[..i]) + (if i > 0 then " " else "") + SpecTitle(specs[i])
  {
    var ts := SpecTitles(specs[..i + 1]);
    assert ts[..i] == SpecTitles(specs[..i]);
    if i == 0 {
      assert |ts| == 1;
    }
  }

  /** `GetDiceNotationResult`: the title loop, and the roll batch the result's action captures. */
  method GetDiceNotationResult(specs: seq<RollSpec>) returns (r: Result)
    ensures specs == [] ==> r == BareResult
    ensures specs != [] ==> r == Result(Title(specs), PressToRoll, IconPath, 0, Some(specs))
  {
    if |specs| == 0 {
      return BareResult;
    }
    var title := "";
    for i := 0 to |specs|
      invariant title == Title(specs[..i]) + (if 0 < i < |specs| then " " else "")
    {
      var roll := specs[i];
      ghost var before := title;
      title := title + (NatToString(roll.diceCount) + "d" + NatToString(roll.diceSize));
      title := title + ModifierText(roll.modifier);
      assert title == before + SpecTitle(roll);
      TitleStep(specs, i);
      if i < |specs| - 1 {
        title := title + " ";
      }
    }
    assert specs[..|specs|] == specs;
    r := Result(title, PressToRoll, IconPath, 0, Some(specs));
  }

  /**
   * One more roll of the batch takes the next `diceCount` draws, adds its line
   * after the lines so far and its subtotal to the grand total so far.
   */
  lemma RollStep(specs: seq<RollSpec>, draws: seq<int>, i: nat, used: nat)
    requires |draws| == TotalDice(specs) && i < |specs| && used == TotalDice(specs[..i])
    ensures used + specs[i].diceCount == TotalDice(specs[..i + 1]) <= |draws|
    ensures Lines(specs[..i + 1], draws[..used + specs[i].diceCount])
            == Lines(specs[..i], draws[..used]) + [SpecLine(specs[i], draws[used..used + specs[i].diceCount])]
    ensures GrandTotal(specs[..i + 1], draws[..used + specs[i].diceCount])
            == GrandTotal(specs[..i], draws[..used]) + Subtotal(specs[i], draws[used..used + specs[i].diceCount])
  {
    TotalDicePrefix(specs, i + 1);
    TotalDiceStep(specs, i);
    StepPrefix(specs, draws, i, used);
  }

  /** One more roll takes its dice count more draws. */
  lemma TotalDiceStep(specs: seq<RollSpec>, i: nat)
    requires i < |specs|
    ensures TotalDice(specs[..i + 1]) == TotalDice(specs[..i]) + specs[i].diceCount
  {
    assert specs[..i + 1][..i] == specs[..i];
  }

  lemma StepPrefix(specs: seq<RollSpec>, draws: seq<int>, i: nat, used: nat)
    requires i < |specs| && used == TotalDice(specs[..i])
    requires used + specs[i].diceCount <= |draws|
    ensures TotalDice(specs[..i + 1]) == used + specs[i].diceCount
    ensures Lines(specs[..i + 1], draws[..used + specs[i].diceCount])
            == Lines(specs[..i], draws[..used]) + [SpecLine(specs[i], draws[used..used + specs[i].diceCount])]
    ensures GrandTotal(specs[..i + 1], draws[..used + specs[i].diceCount])
            == GrandTotal(specs[..i], draws[..used]) + Subtotal(specs[i], draws[used..used + specs[i].diceCount])
  {
    var p := specs[..i + 1];
    var d := draws[..used + specs[i].diceCount];
    assert p[..i] == specs[..i];
    assert d[..used] == draws[..used];
    assert d[used..] == draws[used..used + specs[i].diceCount];
  }

  /**
   * Regrouping an append. Stated once here, it reaches `AppendRollLine` as a
   * fact, so that method's proof need not redo sequence extensionality.
   */
  lemma AppendAssoc(a: string, b: string, c: string)
    ensures (a + b) + c == a + (b + c)
  {
  }

  /**
   * One pass of the action's loop: draw the roll's dice from the random source
   * (`draws` from position `used` on), append its line to the body, and give
   * back the roll's subtotal.
   */
  method AppendRollLine(builder: string, roll: RollSpec, draws: seq<int>, used: nat)
    returns (extended: string, total: int)
    requires used + roll.diceCount <= |draws|
    ensures extended == builder + SpecLine(roll, draws[used..used + roll.diceCount])
    ensures total == Subtotal(roll, draws[used..used + roll.diceCount])
  {
    ghost var line := RollName(roll);
    extended := builder + (NatToString(roll.diceCount) + "d" + NatToString(roll.diceSize) + ": ");
    var rolls := [];
    var j := 0;
    while j < roll.diceCount
      invariant 0 <= j <= roll.diceCount
      invariant rolls == draws[used..used + j]
    {
      rolls := rolls + [draws[used + j]];
      j := j + 1;
    }
    assert rolls == draws[used..used + roll.diceCount];
    var shown := Join(IntStrings(rolls), ", ");
    AppendAssoc(builder, line, shown);
    extended, line := extended + shown, line + shown;
    if roll.modifier.Some? {
      var note := " (" + FormatModifier(roll.modifier.value) + ")";
      AppendAssoc(builder, line, note);
      extended, line := extended + note, line + note;
    } else {
      assert line + ModifierNote(roll) == line;
    }
    assert line == LineHead(roll, rolls);
    assert extended == builder + line;
    total := Sum(rolls) + (if roll.modifier.Some? then roll.modifier.value else 0);
    if |rolls| > 1 || roll.modifier.Some? {
      var note := " = " + IntToString(total);
      AppendAssoc(builder, line, note);
      extended, line := extended + note, line + note;
    } else {
      assert line + SubtotalNote(roll, rolls) == line;
    }
    assert line == SpecLine(roll, rolls);
    assert extended == builder + line;
  }

  /** Once every roll has its line, the total line (for more than one roll) completes the body. */
  lemma BodyFinish(specs: seq<RollSpec>, draws: seq<int>, prior: int)
    requires |draws| == TotalDice(specs)
    ensures |specs| > 1 ==>
              Body(specs, draws, prior)
              == Join(Lines(specs, draws), NewLine) + NewLine + TotalLine(prior + GrandTotal(specs, draws))
    ensures |specs| <= 1 ==> Body(specs, draws, prior) == Join(Lines(specs, draws), NewLine)
  {
    hide SpecLine;
    var lines := Lines(specs, draws);
    if |specs| > 1 {
      JoinStep(lines, NewLine, TotalLine(prior + GrandTotal(specs, draws)));
    } else {
      assert lines + [] == lines;
    }
  }

  /** The body so far, with its pending line break, followed by one more line. */
  lemma AppendLine(lines: seq<string>, before: string, line: string, i: nat, n: nat)
    requires |lines| == i < n
    requires 0 < i ==> before == Join(lines, NewLine) + NewLine
    requires i == 0 ==> before == Join(lines, NewLine)
    ensures before + line == Join(lines + [line], NewLine)
  {
    JoinStep(lines, NewLine, line);
  }

  /**
   * The loop of the action closure: roll each spec in turn, append its line
   * (and a line break before the next one), and add its subtotal into the
   * captured `totalSum`, passed in and handed back.
   */
  method RollLines(specs: seq<RollSpec>, draws: seq<int>, totalSum: int)
    returns (builder: string, newTotalSum: int)
    requires |draws| == TotalDice(specs)
    ensures newTotalSum == totalSum + GrandTotal(specs, draws)
    ensures builder == Join(Lines(specs, draws), NewLine)
  {
    // The loop only moves whole lines around; what a line says is not needed here.
    hide SpecLine;
    builder := "";
    newTotalSum := totalSum;
    var used := 0;
    var i := 0;
    ghost var lines: seq<string> := [];
    while i < |specs|
      invariant 0 <= i <= |specs|
      invariant used == TotalDice(specs[..i]) && used <= |draws|
      invariant lines == Lines(specs[..i], draws[..used])
      invariant 0 < i < |specs| ==> builder == Join(lines, NewLine) + NewLine
      invariant i == 0 || i == |specs| ==> builder == Join(lines, NewLine)
      invariant newTotalSum == totalSum + GrandTotal(specs[..i], draws[..used])
    {
      var roll := specs[i];
      RollStep(specs, draws, i, used);
      ghost var line := SpecLine(roll, draws[used..used + roll.diceCount]);
      AppendLine(lines, builder, line, i, |specs|);
      var total;
      builder, total := AppendRollLine(builder, roll, draws, used);
      lines := lines + [line];
      if i < |specs| - 1 {
        builder := builder + NewLine;
      }
      newTotalSum := newTotalSum + total;
      used := used + roll.diceCount;
      i := i + 1;
    }
    assert specs[..|specs|] == specs;
    assert draws[..used] == draws;
  }

  /**
   * The body of the action closure: the rolls' lines, then for more than one
   * roll a line break and the total line with the updated `totalSum`.
   */
  method RollAndRender(specs: seq<RollSpec>, draws: seq<int>, totalSum: int)
    returns (body: string, newTotalSum: int)
    requires |draws| == TotalDice(specs)
    ensures newTotalSum == totalSum + GrandTotal(specs, draws)
    ensures body == Body(specs, draws, totalSum)
  {
    var builder;
    builder, newTotalSum := RollLines(specs, draws, totalSum);
    BodyFinish(specs, draws, totalSum);
    if |specs| > 1 {
      builder := builder + NewLine;
      builder := builder + ("Total: " + IntToString(newTotalSum));
    }
    body := builder;
  }

  /**
   * The state of one action closure: the batch it rolls and the `totalSum`
   * it captured, which starts at 0 and is never reset.
   */
  class RollAction {
    const rollProperties: seq<RollSpec>
    var totalSum: int

    constructor (specs: seq<RollSpec>)
      requires |specs| >= 1
      ensures rollProperties == specs && totalSum == 0
    {
      rollProperties := specs;
      totalSum := 0;
    }

    /** One invocation of the action: roll, write the body, show it, report success. */
    method Invoke(draws: seq<int>) returns (handled: bool, shown: Message)
      requires LegalDraws(rollProperties, draws)
      modifies this
      ensures handled
      ensures totalSum == old(totalSum) + GrandTotal(rollProperties, draws)
      ensures shown == Message(RollingTitle, Body(rollProperties, draws, old(totalSum)), IconPath)
    {
      var body;
      body, totalSum := RollAndRender(rollProperties, draws, totalSum);
      shown := Message(RollingTitle, body, IconPath);
      handled := true;
    }
  }

  /**
   * Two invocations of the same action: the second one's total line counts
   * the first invocation's subtotals as well, because `totalSum` is shared.
   */
  method RollTwice(specs: seq<RollSpec>, first: seq<int>, second: seq<int>)
    returns (firstShown: Message, secondShown: Message)
    requires |specs| >= 1 && LegalDraws(specs, first) && LegalDraws(specs, second)
    ensures firstShown.body == Body(specs, first, 0)
    ensures secondShown.body == Body(specs, second, GrandTotal(specs, first))
  {
    var action := new RollAction(specs);
    var handled;
    handled, firstShown := action.Invoke(first);
    handled, secondShown := action.Invoke(second);
  }
}
