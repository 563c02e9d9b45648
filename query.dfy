/**
 * The launcher entry point, `Query`: every search term that parses as dice
 * notation joins one combined result ranked first; when no term parses, a
 * help result takes its place. Seven fixed one-die rolls follow in every
 * answer, ranked below it.
 *
 * The host splits the search text into terms before the plugin sees them, so
 * here the terms are the input.
 */
module Plugin {
  import opened Wrappers
  import opened Decimal
  import opened Text
  import opened Notation
  import opened Evaluator

  const HelpTitle: string := "Dice Roller"
  const HelpSubTitle: string :=
    "Write a common dice notation to create a roll. (1d6, 2d20, 5d8, etc..)" +
    "\r\nMulti rolls can be added with Space." +
    "\r\nAdd a modifier to the roll with +/-# (1d6+2, 2d20-5, etc...)"
  const AddMoreSubTitle: string := " (Add more rolls with Space)"
  /** The score of the first result, the combined roll or the help. */
  const TopScore: int := 1000

  /** The guide shown when no term is dice notation: no icon and no action. */
  const HelpResult: Result := Result(HelpTitle, HelpSubTitle, "", TopScore, None)

  /** The dice of the quick rolls, and the score each is given, in the order they are listed. */
  const QuickSizes: seq<nat> := [4, 6, 8, 10, 12, 20, 100]
  const QuickScores: seq<int> := [60, 50, 40, 30, 20, 10, 0]

  // ---------------------------------------------------------------- the batch

  /** The rolls of the terms that parse, in the order of the terms. */
  function ParsedBatch(terms: seq<string>): (batch: seq<RollSpec>)
    ensures |batch| <= |terms|
  {
    if terms == [] then []
    else
      var outcome := TryParseDiceNotation(terms[|terms| - 1]);
      ParsedBatch(terms[..|terms| - 1]) + (if outcome.success then [outcome.result] else [])
  }

  /** One term contributes its roll when it parses and nothing otherwise. */
  lemma ParsedSingle(t: string)
    ensures TryParseDiceNotation(t).success ==> ParsedBatch([t]) == [TryParseDiceNotation(t).result]
    ensures !TryParseDiceNotation(t).success ==> ParsedBatch([t]) == []
  {
    assert [t][..0] == [];
  }

  /** Filtering distributes over concatenation: the batch keeps the order of the terms. */
  lemma {:induction false} ParsedBatchAppend(a: seq<string>, b: seq<string>)
    ensures ParsedBatch(a + b) == ParsedBatch(a) + ParsedBatch(b)
    decreases |b|
  {
    if b == [] {
      assert a + b == a;
    } else {
      var n := |b| - 1;
      assert (a + b)[..|a + b| - 1] == a + b[..n];
      assert (a + b)[|a + b| - 1] == b[n];
      ParsedBatchAppend(a, b[..n]);
    }
  }

  /** The batch is empty exactly when no term parses. */
  lemma {:induction false} ParsedBatchEmpty(terms: seq<string>)
    ensures ParsedBatch(terms) == [] <==> forall k :: 0 <= k < |terms| ==> !TryParseDiceNotation(terms[k]).success
  {
    if terms != [] {
      var init := terms[..|terms| - 1];
      ParsedBatchEmpty(init);
      assert forall k :: 0 <= k < |init| ==> init[k] == terms[k];
    }
  }

  /** The titles of a prefix of a batch are the prefix of its titles. */
  lemma SpecTitlesPrefix(specs: seq<RollSpec>, n: nat)
    requires n <= |specs|
    ensures SpecTitles(specs)[..n] == SpecTitles(specs[..n])
  {
    hide SpecTitle;
  }

  /** The rolls of the titles of a batch with no zero modifier are that batch. */
  lemma {:induction false} ParsedTitles(specs: seq<RollSpec>)
    requires forall k :: 0 <= k < |specs| ==> specs[k].modifier != Some(0)
    ensures ParsedBatch(SpecTitles(specs)) == specs
  {
    hide TryParseDiceNotation, SpecTitle, SpecTitles;
    if specs != [] {
      var n := |specs| - 1;
      var ts := SpecTitles(specs);
      assert ts[..n] == SpecTitles(specs[..n]) by { SpecTitlesPrefix(specs, n); }
      assert TryParseDiceNotation(ts[n]) == ParseOutcome(true, specs[n]) by { SpecTitleParses(specs[n]); }
      assert ParsedBatch(ts[..n]) == specs[..n] by { ParsedTitles(specs[..n]); }
      assert specs[..n] + [specs[n]] == specs;
    }
  }

  /**
   * Typing the combined result's title back in gives the same batch of rolls,
   * provided no roll has a zero modifier (whose title drops its sign).
   */
  lemma TitleRequery(terms: seq<string>)
    requires ParsedBatch(terms) != []
    requires forall k :: 0 <= k < |ParsedBatch(terms)| ==> ParsedBatch(terms)[k].modifier != Some(0)
    ensures ParsedBatch(Split(Title(ParsedBatch(terms)), ' ')) == ParsedBatch(terms)
  {
    TitleTokens(ParsedBatch(terms));
    ParsedTitles(ParsedBatch(terms));
  }

  /** Terms that are not dice notation are skipped; the rest keep their order. */
  lemma MixedTerms()
    ensures ParsedBatch(["2d6", "d6", "1D20+5"]) == [RollSpec(2, 6, None), RollSpec(1, 20, Some(5))]
  {
    hide TryParseDiceNotation, ParsedBatch;
    var two := RollSpec(2, 6, None);
    var one := RollSpec(1, 20, Some(5));
    assert ParsedBatch(["2d6"]) == [two] by { AcceptedPlain(); ParsedSingle("2d6"); }
    assert ParsedBatch(["d6"]) == [] by { RejectedShapes(); ParsedSingle("d6"); }
    assert ParsedBatch(["1D20+5"]) == [one] by { AcceptedPlus(); ParsedSingle("1D20+5"); }
    assert ParsedBatch(["2d6", "d6"]) == [two] by {
      ParsedBatchAppend(["2d6"], ["d6"]);
      assert ["2d6"] + ["d6"] == ["2d6", "d6"];
    }
    ParsedBatchAppend(["2d6", "d6"], ["1D20+5"]);
    assert ["2d6", "d6"] + ["1D20+5"] == ["2d6", "d6", "1D20+5"];
  }

  // ---------------------------------------------------------------- the answer

  /** A quick roll: one die of the given size, no modifier, with the given score. */
  function QuickRoll(size: nat, score: int): Result {
    Result(Title([RollSpec(1, size, None)]), PressToRoll, IconPath, score, Some([RollSpec(1, size, None)]))
  }

  function QuickRolls(): seq<Result> {
    seq(|QuickSizes|, k requires 0 <= k < |QuickSizes| => QuickRoll(QuickSizes[k], QuickScores[k]))
  }

  /** The title of a batch of one roll is that roll's title. */
  lemma TitleSingle(spec: RollSpec)
    ensures Title([spec]) == SpecTitle(spec)
  {
    assert [spec][..0] == [];
  }

  /** A quick roll's title is dice notation for exactly its one die. */
  lemma QuickRollParses(size: nat, score: int)
    ensures TryParseDiceNotation(QuickRoll(size, score).title) == ParseOutcome(true, RollSpec(1, size, None))
  {
    hide TryParseDiceNotation, SpecTitle;
    TitleSingle(RollSpec(1, size, None));
    SpecTitleParses(RollSpec(1, size, None));
  }

  /** The listed scores step down by ten from 60 to 0. */
  lemma QuickScoresStep()
    ensures |QuickScores| == |QuickSizes| == 7
    ensures forall k :: 0 <= k < 7 ==> QuickScores[k] == 60 - 10 * k
  {
  }

  /**
   * Each quick roll rolls one die of its size, and its title is dice notation
   * for exactly that roll; the scores strictly decrease along the list and all
   * rank below the first result.
   */
  lemma QuickRollsShape()
    ensures |QuickRolls()| == 7
    ensures forall k :: 0 <= k < 7 ==>
      && QuickRolls()[k].action == Some([RollSpec(1, QuickSizes[k], None)])
      && TryParseDiceNotation(QuickRolls()[k].title) == ParseOutcome(true, RollSpec(1, QuickSizes[k], None))
    ensures forall j, k :: 0 <= j < k < 7 ==> QuickRolls()[k].score < QuickRolls()[j].score
    ensures forall k :: 0 <= k < 7 ==> 0 <= QuickRolls()[k].score < TopScore
  {
    hide TryParseDiceNotation, Title;
    forall k | 0 <= k < 7
      ensures QuickRolls()[k].action == Some([RollSpec(1, QuickSizes[k], None)])
      ensures TryParseDiceNotation(QuickRolls()[k].title) == ParseOutcome(true, RollSpec(1, QuickSizes[k], None))
      ensures QuickRolls()[k].score == QuickScores[k]
    {
      QuickRollParses(QuickSizes[k], QuickScores[k]);
    }
    QuickScoresStep();
  }

  /** The first result when at least one term parses: the combined roll, re-labelled. */
  function CombinedResult(batch: seq<RollSpec>): Result {
    Result(Title(batch), AddMoreSubTitle, IconPath, TopScore, Some(batch))
  }

  /** The terms' rolls, collected in order. */
  method ParseTerms(terms: seq<string>) returns (rolls: seq<RollSpec>)
    ensures rolls == ParsedBatch(terms)
  {
    rolls := [];
    for i := 0 to |terms|
      invariant rolls == ParsedBatch(terms[..i])
    {
      var outcome := TryParseDiceNotation(terms[i]);
      assert terms[..i + 1][..i] == terms[..i];
      if outcome.success {
        rolls := rolls + [outcome.result];
      }
    }
    assert terms[..|terms|] == terms;
  }

  /**
   * `Query`: the combined roll of the parsed terms, or the help when none
   * parses, then the seven quick rolls.
   */
  method Query(terms: seq<string>) returns (results: seq<Result>)
    ensures |results| == 1 + |QuickRolls()|
    ensures ParsedBatch(terms) != [] ==> results[0] == CombinedResult(ParsedBatch(terms))
    ensures ParsedBatch(terms) == [] ==> results[0] == HelpResult
    ensures results[1..] == QuickRolls()
    ensures forall k :: 1 <= k < |results| ==> results[k].score < results[0].score
  {
    hide TryParseDiceNotation, Title;
    results := [];
    if |terms| > 0 {
      var rolls := ParseTerms(terms);
      if |rolls| > 0 {
        var result := GetDiceNotationResult(rolls);
        result := result.(subTitle := AddMoreSubTitle);
        result := result.(score := TopScore);
        results := results + [result];
      }
    }
    if |results| == 0 {
      results := results + [HelpResult];
    }

    var d4 := GetDiceNotationResult([RollSpec(1, 4, None)]);
    d4 := d4.(score := 60);
    results := results + [d4];

    var d6 := GetDiceNotationResult([RollSpec(1, 6, None)]);
    d6 := d6.(score := 50);
    results := results + [d6];

    var d8 := GetDiceNotationResult([RollSpec(1, 8, None)]);
    d8 := d8.(score := 40);
    results := results + [d8];

    var d10 := GetDiceNotationResult([RollSpec(1, 10, None)]);
    d10 := d10.(score := 30);
    results := results + [d10];

    var d12 := GetDiceNotationResult([RollSpec(1, 12, None)]);
    d12 := d12.(score := 20);
    results := results + [d12];

    var d20 := GetDiceNotationResult([RollSpec(1, 20, None)]);
    d20 := d20.(score := 10);
    results := results + [d20];

    var d100 := GetDiceNotationResult([RollSpec(1, 100, None)]);
    d100 := d100.(score := 0);
    results := results + [d100];

    assert results[1..] == QuickRolls();
    QuickRollsShape();
  }
}
