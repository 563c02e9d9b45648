# Dice Roller launcher plugin: a verified model

The plugin reads the terms typed by the user and keeps every term written in
dice notation, such as `2d6`, `1D20+5` or `3d8-2`. It offers one launcher
result that rolls all of those terms together, or a help result when none of
them is notation. After that come seven quick one-die rolls, d4 to d100.
Activating a roll result rolls the dice and shows a message. The message has
one line per roll: its dice, its modifier and its subtotal. When the batch
has more than one roll, a running total follows.

The model follows the plugin's one source file, module by module:

- `Wrappers` (`wrappers.dfy`): the `Option` type, standing for C#'s nullable `int?`.
- `Decimal` (`decimal.dfy`): reading a run of ASCII digits as a number, which is `int.Parse`
  of a digit group, and writing an integer in decimal, which is string interpolation of an `int`.
- `Text` (`text.dfy`): `Join`, which is `string.Join` and the `StringBuilder` loops, and `Split`,
  which reads a text back as its pieces. The round trips between the two are proved.
- `Notation` (`notation.dfy`): `TryParseDiceNotation` and the pattern
  `^(\d+)d(\d+)([\+\-]\d+)?$` (case-insensitive), written as a deterministic
  recogniser. Its spec is the `Match` datatype of the pattern's groups.
- `Evaluator` (`evaluator.dfy`): `GetDiceNotationResult`.
  - The title loop is a method proved against `Title`.
  - The action closure is the class `RollAction`. Its `totalSum` field is the variable the
    closure captures, so it keeps accumulating from one invocation to the next.
  - The body is written by the methods `RollLines`, `AppendRollLine` and `RollAndRender`,
    each proved against the functions `Lines` and `Body`.
- `Plugin` (`query.dfy`): `Query`.
  - The loop that filters terms is `ParseTerms`, proved against `ParsedBatch`.
  - The combined result or the help result comes first, then the seven quick rolls.

Randomness is a parameter. An invocation receives `draws`, the values the
random source hands out, in order: every die of the first roll, then every die
of the second, and so on. `System.Random.Next(1, diceSize + 1)` gives a value
in `[1, diceSize]`, and 1 when `diceSize` is 0. The predicate `LegalDraws`
states this range for each draw.

Some details of what the code writes:

- A modifier of zero is written by the `+#;-#;0` format as a bare `0`. So the title of `1d6+0` is
  `1d60`, and the body shows ` (0)`. `ZeroModifierTitle` proves that `1d60` reads back as a
  sixty-sided die.
- The `Total:` line follows the last roll's line after one line break.
- Dice with zero sides still roll, each giving 1, which is what `Next(1, 1)` returns.
- The seven quick rolls follow every answer, the combined roll as well as the help.
- The total shown is `totalSum` after the invocation. On the first invocation that is the sum of
  the subtotals; each later invocation adds its own subtotals to it.

## Model

| member | source | states |
|---|---|---|
| Decimal.NatToStringCanonical | Community.PowerToys.Run.Plugin.DiceRoller/Main.cs:55 | an interpolated count or size is digits only, with no leading zero, and is one digit exactly below ten |
| Decimal.IntToStringShape | Community.PowerToys.Run.Plugin.DiceRoller/Main.cs:90 | an interpolated total starts with '-' exactly when it is negative; the canonical digits after it read back to the total's absolute value |
| Decimal.ValueOfNatToString | Community.PowerToys.Run.Plugin.DiceRoller/Main.cs:32-33 | `int.Parse` of an interpolated natural number gives that number back |
| Decimal.NatToStringOfValue | Community.PowerToys.Run.Plugin.DiceRoller/Main.cs:32-33 | interpolating a parsed canonical digit group gives the group back |
| Notation.DigitRun | Community.PowerToys.Run.Plugin.DiceRoller/Main.cs:189 | `\d+` taken greedily: a digit prefix that no further digit can extend |
| Notation.MatchToken | Community.PowerToys.Run.Plugin.DiceRoller/Main.cs:189 | a match found has well-formed groups that spell the whole token |
| Notation.MatchComplete | Community.PowerToys.Run.Plugin.DiceRoller/Main.cs:189 | every well-formed spelling is matched, with exactly the groups it was built from |
| Notation.MatchUnique | Community.PowerToys.Run.Plugin.DiceRoller/Main.cs:189 | a token splits into the pattern's groups in at most one way |
| Notation.TryParseDiceNotation | Community.PowerToys.Run.Plugin.DiceRoller/Main.cs:24-40 | on a mismatch: false, with the out-result left at (0, 0, null); on a match: true, with the values of the groups |
| Notation.ParseAcceptance | Community.PowerToys.Run.Plugin.DiceRoller/Main.cs:27-31 | parsing succeeds if and only if the token is digits, `d` or `D`, digits, then optionally a sign and digits |
| Notation.ParseValues | Community.PowerToys.Run.Plugin.DiceRoller/Main.cs:32-37 | count and size are the values of the two digit groups; the modifier is absent exactly when the third group is missing, and otherwise is its signed value |
| Notation.RejectedShapes | Community.PowerToys.Run.Plugin.DiceRoller/Main.cs:27-31 | `d6`, the empty token and `2d` are rejected, leaving (0, 0, null) |
| Notation.RejectedLetter | Community.PowerToys.Run.Plugin.DiceRoller/Main.cs:27-31 | `2x6` is rejected |
| Notation.RejectedTails | Community.PowerToys.Run.Plugin.DiceRoller/Main.cs:27-31 | `2d6*` and `2d6+` are rejected |
| Notation.AcceptedPlain | Community.PowerToys.Run.Plugin.DiceRoller/Main.cs:32-37 | `2d6` parses to (2, 6, null) |
| Notation.AcceptedPlus | Community.PowerToys.Run.Plugin.DiceRoller/Main.cs:32-37 | `1D20+5` parses to (1, 20, 5): the letter may be upper case |
| Notation.AcceptedMinus | Community.PowerToys.Run.Plugin.DiceRoller/Main.cs:32-37 | `3d8-2` parses to (3, 8, -2) |
| Notation.AcceptedZeroes | Community.PowerToys.Run.Plugin.DiceRoller/Main.cs:32-37 | `0d0-0` parses to (0, 0, 0) |
| Evaluator.FormatModifierShape | Community.PowerToys.Run.Plugin.DiceRoller/Main.cs:56 | the `+#;-#;0` format writes "0" exactly for zero, otherwise the sign then at least one digit |
| Evaluator.FormatModifierParses | Community.PowerToys.Run.Plugin.DiceRoller/Main.cs:56 | a formatted non-zero modifier is a signed group whose value is the modifier |
| Evaluator.SpecTitleParses | Community.PowerToys.Run.Plugin.DiceRoller/Main.cs:55-56 | a roll's title parses back to the same roll when its modifier is not zero |
| Evaluator.ZeroModifierTitle | Community.PowerToys.Run.Plugin.DiceRoller/Main.cs:56 | the title of `1d6+0` is `1d60`, which parses as (1, 60, null) |
| Evaluator.TitleOfParsed | Community.PowerToys.Run.Plugin.DiceRoller/Main.cs:55-56 | the title of a parsed token with no leading zeros, a lower-case `d` and a non-zero modifier is the token itself |
| Evaluator.TitleTokens | Community.PowerToys.Run.Plugin.DiceRoller/Main.cs:52-61 | the title, split at spaces, is the rolls' titles in batch order: one space between rolls, none trailing |
| Evaluator.GetDiceNotationResult | Community.PowerToys.Run.Plugin.DiceRoller/Main.cs:42-62 | an empty batch gives a bare result; otherwise the result has the joined title, "Press To Roll", the icon, and the batch as its action |
| Evaluator.Rolls | Community.PowerToys.Run.Plugin.DiceRoller/Main.cs:73-78 | each roll draws exactly `diceCount` values |
| Evaluator.RollsCoverDraws | Community.PowerToys.Run.Plugin.DiceRoller/Main.cs:69-78 | the rolls' draws, laid end to end, are exactly the values the random source handed out, in order |
| Evaluator.GrandTotalIsDrawsPlusModifiers | Community.PowerToys.Run.Plugin.DiceRoller/Main.cs:86-96 | the sum of the subtotals is the sum of all draws plus the sum of the present modifiers |
| Evaluator.SubtotalBounds | Community.PowerToys.Run.Plugin.DiceRoller/Main.cs:76-86 | with draws in range, a subtotal lies between `diceCount + modifier` and `diceCount * diceSize + modifier` (size 0 counting as 1) |
| Evaluator.LegalSubtotals | Community.PowerToys.Run.Plugin.DiceRoller/Main.cs:76-86 | the same bounds for every roll of a batch whose draws are legal |
| Evaluator.SubtotalShown | Community.PowerToys.Run.Plugin.DiceRoller/Main.cs:88-91 | a line shows ` = {subtotal}` if and only if it has more than one die or a modifier |
| Evaluator.SingleDieLine | Community.PowerToys.Run.Plugin.DiceRoller/Main.cs:72-91 | one die with no modifier shows just its value after `1d{size}: `, with no `=` |
| Evaluator.LinesAt | Community.PowerToys.Run.Plugin.DiceRoller/Main.cs:69-97 | the k-th line of the body describes the k-th roll and its own draws |
| Evaluator.BodyLines | Community.PowerToys.Run.Plugin.DiceRoller/Main.cs:64-103 | read line by line, the body is one line per roll in batch order, then `Total: ...` for more than one roll |
| Evaluator.BodyFinish | Community.PowerToys.Run.Plugin.DiceRoller/Main.cs:99-103 | for more than one roll the body is the lines, one line break and the total line; for one roll, just the line |
| Evaluator.AppendRollLine | Community.PowerToys.Run.Plugin.DiceRoller/Main.cs:71-91 | one pass of the action's loop appends the roll's line, drawing its dice in the inner loop, and gives its subtotal |
| Evaluator.RollLines | Community.PowerToys.Run.Plugin.DiceRoller/Main.cs:67-97 | the loop writes the rolls' lines separated by line breaks and adds every subtotal into `totalSum` |
| Evaluator.RollAndRender | Community.PowerToys.Run.Plugin.DiceRoller/Main.cs:65-103 | the action writes `Body(...)` and leaves `totalSum` increased by the batch's grand total |
| Evaluator.RollAction.constructor | Community.PowerToys.Run.Plugin.DiceRoller/Main.cs:64-65 | a new action holds its batch and a `totalSum` of 0 |
| Evaluator.RollAction.Invoke | Community.PowerToys.Run.Plugin.DiceRoller/Main.cs:65-112 | an invocation shows "Rolling..." with the body, adds its subtotals into the captured `totalSum`, and returns true |
| Evaluator.RollTwice | Community.PowerToys.Run.Plugin.DiceRoller/Main.cs:64-112 | the second invocation's total line also counts the first invocation's subtotals |
| Plugin.ParsedBatch | Community.PowerToys.Run.Plugin.DiceRoller/Main.cs:123-131 | the batch has at most one roll per term |
| Plugin.ParsedSingle | Community.PowerToys.Run.Plugin.DiceRoller/Main.cs:126-130 | a term adds its roll when it parses and nothing when it does not |
| Plugin.ParsedBatchAppend | Community.PowerToys.Run.Plugin.DiceRoller/Main.cs:124-131 | filtering distributes over concatenation of the terms, so the batch keeps the order of the terms |
| Plugin.ParsedBatchEmpty | Community.PowerToys.Run.Plugin.DiceRoller/Main.cs:123-133 | the batch is empty if and only if no term parses |
| Plugin.ParsedTitles | Community.PowerToys.Run.Plugin.DiceRoller/Main.cs:52-62 | the rolls' titles, taken as terms, give back the batch when no modifier is zero |
| Plugin.TitleRequery | Community.PowerToys.Run.Plugin.DiceRoller/Main.cs:133-138 | typing the combined result's title back in, split at spaces, gives the same batch when no modifier is zero |
| Plugin.MixedTerms | Community.PowerToys.Run.Plugin.DiceRoller/Main.cs:124-131 | `2d6 d6 1D20+5` gives the batch (2, 6, null), (1, 20, 5): non-notation is skipped and the order is kept |
| Plugin.QuickRollParses | Community.PowerToys.Run.Plugin.DiceRoller/Main.cs:155-181 | a quick roll's title is notation for exactly its one die |
| Plugin.QuickRollsShape | Community.PowerToys.Run.Plugin.DiceRoller/Main.cs:155-181 | seven quick rolls of one die each, sizes 4 to 100; titles parse to their die; scores strictly decrease and stay below 1000 |
| Plugin.ParseTerms | Community.PowerToys.Run.Plugin.DiceRoller/Main.cs:123-131 | the filtering loop collects exactly the batch of the parsed terms |
| Plugin.Query | Community.PowerToys.Run.Plugin.DiceRoller/Main.cs:117-184 | eight results: the combined roll (subtitle " (Add more rolls with Space)", score 1000) or `HelpResult` (title "Dice Roller", the three-line guide, score 1000, no action), then the seven quick rolls, all ranked below the first |
| Decimal.Value | Community.PowerToys.Run.Plugin.DiceRoller/Main.cs:32-33 | `int.Parse` of a digit group, most significant digit first; `ValueOfNatToString` and `NatToStringOfValue` prove it inverse to `NatToString` |
| Decimal.NatToString | Community.PowerToys.Run.Plugin.DiceRoller/Main.cs:55 | interpolation of a non-negative `int`; `NatToStringCanonical` proves it writes canonical digits, `ValueOfNatToString` that they read back to the number |
| Decimal.IntToString | Community.PowerToys.Run.Plugin.DiceRoller/Main.cs:90 | interpolation of a subtotal or total; `IntToStringShape` proves the '-' appears exactly for negatives, before canonical digits that read back to the absolute value |
| Notation.SignedValue | Community.PowerToys.Run.Plugin.DiceRoller/Main.cs:36 | `int.Parse` of the third group, sign included; `FormatModifierParses` proves it reads back every formatted non-zero modifier |
| Notation.SpecOf | Community.PowerToys.Run.Plugin.DiceRoller/Main.cs:32-37 | the roll a match denotes: the two digit groups' values and the signed third group when present; `ParseValues` proves parsing gives it |
| Evaluator.FormatModifier | Community.PowerToys.Run.Plugin.DiceRoller/Main.cs:56 | the `+#;-#;0` format; `FormatModifierShape` states its shape and `FormatModifierParses` that a non-zero modifier reads back |
| Evaluator.ModifierText | Community.PowerToys.Run.Plugin.DiceRoller/Main.cs:56 | the formatted modifier when present, nothing when absent; its title text is read back by `SpecTitleParses` |
| Evaluator.ModifierNote | Community.PowerToys.Run.Plugin.DiceRoller/Main.cs:81-84 | ` ({modifier})` exactly when a modifier is present; `SubtotalShown` and `LinesAt` place it in the line |
| Evaluator.SpecTitle | Community.PowerToys.Run.Plugin.DiceRoller/Main.cs:55-56 | one roll in the title; `SpecTitleParses` proves it parses back to the roll, `TitleOfParsed` that it spells a canonical token again |
| Evaluator.Title | Community.PowerToys.Run.Plugin.DiceRoller/Main.cs:52-61 | the rolls' titles joined by single spaces; `GetDiceNotationResult`'s loop is proved to build it and `TitleTokens` splits it back into the titles |
| Evaluator.RollName | Community.PowerToys.Run.Plugin.DiceRoller/Main.cs:72 | `{diceCount}d{diceSize}: ` at the start of each line; `SingleDieLine` shows it in a one-die line |
| Evaluator.LineHead | Community.PowerToys.Run.Plugin.DiceRoller/Main.cs:72-84 | the name, the draws joined by ", " and the modifier note; `SubtotalShown` proves the line is this head plus the optional subtotal |
| Evaluator.SpecLine | Community.PowerToys.Run.Plugin.DiceRoller/Main.cs:72-91 | one roll's line; `AppendRollLine` is proved to write it, `SubtotalShown` states when it ends in ` = {subtotal}` |
| Evaluator.Lines | Community.PowerToys.Run.Plugin.DiceRoller/Main.cs:69-97 | one line per roll, in batch order; `LinesAt` proves the k-th line is the k-th roll's, with its own draws |
| Evaluator.Body | Community.PowerToys.Run.Plugin.DiceRoller/Main.cs:64-103 | the lines and, for more than one roll, the total line, separated by line breaks; `RollAndRender` is proved to write it, `BodyLines` splits it back into its lines |
| Evaluator.Subtotal | Community.PowerToys.Run.Plugin.DiceRoller/Main.cs:86 | a roll's draws summed plus its modifier, or 0 when absent; `SubtotalBounds` bounds it for draws in range |
| Evaluator.GrandTotal | Community.PowerToys.Run.Plugin.DiceRoller/Main.cs:96 | the sum of the subtotals that the loop adds into `totalSum`; `GrandTotalIsDrawsPlusModifiers` proves it is all draws plus the present modifiers |
| Evaluator.InRange | Community.PowerToys.Run.Plugin.DiceRoller/Main.cs:76 | the values `Next(1, diceSize + 1)` can return: 1 to `diceSize`, or 1 when the size is 0; `SubtotalBounds` uses it |
| Evaluator.LegalDraws | Community.PowerToys.Run.Plugin.DiceRoller/Main.cs:73-78 | every die of every roll drawn in range; `LegalSubtotals` bounds each roll's subtotal under it |
| Evaluator.TotalDice | Community.PowerToys.Run.Plugin.DiceRoller/Main.cs:74 | how many values the random source hands out for a batch; `RollsCoverDraws` proves the rolls use exactly those |
| Plugin.CombinedResult | Community.PowerToys.Run.Plugin.DiceRoller/Main.cs:135-138 | the combined roll with subtitle " (Add more rolls with Space)" and score 1000; `Query` puts it first when some term parses and `TitleRequery` re-parses its title |
| Plugin.QuickRoll | Community.PowerToys.Run.Plugin.DiceRoller/Main.cs:155-157 | one die of a given size with a given score; `QuickRollParses` proves its title is notation for that die |
| Plugin.QuickRolls | Community.PowerToys.Run.Plugin.DiceRoller/Main.cs:155-181 | the seven quick rolls in the order the source adds them; `QuickRollsShape` states their dice, titles and scores |

## Left out

- Host integration is not modelled: `Init`, the plugin context, and the message-box call through it. The action hands back the message it would show, as a `Message` value.
- `System.Random` is replaced by the `draws` parameter, so uniformity and seeding cannot be stated. `LegalDraws` states only the range the source guarantees.
- `RollAction.Invoke` requires `LegalDraws`, because the random source only hands out values in range. The body and total contracts need only the number of draws.
- The action is modelled as the batch it rolls (`Result.action`) plus the class `RollAction`. A C# delegate that closes over `totalSum` has no Dafny counterpart.
- The .NET regex engine is not modelled; the pattern is a recogniser. Two .NET quirks are left out: `\d` matching non-ASCII digits, and `$` matching before a trailing line break. Neither arises for terms split at spaces.
- TryParseDiceNotation: integers are unbounded, so `int.Parse` throwing on a group above 2^31-1 is not modelled. Neither is `diceSize + 1` overflowing at `int.MaxValue`.
- `Environment.NewLine` is taken as the single character '\n'. The help subtitle's own "\r\n" breaks are kept as written.
- How the host splits the search text into terms is not modelled: the terms are the input of `Query`. `QueryTextDisplay` is also left out.
- The plugin's metadata (`PluginID`, `Name`, `Description`) is left out, since it carries no logic.
- A `Result` property the source never sets is the empty string here, not `null`.
- Subtotal: integers are unbounded. In C#, `rolls.Sum()` throws `OverflowException` once the draws pass 2^31-1, and adding the modifier wraps. For example, `1d6+2147483647` with a draw of 1 shows ` = -2147483648` there but ` = 2147483648` here.
- GrandTotal: the C# `totalSum += total` is a wrapping 32-bit addition; here the sum of the subtotals is exact.
- RollAction.Invoke: the captured `totalSum` grows without bound across invocations here. In C# it wraps at 2^31.
- IntToString: it always writes an ASCII '-'. The C# interpolation of a subtotal or total uses the current culture's negative sign.
- FormatModifier: it writes the format's '+' and '-' as ASCII characters. Culture-specific rendering of the custom format is not modelled.
