# Action Heroes: the RPG — a verified model of the character tools

This project is a Dafny model of the rule-bearing core of the *Action Heroes: the RPG*
companion site. It covers three parts.

- **The random character generator.** This is `generateCharacter` in `js/components.js`.
  - It draws an archetype and six flavour entries from the constant tables.
  - It applies the archetype's stat bonus. The bonus text is split at `", "`, each clause
    is matched by `/([+-]\d+) to (Combat|Agility|…|Defense)/i`, and the number goes to the
    first stat whose display string contains the name, ignoring case.
  - It spreads a budget of 10 points over the six stats. Each pass draws one of the six
    stats uniformly. A stat below the cap of 4 gets a point, and the budget drops by one.
    A draw on a capped stat spends nothing. The loop stops when the 10 points are spent,
    or, with points left, when every stat is capped.
  - It sets hit points to 10 plus Defense.
- **Two presentation helpers with rules in them.** The numbered roll table labels its rows
  1, 2, … under a `Roll (D10)`-style header. The explosion meter lights the first
  `intensity` of five icons.
- **The fillable character sheet page.** This is `FillableCharacterSheetPage` in
  `App.tsx`. The compiled `js/App.js:377-439` has the same logic line for line, and the
  model follows both:
  - load 382-400;
  - the archetype/HP sync 401-409;
  - text edits 414-417 and number edits 418-428;
  - save 429-432 and clear 433-439.

  The page is the class `Sheet.SheetPage`, with one method per handler. Each method is
  specified by a pure function of the old sheet: `Merge`, `Synced`, `WithText`,
  `WithNumber`, `Loaded`. The properties are proved about those functions.

Modules:

- `Optional`: the option type.
- `Text`: ASCII case mapping, `includes`, `split`, decimal `toString` and `parseInt`.
- `Types`: `types.ts`.
- `Constants`: `constants.tsx`.
- `Bonuses`: the bonus parse.
- `Allocation`: the point allocator.
- `Generator`: the rest of `js/components.js`'s core.
- `Sheet`: the fillable sheet page.

**Random draws.** Every `Math.random()` value is a parameter `r` with `0 <= r < 1`, and
the index drawn is `floor(r * n)`. The allocator's successive draws are a finite sequence.
If the sequence runs out before the loop would stop, the result says so with the outcome
`DrawsExhausted`. For every other outcome the lemmas state exactly what the loop computes.

**Where the generator and the rules page differ.** The site's rules page (`App.tsx:314`)
says that at character creation no stat is below 0 or above 4 *before* archetype
bonuses, which leaves room for a bonus to take a stat above 4. The generator follows a
different order: it applies the bonuses first (`js/components.js:118-130`), and then
allocates the 10 points with the cap checked against the bonused value
(`js/components.js:133`). So bonus points count toward the cap, and no generated stat ever
exceeds 4. The model follows the code, and `Generator.GeneratedStats` proves the
consequence: every generated stat lies in 0..4, and hit points lie in 10..14.

## Model

| member | source | states |
|---|---|---|
| `Text.Lower` | js/components.js:126 | `toLowerCase` keeps the length and lower-cases each ASCII letter in place |
| `Text.LowerIdempotent` | js/components.js:126 | lower-casing twice is the same as lower-casing once |
| `Text.LowerCharFrom` | js/components.js:126 | only a letter and its capital lower-case to that letter |
| `Text.Upper` | js/components.js:259 | `toUpperCase` keeps the length and upper-cases each ASCII letter in place |
| `Text.IndexOfFrom` | js/components.js:126 | the result is the first position at or after `from` where the pattern occurs; no result means it occurs nowhere there |
| `Text.Includes` | js/components.js:126 | `includes` holds iff the pattern occurs at some position of the text |
| `Text.MissingCharExcludes` | js/components.js:126 | a pattern holding a character the text lacks is not included in it |
| `Text.PrefixIncluded` | js/components.js:126 | a text includes its own prefix |
| `Text.Split` | js/components.js:117 | `split(sep)` gives at least one piece |
| `Text.Join` | js/components.js:117 | definition only; the inverse of `Split` (see `JoinSplit`) |
| `Text.JoinSplit` | js/components.js:117 | joining the pieces of `split(sep)` with `sep` gives back the text |
| `Text.SplitPiecesFree` | js/components.js:117 | no piece of `split(sep)` contains the separator |
| `Text.SplitAfter` | js/components.js:117 | text before the first separator is the first piece, and splitting resumes after it |
| `Text.SplitWhole` | js/components.js:117 | text without the separator's first character splits into itself alone |
| `Text.NatToString` | js/components.js:274 | `toString` of a natural number is a nonempty digit string without a leading zero |
| `Text.NatToStringValue` | js/components.js:274 | the digits of `toString(n)` read back as `n` |
| `Text.DigitRunEnd` | js/components.js:119 | `\d+` takes the longest run of digits: every character before the end is a digit, and the one at the end is not |
| `Text.DigitRunEndAt` | js/components.js:119 | a digit run followed by a non-digit ends exactly there |
| `Text.ParseInt` | js/components.js:121 | the value read after a minus sign is at most 0, and otherwise at least 0 |
| `Text.ParseIntToString` | js/components.js:121 | `parseInt` reads any rendered integer back, even with non-digit text after it |
| `Text.DigitsAfterSign` | js/components.js:121 | `parseInt` reads back the digits of `n` after an optional minus sign |
| `Text.ParseIntNaN` | App.tsx:518 | `parseInt` gives NaN exactly when no digit follows the optional sign |
| `Types.DisplayInjective` | types.ts:2-9 | the six stat display strings are pairwise distinct |
| `Constants.StatKeysEnumerateStats` | constants.tsx:22 | `STAT_KEYS` lists each of the six stats exactly once |
| `Constants.BudgetFitsCap` | constants.tsx:23-26 | 0 <= minimum < cap, and the 10-point budget fits under six caps of 4 |
| `Constants.ArchetypeNamesDistinct` | constants.tsx:9-20 | ten archetypes with pairwise distinct names |
| `Constants.FindByName` | js/components.js:117 | `find` by name returns an entry of the table with that name, or none when no entry has it |
| `Constants.FindByNameFirst` | js/components.js:117 | `find` by the name of an entry whose name is unique so far returns that entry |
| `Constants.FindArchetype` | App.tsx:490 | `ARCHETYPES.find` by name returns a table entry with that name, or none when no entry has it |
| `Constants.FindArchetypeChosen` | js/components.js:117 | finding by the drawn archetype's name returns the drawn archetype |
| `Constants.TableSizes` | constants.tsx:9-100 | every table drawn from is non-empty: 10 archetypes, descriptions, trinkets, catchphrases, backgrounds and motivations, and 6 traits |
| `Constants.RandomIndex` | constants.tsx:254 | definition only: `Math.floor(r * n)` (see `RandomIndexFloor` and `RandomIndexInRange`) |
| `Constants.RandomIndexFloor` | constants.tsx:254 | the index is the whole part of `r * n` |
| `Constants.RandomElement` | constants.tsx:253-255 | whatever `getRandomElement` returns is an element of the array |
| `Constants.RandomIndexInRange` | constants.tsx:253-255 | `floor(r * n)` lies in [0, n) for r in [0, 1) |
| `Constants.RandomElementIn` | constants.tsx:253-255 | `getRandomElement` on a non-empty array returns an element of it |
| `Constants.RandomElementReaches` | constants.tsx:253-255 | every element is returned for some draw |
| `Constants.RollD10` | constants.tsx:258 | the roll minus 1 is the whole part of `10 * r` |
| `Constants.RollD10Range` | constants.tsx:258 | `rollD10` lies in 1..10 |
| `Constants.InitialStatsZero` | constants.tsx:260 | `INITIAL_STATS` has one zero entry per stat, in `STAT_KEYS` order |
| `Constants.ZeroStats` | constants.tsx:266-269 | definition only: the stats `reduce` (see `ZeroStatsKeeps`, `ZeroStatsSets` and `ZeroStatsOnly`) |
| `Constants.ZeroStatsKeeps` | constants.tsx:266-269 | the stats `reduce` keeps the accumulator's other keys |
| `Constants.ZeroStatsSets` | constants.tsx:266-269 | the stats `reduce` sets every listed stat to 0 |
| `Constants.ZeroStatsOnly` | constants.tsx:266-269 | the stats `reduce` adds no key beyond the listed stats |
| `Constants.InitialSheetStats` | constants.tsx:266-269 | the initial sheet's stats object holds exactly the six stats, all 0 |
| `Constants.InitialSheetFacts` | constants.tsx:262-282 | `INITIAL_FILLABLE_SHEET_DATA`: all stats 0, `hp == maxHp == 10`, no stunt points, the first archetype's name |
| `Bonuses.AltIndex` | js/components.js:119 | each stat has an alternative in the pattern |
| `Bonuses.NameAt` | js/components.js:119 | a matched alternative is the text found at that position |
| `Bonuses.MatchAt` | js/components.js:119 | a match at a position captures a sign followed by a digit (the full shape is in `MatchAtShape`) |
| `Bonuses.MatchAfterSign` | js/components.js:119 | the rest of the pattern after the sign and digits keeps the captured number signed (the full shape is in `MatchAfterSignShape`) |
| `Bonuses.MatchFrom` | js/components.js:119 | the leftmost match captures a signed number (leftmost and none-iff-no-match in `MatchFromLeftmost` and `MatchFromNone`) |
| `Bonuses.MatchBonus` | js/components.js:119 | `clause.match(regex)` captures a signed number when it matches (no match iff no position matches: `MatchBonusNone`) |
| `Bonuses.SignedNumberParses` | js/components.js:119-121 | the captured number never parses to NaN |
| `Bonuses.NameAtSkip` | js/components.js:119 | an alternative that does not match is passed over |
| `Bonuses.NameAtHit` | js/components.js:119 | the first alternative is taken when the text spells it |
| `Bonuses.AltMismatch` | js/components.js:119 | an alternative differing in one of its first two letters does not match, ignoring case |
| `Bonuses.AltsDiffer` | js/components.js:119 | any two alternatives differ, ignoring case, in one of their first two letters |
| `Bonuses.NameAtPassOver` | js/components.js:119 | at text spelling stat t, every other alternative before t's is passed over |
| `Bonuses.NameAtSelectsFrom` | js/components.js:119 | from any earlier alternative, the alternation at text spelling t selects t's name |
| `Bonuses.NameAtSelects` | js/components.js:119 | at text spelling a stat's name, the alternation selects that name |
| `Bonuses.MatchAtParts` | js/components.js:119 | a sign, digits, " to " and a name at a position make a match there |
| `Bonuses.MatchLeadingClause` | js/components.js:119 | a clause `<sign><digits> to <Name>…` matches with those two captures |
| `Bonuses.FirstAlt` | js/components.js:119 | the first alternative that matches at a position: every earlier one fails, and it matches |
| `Bonuses.NameAtFirst` | js/components.js:119 | the alternation captures exactly the text of the first matching alternative, or fails when none matches |
| `Bonuses.MatchAtShape` | js/components.js:119 | a match at a position is a sign, the longest digit run (at least one digit), " to " in any case and the first matching stat name, with those two captures; the converse of `MatchAtParts` |
| `Bonuses.MatchAfterSignShape` | js/components.js:119 | the same, once the sign and the digits are read |
| `Bonuses.MatchFromSkips` | js/components.js:119 | positions where nothing matches are passed over |
| `Bonuses.MatchFromLeftmost` | js/components.js:119 | the search returns the match at the first position that matches |
| `Bonuses.MatchFromNone` | js/components.js:119 | no result means no later position matches |
| `Bonuses.MatchBonusNone` | js/components.js:119 | `match` returns null iff the pattern matches at no position of the clause |
| `Bonuses.FindStat` | js/components.js:126 | `stats.find(includes)`: the first entry whose display string contains the name, ignoring case, or none when no entry's does |
| `Bonuses.LowerAppend` | js/components.js:126 | lower-casing distributes over concatenation |
| `Bonuses.BonusNameIsName` | types.ts:3-8 | each alternative is the stat's own name |
| `Bonuses.DisplayIsNameAndTag` | types.ts:3-8 | each display string is the name followed by the abbreviation tag |
| `Bonuses.NamesOwnStat` | js/components.js:126 | a stat's display string contains its own name, ignoring case |
| `Bonuses.LetterMissingExcludes` | js/components.js:126 | a name with a letter absent, in both cases, from a display string is not contained in it |
| `Bonuses.DisplayAvoids` | types.ts:3-8 | each display string lacks a listed set of letters in both cases |
| `Bonuses.AbsentFromDisplay` | types.ts:3-8 | a listed absent letter does not occur in the display string |
| `Bonuses.NamesNoOtherStat` | js/components.js:126 | no other stat's display string contains the name, ignoring case |
| `Bonuses.NamesStatExactly` | js/components.js:126 | a display string contains a stat name iff it is that stat's own, so the `includes` lookup picks the intended stat |
| `Bonuses.KeyIndex` | constants.tsx:22 | each stat's position in `STAT_KEYS` holds that stat |
| `Bonuses.FindFromFirst` | js/components.js:126 | `find` returns the first entry that passes its test |
| `Bonuses.KeyIndexUnique` | constants.tsx:22 | only that position holds the stat |
| `Bonuses.FindStatOnKeys` | js/components.js:126 | on entries in `STAT_KEYS` order, a clause's stat name finds that stat's own entry |
| `Bonuses.ClauseEffect` | js/components.js:119-128 | a clause's effect targets an existing entry |
| `Bonuses.AddTo` | js/components.js:127-128 | `targetStat.value += value` changes that entry's value by the amount and nothing else |
| `Bonuses.AddToEntry` | js/components.js:127-128 | the in-place `+=` leaves the array as `AddTo` of the old one |
| `Bonuses.ApplyClause` | js/components.js:119-128 | applying one clause keeps the length and the stat of every entry |
| `Bonuses.ApplyClauses` | js/components.js:118-130 | applying the clauses in order keeps the length and the stat of every entry |
| `Bonuses.BonusClauses` | js/components.js:117 | definition only (see `BonusClausesPieces`) |
| `Bonuses.BonusClausesPieces` | js/components.js:117 | no archetype found: no clauses; found: the clauses joined with ", " give back its bonus text, and none contains ", " |
| `Bonuses.ApplyNext` | js/components.js:118-128 | applying one more clause applies it to the result of the earlier ones |
| `Bonuses.ApplyNoClause` | js/components.js:119-120 | a clause that does not match, or names no entry, changes nothing |
| `Bonuses.ApplyBonuses` | js/components.js:118-130 | the in-place `forEach` leaves the array equal to the clauses applied in order |
| `Bonuses.ParseSmallBonuses` | js/components.js:121 | `parseInt("+2") == 2` and `parseInt("+1") == 1` |
| `Bonuses.ClauseEffectOnKeys` | js/components.js:119-128 | on entries in key order, a clause `<signed number> to <Stat>…` adds its parsed number to that stat |
| `Bonuses.ApplyKnownClause` | js/components.js:127-128 | a clause with a known effect adds its number to its entry |
| `Bonuses.ApplyTwoClauses` | js/components.js:118 | two clauses are applied one after the other |
| `Bonuses.NoCommaInNames` | js/components.js:117 | no stat name contains a comma |
| `Bonuses.TwoClauseSplit` | js/components.js:117 | "+2 to P…, +1 to Q…" with no other comma splits into exactly those two clauses |
| `Bonuses.TwoClauseApply` | js/components.js:117-130 | those two clauses add 2 to P's entry, then 1 to Q's |
| `Bonuses.BonusOfFound` | js/components.js:117-130 | the bonus of a found archetype shaped "+2 to P…, +1 to Q." adds 2 to P and 1 to Q |
| `Bonuses.BonusTexts` | constants.tsx:10-19 | each archetype's bonus text, cut into the pieces the proofs use |
| `Bonuses.ArchetypeBonus0` | constants.tsx:10 | Martial Arts Master: +2 Combat, +1 Agility |
| `Bonuses.ArchetypeBonus1` | constants.tsx:11 | Explosives Expert: +2 Combat, +1 Strength |
| `Bonuses.ArchetypeBonus2` | constants.tsx:12 | Gadget Guru: +2 Intellect, +1 Charisma |
| `Bonuses.ArchetypeBonus3` | constants.tsx:13 | Mysterious Lone Wolf: +2 Agility, +1 Defense |
| `Bonuses.ArchetypeBonus4` | constants.tsx:14 | Cyber Ninja: +2 Agility, +1 Intellect |
| `Bonuses.ArchetypeBonus5` | constants.tsx:15 | Tech Savant: +2 Intellect, +1 Defense |
| `Bonuses.ArchetypeBonus6` | constants.tsx:16 | Demolitionist: +2 Strength, +1 Combat |
| `Bonuses.ArchetypeBonus7` | constants.tsx:17 | Rogue Detective: +2 Charisma, +1 Intellect |
| `Bonuses.ArchetypeBonus8` | constants.tsx:18 | Combat Medic: +2 Defense, +1 Charisma (the long parenthetical contains no comma) |
| `Bonuses.ArchetypeBonus9` | constants.tsx:19 | Wheelman/Wheelwoman: +2 Agility, +1 Intellect |
| `Bonuses.BonusTargetsDistinct` | constants.tsx:10-19 | each archetype's +2 and +1 go to two different stats |
| `Bonuses.ArchetypeBonus` | js/components.js:117-130 | for every archetype, the bonus phase adds exactly +2 and +1 to two distinct stats |
| `Allocation.TotalUpdate` | js/components.js:134 | changing one value changes the total by the difference |
| `Allocation.RoomUpdate` | js/components.js:134 | raising an uncapped value by one lowers the room under the cap by one |
| `Allocation.RoomZeroIffAllAtCap` | js/components.js:137 | no room is left iff every stat is at or above the cap |
| `Allocation.Step` | js/components.js:132-136 | one draw: a point is spent iff the drawn stat is below the cap; points plus the total stay constant; no value falls or passes the cap |
| `Allocation.StepOnFullStats` | js/components.js:133-136 | with every stat capped a draw changes nothing |
| `Allocation.DrawnIndex` | js/components.js:132 | the drawn index lies within the stats |
| `Allocation.Allocate` | js/components.js:131-139 | the loop uses no more draws than it has |
| `Allocation.AllocateConserves` | js/components.js:131-139 | the loop keeps the entries' stats, and points plus the total stay constant |
| `Allocation.AllocateBounds` | js/components.js:133-134 | no value falls, and none rises past the cap |
| `Allocation.AllocateExit` | js/components.js:131-139 | the loop stops with no points left, or, on the anti-hang `break`, with points left and every stat capped |
| `Allocation.AllocateLeftover` | js/components.js:137-138 | the points left are exactly what the room under the cap could not take |
| `Allocation.DrawEffect` | js/components.js:132-136 | a draw on an uncapped stat spends a point; a draw on a capped one does nothing |
| `Allocation.StepEntry` | js/components.js:133-136 | the in-place step leaves the array and points that `Step` describes |
| `Allocation.AllocateNext` | js/components.js:131-139 | one pass of the loop: stop on the anti-hang `break`, otherwise go on with the next draw |
| `Allocation.AllocatePoints` | js/components.js:131-139 | the in-place `while` loop leaves the array, points and outcome that `Allocate` describes |
| `Generator.DefenseValue` | js/components.js:140 | `find(Defense)?.value \|\| 0`: the first Defense entry's value, and 0 with no Defense entry |
| `Generator.DefenseEntry` | js/components.js:140 | definition only: the found entry's value, or 0 |
| `Generator.GenerateCharacter` | js/components.js:102-156 | every field is the drawn table entry, gear is the archetype's gear idea, stats are bonus then allocation, and hp is 10 plus Defense |
| `Generator.TwoBonusesOnZeros` | js/components.js:115-130 | +2 and +1 on two distinct zero stats give total 3, values in 0..2 and room 21 |
| `Generator.BonusedStats` | js/components.js:115-130 | after the bonus phase, whatever the archetype: total 3, values in 0..2, room 21 |
| `Generator.GeneratedStats` | js/components.js:114-141 | every generated stat lies in 0..4; the loop spends all 10 points (total exactly 13) unless the draws ran out; hp lies in 10..14 |
| `Generator.RollHeaders` | js/components.js:259 | the headers are `Roll (` + the dice type upper-cased + `)` and `Result` |
| `Generator.RollRows` | js/components.js:260-275 | one row per item, whose cell is the item's text or `name: description` |
| `Generator.RollRowLabel` | js/components.js:261 | row i's label is the decimal numeral of i + 1 with no leading zero |
| `Generator.RollRowLabelsDistinct` | js/components.js:274 | no two rows share a label |
| `Generator.ExplosionIcons` | js/components.js:76 | the meter always has five icons |
| `Generator.ExplosionMeterLit` | js/components.js:76 | the lit icons come first, and their number is the intensity clamped to 0..5 |
| `Sheet.SavedStat` | App.tsx:477 | the stat's saved number, or 0 |
| `Sheet.CompleteStats` | App.tsx:476-479 | definition only (see `CompleteStatsKeeps`, `CompleteStatsSets` and `CompleteStatsOnly`) |
| `Sheet.CompleteStatsKeeps` | App.tsx:476-479 | the completion `reduce` keeps the accumulator's other keys |
| `Sheet.CompleteStatsSets` | App.tsx:476-479 | each listed stat gets its saved number, or 0 when absent or null |
| `Sheet.CompleteStatsOnly` | App.tsx:476-479 | the completion adds no other key |
| `Sheet.LoadedStats` | App.tsx:476-479 | the completed stats hold exactly the six stats, each the saved number or 0 |
| `Sheet.Merge` | App.tsx:481 | a loaded sheet's stats object holds exactly the six stats |
| `Sheet.ToSaved` | App.tsx:532 | the saved stats object has the sheet's keys and values |
| `Sheet.MergeFields` | App.tsx:481 | a field absent from the saved data keeps its initial value, and a present one is taken |
| `Sheet.LoadNothingSaved` | App.tsx:481 | loading an object with no fields gives the initial sheet |
| `Sheet.SavedStatsReload` | App.tsx:476-479 | a saved stats object with exactly the six stats completes to itself |
| `Sheet.MergeToSaved` | App.tsx:481 | loading what was saved gives back the sheet |
| `Sheet.Synced` | App.tsx:493-500 | after the sync, `maxHp == 10 + (Defense \|\| 0)` and `hp == min(old hp, maxHp)`, and nothing else changes |
| `Sheet.DefenseOf` | App.tsx:493 | definition only: `stats[Defense] \|\| 0` |
| `Sheet.SyncNeverRaisesHp` | App.tsx:499 | the sync never raises hp, and leaves it at most `maxHp` |
| `Sheet.SyncNoOp` | App.tsx:495 | the sync changes nothing iff `maxHp` already equals 10 + Defense and `hp <= maxHp` |
| `Sheet.SyncIdempotent` | App.tsx:489-503 | a second sync after the first changes nothing |
| `Sheet.SyncedMaxHp` | App.tsx:493-494 | with every stat present, `maxHp` becomes 10 plus the Defense stat |
| `Sheet.TextFieldNamed` | App.tsx:368-452 | an input name maps to the text field of that name, or to none when no field has it |
| `Sheet.TextFieldNamesDistinct` | App.tsx:368-452 | no two text inputs share a name |
| `Sheet.SetText` | App.tsx:513 | a text edit leaves the stats and the number fields alone |
| `Sheet.GetSetText` | App.tsx:513 | the field set reads back the new value, and every other text field is unchanged |
| `Sheet.SetGetText` | App.tsx:513 | writing back a field's own value changes nothing |
| `Sheet.WithText` | App.tsx:511-514 | `handleInputChange` never touches the stats |
| `Sheet.TextEdit` | App.tsx:511-514 | the input named after a text field sets exactly that field |
| `Sheet.NumberFieldNamed` | App.tsx:400-408 | an input name maps to hp, maxHp or stuntPoints, or to none |
| `Sheet.SetNumber` | App.tsx:527 | a number edit leaves the stats and the text fields alone |
| `Sheet.GetSetNumber` | App.tsx:527 | the number field set reads back the new value, and the others are unchanged |
| `Sheet.InputNumber` | App.tsx:518 | `parseInt(value)`, with NaN read as 0 |
| `Sheet.NotStatField` | App.tsx:520 | names differing from `stat-` in the first or third letter are not stat inputs |
| `Sheet.WithNumber` | App.tsx:516-529 | `handleNumberInputChange` never touches a text field |
| `Sheet.StatEdit` | App.tsx:520-525 | the input `stat-<S>` sets `stats[S]` to the parsed number, or 0, and nothing else |
| `Sheet.NumberEdit` | App.tsx:526-528 | the hp, maxHp and stuntPoints inputs set their own field to the parsed number, or 0, and nothing else |
| `Sheet.EditsKeepAllStats` | types.ts:76 | no edit removes a stat from the sheet |
| `Sheet.SettledHp` | App.tsx:495 | definition only: the state in which the sync effect changes nothing |
| `Sheet.SyncSettles` | App.tsx:489-503 | after the sync the sheet is settled |
| `Sheet.MaxHpEditUndone` | App.tsx:489-528 | a Max HP edit followed by the sync effect it re-runs gives the same sheet as the sync alone: `maxHp` is back to 10 plus Defense |
| `Sheet.HpEditClamped` | App.tsx:489-528 | an HP edit followed by the sync keeps `maxHp` at 10 plus Defense, and hp is the parsed number capped at that; nothing else changes |
| `Sheet.DefenseEditSetsMaxHp` | App.tsx:489-525 | a Defense edit followed by the sync sets `maxHp` to 10 plus the parsed number |
| `Sheet.TextEditKeepsHp` | App.tsx:489-514 | a text edit followed by the sync leaves hp and `maxHp` as the sync alone would |
| `Sheet.Loaded` | App.tsx:470-487 | nothing stored (or empty): no change; parseable text: the merged sheet; unparseable text: the stored entry removed and the sheet unchanged |
| `Sheet.LoadAfterSave` | App.tsx:531-534 | loading what `saveSheet` stored gives back the saved sheet |
| `Sheet.SheetPage.constructor` | App.tsx:466-468 | the page starts with the initial sheet, nothing selected and no message |
| `Sheet.SheetPage.LoadSaved` | App.tsx:470-487 | the mount effect leaves the sheet and storage as `Loaded` says |
| `Sheet.SheetPage.SyncArchetypeAndHp` | App.tsx:489-503 | selects the archetype named on the sheet (none when no name matches) and applies `Synced` |
| `Sheet.SheetPage.InputChange` | App.tsx:511-514 | the sheet becomes `WithText` of the old sheet |
| `Sheet.SheetPage.NumberInputChange` | App.tsx:516-529 | the sheet becomes `WithNumber` of the old sheet |
| `Sheet.SheetPage.Settled` | App.tsx:489-503 | definition only: the sync effect would change nothing |
| `Sheet.SheetPage.InputChangeAndSync` | App.tsx:489-514 | a text edit and the effect it re-runs: the sheet becomes `Synced(WithText(old sheet))` and the page is settled |
| `Sheet.SheetPage.NumberInputChangeAndSync` | App.tsx:489-529 | a number edit and the effect it re-runs: the sheet becomes `Synced(WithNumber(old sheet))` and the page is settled |
| `Sheet.SheetPage.SaveSheet` | App.tsx:531-534 | stores the encoded sheet and shows the saved message; the sheet is unchanged |
| `Sheet.SheetPage.ClearSheet` | App.tsx:536-542 | if confirmed: the initial sheet, nothing stored and the cleared message; if declined: nothing changes |

## Left out

- The random draws are not modelled as floating point. Each is an exact real in [0, 1) passed in. `Math.random`'s generator and its rounding are outside the model.
- `Allocation.Allocate`: the source loop draws again for as long as it needs. The model takes a finite sequence of draws and reports `DrawsExhausted` when it runs out. Termination of the source loop is therefore not claimed; it depends on the random source.
- The `setTimeout` delays (the generator's 750 ms, the dice roller's 500 ms, the feedback message's 3000 ms) and the loading flags are not modelled. `Sheet.SheetPage.SaveSheet` and `Sheet.SheetPage.ClearSheet` set the message but never clear it.
- `localStorage`, `JSON.parse`, `JSON.stringify` and `window.confirm` are outside the model. The store is a field holding optional text, parsing and encoding are functions passed in, and confirmation is a boolean. A `JSON.parse` that throws, and a parse to `null` (which throws at `.stats`), both become `None`.
- `Sheet.Merge`: the saved object's fields are not typed dynamically, as the JavaScript object's are. The model does not capture a saved field set to `null` or to a value of the wrong type, a stats value that is not a number, or extra unknown fields that the spread copies onto the sheet.
- `Sheet.WithText` and `Sheet.WithNumber`: an input name that is not a field of the sheet leaves the modelled record unchanged. In the source, the spread would add a property of that name. The form never sends such a name.
- `Text.ParseInt` reads an optional sign and the longest run of decimal digits. It does not skip leading whitespace and does not read the `0x` hexadecimal prefix. The form's inputs and the bonus clauses never need either.
- `Text.Lower` and `Text.Upper` map only the ASCII letters. Unicode case mapping is not modelled; all the texts involved are ASCII.
- The regular expression is modelled only for its shape `[+-]\d+ to (Combat|…|Defense)` with case-insensitive names. A general regular expression engine is out of scope.
- `Bonuses.NamesStatExactly` is proved for the stat names as the pattern spells them. A clause whose name is written in other letter cases is matched by `MatchBonus`, but that it finds the intended stat is not proved.
- `Generator.RollRows` renders the named cell as plain text `name: description`. The bold element around the name and the other styling are presentation.
- `Generator.ExplosionIcons` takes an integer intensity. A fractional intensity is not modelled; every caller passes an integer.
- `Sheet.SheetPage.NumberInputChange` and `Sheet.SheetPage.InputChange` model the handler alone. In the page, React re-runs the sync effect after every change of `archetypeName`, `stats`, `hp` or `maxHp`, so a Max HP edit does not stick. `NumberInputChangeAndSync` and `InputChangeAndSync` model a handler followed by that effect; React's scheduling of renders and effects is not modelled.
- `Sheet.InputNumber`, `Sheet.Merge` and `Text.ParseInt` use unbounded integers. JavaScript numbers are doubles: the rounding of `parseInt` results above 2^53, and fractional or non-finite stored values, are not modelled.
- The sheet page's theme hook, the `DiceRoller` verdict text, `window.print`, scrolling, routing and all other rendering are not modelled. They are presentation or browser I/O.
