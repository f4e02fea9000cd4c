/**
 * The first phase of the random character generator: the archetype's bonus
 * text, split into clauses, each clause matched by the bonus pattern and its
 * number added to the stat entry whose display string contains the name.
 */
module Bonuses {
  import opened Optional
  import opened Text
  import opened Types
  import opened Constants

  // ---------------------------------------------------------------------------
  // Bonus clauses: /([+-]\d+) to (Combat|Agility|Strength|Intellect|Charisma|Defense)/i

  /** The regular expression's stat alternatives, in the order it tries them. */
  const BONUS_STAT_NAMES: seq<string> := ["Combat", "Agility", "Strength", "Intellect", "Charisma", "Defense"]

  /** The position of each stat's alternative in the regular expression. */
  function AltIndex(s: Stat): (i: nat)
    ensures i < |BONUS_STAT_NAMES|
  {
    match s
    case Combat => 0
    case Agility => 1
    case Strength => 2
    case Intellect => 3
    case Charisma => 4
    case Defense => 5
  }

  /** The alternative that spells each stat's name. */
  function BonusName(s: Stat): string
  {
    BONUS_STAT_NAMES[AltIndex(s)]
  }

  /** The two capture groups of a match: the signed number and the stat name as written. */
  datatype BonusMatch = BonusMatch(number: string, statName: string)

  /** The first alternative among `names` that matches at position `k`, ignoring ASCII case;
      the result is the text matched. */
  function NameAt(s: string, k: nat, names: seq<string>): (r: Option<string>)
    ensures r.Some? ==> k + |r.value| <= |s| && r.value == s[k..k + |r.value|]
  {
    if |names| == 0 then None
    else if k + |names[0]| <= |s| && Lower(s[k..k + |names[0]|]) == Lower(names[0]) then Some(s[k..k + |names[0]|])
    else NameAt(s, k, names[1..])
  }

  /** The literal " to " of the regular expression, in any case, at position `j`. */
  predicate SeparatorAt(s: string, j: nat)
  {
    j + 4 <= |s| && Lower(s[j..j + 4]) == " to "
  }

  /** The text of the first capture group: a sign followed by at least one digit. */
  predicate SignedNumber(n: string)
  {
    |n| >= 2 && (n[0] == '+' || n[0] == '-') && IsDigit(n[1])
  }

  /** The first capture group is always a number to `parseInt`. */
  lemma SignedNumberParses(n: string)
    requires SignedNumber(n)
    ensures ParseInt(n).Some?
  {
    ParseIntNaN(n);
  }

  /** The regular expression tried at position `i`: a sign, the longest run of digits
      (at least one), " to " in any case, then a stat alternative. */
  function MatchAt(s: string, i: nat): (r: Option<BonusMatch>)
    ensures r.Some? ==> SignedNumber(r.value.number)
  {
    if i < |s| && (s[i] == '+' || s[i] == '-') then MatchAfterSign(s, i, DigitRunEnd(s, i + 1))
    else None
  }

  /** The rest of the regular expression, once the sign at `i` and the digits up to `j` are read. */
  function MatchAfterSign(s: string, i: nat, j: nat): (r: Option<BonusMatch>)
    requires i < j <= |s| && (s[i] == '+' || s[i] == '-')
    requires forall k :: i < k < j ==> IsDigit(s[k])
    ensures r.Some? ==> SignedNumber(r.value.number)
  {
    if j == i + 1 || !SeparatorAt(s, j) then None
    else
      match NameAt(s, j + 4, BONUS_STAT_NAMES)
      case None => None
      case Some(name) => Some(BonusMatch(s[i..j], name))
  }

  /** The leftmost match at or after position `i`. */
  function MatchFrom(s: string, i: nat): (r: Option<BonusMatch>)
    ensures r.Some? ==> SignedNumber(r.value.number)
    decreases |s| - i
  {
    if i >= |s| then None
    else if MatchAt(s, i).Some? then MatchAt(s, i)
    else MatchFrom(s, i + 1)
  }

  /** `clause.match(regex)`. */
  function MatchBonus(clause: string): (r: Option<BonusMatch>)
    ensures r.Some? ==> SignedNumber(r.value.number)
  {
    MatchFrom(clause, 0)
  }

  /** Alternative `m` matches at position `k`, ignoring ASCII case. */
  predicate AltMatches(s: string, k: nat, m: string)
  {
    k + |m| <= |s| && Lower(s[k..k + |m|]) == Lower(m)
  }

  /** An alternative that does not match is passed over. */
  lemma NameAtSkip(s: string, k: nat, names: seq<string>)
    requires |names| > 0 && !AltMatches(s, k, names[0])
    ensures NameAt(s, k, names) == NameAt(s, k, names[1..])
  {
  }

  /** The first alternative, when it matches, is the one taken. */
  lemma NameAtHit(s: string, k: nat, names: seq<string>)
    requires |names| > 0 && k + |names[0]| <= |s| && s[k..k + |names[0]|] == names[0]
    ensures NameAt(s, k, names) == Some(names[0])
  {
  }

  /** An alternative whose first two letters differ from the text's cannot match there. */
  lemma AltMismatch(s: string, k: nat, n: string, m: string)
    requires 2 <= |n| && 2 <= |m| && k + |n| <= |s| && s[k..k + |n|] == n
    requires LowerChar(n[0]) != LowerChar(m[0]) || LowerChar(n[1]) != LowerChar(m[1])
    ensures !AltMatches(s, k, m)
  {
    assert s[k] == n[0] && s[k + 1] == n[1];
  }

  /** Any two alternatives differ, ignoring case, in one of their first two letters. */
  lemma AltsDiffer(t: Stat, i: nat)
    requires i < |BONUS_STAT_NAMES| && i != AltIndex(t)
    ensures var n, m := BonusName(t), BONUS_STAT_NAMES[i];
      2 <= |m| && (LowerChar(n[0]) != LowerChar(m[0]) || LowerChar(n[1]) != LowerChar(m[1]))
  {
  }

  /** At text spelling stat `t`, another stat's alternative is passed over. */
  lemma NameAtPassOver(s: string, k: nat, t: Stat, i: nat)
    requires i < AltIndex(t)
    requires k + |BonusName(t)| <= |s| && s[k..k + |BonusName(t)|] == BonusName(t)
    ensures NameAt(s, k, BONUS_STAT_NAMES[i..]) == NameAt(s, k, BONUS_STAT_NAMES[i + 1..])
  {
    var names := BONUS_STAT_NAMES[i..];
    AltsDiffer(t, i);
    AltMismatch(s, k, BonusName(t), names[0]);
    NameAtSkip(s, k, names);
    assert names[1..] == BONUS_STAT_NAMES[i + 1..];
  }

  /** Trying the alternatives from position `i` on, at text spelling stat `t`, finds `t`'s. */
  lemma {:induction false} NameAtSelectsFrom(s: string, k: nat, t: Stat, i: nat)
    requires i <= AltIndex(t)
    requires k + |BonusName(t)| <= |s| && s[k..k + |BonusName(t)|] == BonusName(t)
    ensures NameAt(s, k, BONUS_STAT_NAMES[i..]) == Some(BonusName(t))
    decreases AltIndex(t) - i
  {
    var names := BONUS_STAT_NAMES[i..];
    if i == AltIndex(t) {
      NameAtHit(s, k, names);
    } else {
      NameAtPassOver(s, k, t, i);
      NameAtSelectsFrom(s, k, t, i + 1);
    }
  }

  /** At a position spelling one of the stat names, the alternation picks that name. */
  lemma NameAtSelects(s: string, k: nat, t: Stat)
    requires k + |BonusName(t)| <= |s| && s[k..k + |BonusName(t)|] == BonusName(t)
    ensures NameAt(s, k, BONUS_STAT_NAMES) == Some(BonusName(t))
  {
    NameAtSelectsFrom(s, k, t, 0);
    assert BONUS_STAT_NAMES[0..] == BONUS_STAT_NAMES;
  }

  /** The regular expression matches at `i` when its parts are found there in turn. */
  lemma MatchAtParts(s: string, i: nat, j: nat, name: string)
    requires i < |s| && (s[i] == '+' || s[i] == '-')
    requires i + 1 < j && DigitRunEnd(s, i + 1) == j
    requires SeparatorAt(s, j) && NameAt(s, j + 4, BONUS_STAT_NAMES) == Some(name)
    ensures MatchAt(s, i) == Some(BonusMatch(s[i..j], name))
  {
    assert MatchAt(s, i) == MatchAfterSign(s, i, j);
  }

  /** A clause that starts with a sign, digits, " to " and a stat name matches right there. */
  lemma MatchLeadingClause(sign: char, digits: string, t: Stat, rest: string)
    requires sign == '+' || sign == '-'
    requires |digits| > 0 && AllDigits(digits)
    ensures MatchBonus([sign] + digits + " to " + BonusName(t) + rest) == Some(BonusMatch([sign] + digits, BonusName(t)))
  {
    var name := BonusName(t);
    var head := [sign] + digits;
    var lead := head + " to ";
    var s := lead + name + rest;
    var j := |head|;
    assert s[..j] == head;
    assert s[1..j] == digits;
    assert s[j] == ' ';
    DigitRunEndAt(s, 1, j);
    assert s == lead + (name + rest);
    assert s[..|lead|] == lead;
    assert lead[j..] == " to ";
    assert s[j..j + 4] == lead[j..];
    assert SeparatorAt(s, j);
    assert s[|lead|..|lead| + |name|] == name;
    NameAtSelects(s, j + 4, t);
    MatchAtParts(s, 0, j, name);
  }


  /** The position of the first alternative among `names` that matches at `k`, ignoring
      ASCII case, or `|names|` when none does. */
  function FirstAlt(s: string, k: nat, names: seq<string>): (a: nat)
    ensures a <= |names|
    ensures a < |names| ==> AltMatches(s, k, names[a])
    ensures forall b :: 0 <= b < a ==> !AltMatches(s, k, names[b])
    decreases |names|
  {
    if |names| == 0 then 0
    else if AltMatches(s, k, names[0]) then 0
    else
      var a := FirstAlt(s, k, names[1..]);
      assert forall b :: 1 <= b < a + 1 ==> names[b] == names[1..][b - 1];
      a + 1
  }

  /** The alternation returns the text of the first alternative that matches, and nothing
      when no alternative does. */
  lemma {:induction false} NameAtFirst(s: string, k: nat, names: seq<string>)
    ensures var a := FirstAlt(s, k, names);
      NameAt(s, k, names) == if a < |names| then Some(s[k..k + |names[a]|]) else None
    decreases |names|
  {
    if |names| > 0 && !AltMatches(s, k, names[0]) {
      NameAtSkip(s, k, names);
      NameAtFirst(s, k, names[1..]);
    }
  }

  /** A match at `i` is a sign, the longest run of at least one digit (ending at `j`),
      " to " in any case and a stat alternative, standing at `i`; its captures are the
      signed number and the alternative's text. The converse of `MatchAtParts`. */
  lemma MatchAtShape(s: string, i: nat, j: nat)
    requires MatchAt(s, i).Some?
    requires i < |s| && j == DigitRunEnd(s, i + 1)
    ensures (s[i] == '+' || s[i] == '-') && j > i + 1 && SeparatorAt(s, j)
    ensures NameAt(s, j + 4, BONUS_STAT_NAMES).Some?
    ensures MatchAt(s, i).value == BonusMatch(s[i..j], NameAt(s, j + 4, BONUS_STAT_NAMES).value)
  {
    assert MatchAt(s, i) == MatchAfterSign(s, i, j);
    MatchAfterSignShape(s, i, j);
  }

  /** The same, once the sign and the digits up to `j` are read. */
  lemma MatchAfterSignShape(s: string, i: nat, j: nat)
    requires i < j <= |s| && (s[i] == '+' || s[i] == '-')
    requires forall k :: i < k < j ==> IsDigit(s[k])
    requires MatchAfterSign(s, i, j).Some?
    ensures j > i + 1 && SeparatorAt(s, j)
    ensures NameAt(s, j + 4, BONUS_STAT_NAMES).Some?
    ensures MatchAfterSign(s, i, j).value == BonusMatch(s[i..j], NameAt(s, j + 4, BONUS_STAT_NAMES).value)
  {
  }

  /** When the expression fails at every position from `i` up to `p`, the search from `i`
      gives what the search from `p` gives. */
  lemma {:induction false} MatchFromSkips(s: string, i: nat, p: nat)
    requires i <= p <= |s|
    requires forall q :: i <= q < p ==> MatchAt(s, q).None?
    ensures MatchFrom(s, i) == MatchFrom(s, p)
    decreases p - i
  {
    if i < p {
      assert MatchAt(s, i).None?;
      MatchFromSkips(s, i + 1, p);
    }
  }

  /** The search returns the match at the leftmost position where the expression matches. */
  lemma MatchFromLeftmost(s: string, i: nat, p: nat)
    requires i <= p < |s| && MatchAt(s, p).Some?
    requires forall q :: i <= q < p ==> MatchAt(s, q).None?
    ensures MatchFrom(s, i) == MatchAt(s, p)
  {
    MatchFromSkips(s, i, p);
  }

  /** The search finds nothing only when the expression matches at no position from `i` on. */
  lemma {:induction false} MatchFromNone(s: string, i: nat)
    ensures MatchFrom(s, i).None? ==> forall q :: i <= q < |s| ==> MatchAt(s, q).None?
    decreases |s| - i
  {
    if i < |s| && MatchFrom(s, i).None? {
      assert MatchAt(s, i).None?;
      assert MatchFrom(s, i + 1).None?;
      MatchFromNone(s, i + 1);
    }
  }

  /** `clause.match(regex)` is `null` exactly when the expression matches at no position. */
  lemma MatchBonusNone(clause: string)
    ensures MatchBonus(clause).None? <==> forall q :: 0 <= q < |clause| ==> MatchAt(clause, q).None?
  {
    MatchFromNone(clause, 0);
    if forall q :: 0 <= q < |clause| ==> MatchAt(clause, q).None? {
      MatchFromSkips(clause, 0, |clause|);
    }
  }

  // ---------------------------------------------------------------------------
  // Finding the stat a clause names: stats.find(s => s.stat.toLowerCase().includes(statName.toLowerCase()))

  /** The stat's display string contains `statName`, ignoring ASCII case. */
  predicate NamesStat(s: Stat, statName: string)
  {
    Includes(Lower(Display(s)), Lower(statName))
  }

  /** The position of the first entry at or after `from` whose stat satisfies `test`. */
  function FindFrom(stats: seq<CharacterStat>, test: Stat -> bool, from: nat): (r: Option<nat>)
    requires from <= |stats|
    ensures r.Some? ==> from <= r.value < |stats| && test(stats[r.value].stat)
    ensures r.Some? ==> forall k :: from <= k < r.value ==> !test(stats[k].stat)
    ensures r.None? ==> forall k :: from <= k < |stats| ==> !test(stats[k].stat)
    decreases |stats| - from
  {
    if from == |stats| then None
    else if test(stats[from].stat) then Some(from)
    else FindFrom(stats, test, from + 1)
  }

  /** The position of the entry `stats.find` returns for a clause naming `statName`. */
  function FindStat(stats: seq<CharacterStat>, statName: string): (r: Option<nat>)
    ensures r.Some? ==> r.value < |stats| && NamesStat(stats[r.value].stat, statName)
    ensures r.Some? ==> forall k :: 0 <= k < r.value ==> !NamesStat(stats[k].stat, statName)
    ensures r.None? ==> forall k :: 0 <= k < |stats| ==> !NamesStat(stats[k].stat, statName)
  {
    FindFrom(stats, s => NamesStat(s, statName), 0)
  }

  /** Lower-casing distributes over concatenation. */
  lemma LowerAppend(a: string, b: string)
    ensures Lower(a + b) == Lower(a) + Lower(b)
  {
    assert forall i :: 0 <= i < |a + b| ==> Lower(a + b)[i] == (Lower(a) + Lower(b))[i];
  }

  /** What a display string adds after the stat's name: its abbreviation in parentheses. */
  function Tag(s: Stat): string
  {
    " (" + Abbreviation(s) + ")"
  }

  /** The regular expression's alternative for each stat is the stat's name. */
  lemma BonusNameIsName(s: Stat)
    ensures BonusName(s) == Name(s)
  {
  }

  /** Each display string is the regular expression's name for the stat followed by its tag. */
  lemma DisplayIsNameAndTag(s: Stat)
    ensures Display(s) == BonusName(s) + Tag(s)
  {
    BonusNameIsName(s);
  }

  /** A stat's own display string begins with its name. */
  lemma NamesOwnStat(t: Stat)
    ensures NamesStat(t, BonusName(t))
  {
    DisplayIsNameAndTag(t);
    LowerAppend(BonusName(t), Tag(t));
    PrefixIncluded(Lower(BonusName(t)), Lower(Tag(t)));
  }

  /** A needle whose `i`-th letter appears in the haystack in neither case is not
      included in it, ignoring case. */
  lemma LetterMissingExcludes(h: string, n: string, i: nat)
    requires i < |n| && 'a' <= LowerChar(n[i]) <= 'z'
    requires LowerChar(n[i]) !in h && UpperChar(LowerChar(n[i])) !in h
    ensures !Includes(Lower(h), Lower(n))
  {
    var c := LowerChar(n[i]);
    var lh := Lower(h);
    forall j | 0 <= j < |lh|
      ensures lh[j] != c
    {
      if lh[j] == c {
        LowerCharFrom(h[j], c);
      }
    }
    assert Lower(n)[i] == c;
    MissingCharExcludes(lh, Lower(n), i);
  }

  /** Letters, in both cases, that a display string does not contain: for each other
      stat, one of the first two letters of its name. */
  function AbsentLetters(s: Stat): set<char>
  {
    match s
    case Strength => {'a', 'A', 'i', 'I', 'c', 'C', 'd', 'D'}
    case Agility => {'s', 'S', 'n', 'N', 'c', 'C', 'd', 'D'}
    case Intellect => {'s', 'S', 'a', 'A', 'h', 'H', 'o', 'O', 'd', 'D'}
    case Charisma => {'t', 'T', 'g', 'G', 'n', 'N', 'o', 'O', 'd', 'D'}
    case Combat => {'s', 'S', 'g', 'G', 'i', 'I', 'h', 'H', 'd', 'D'}
    case Defense => {'t', 'T', 'a', 'A', 'i', 'I', 'c', 'C'}
  }

  lemma StrengthDisplayAvoids()
    ensures forall c :: c in Display(Strength) ==> c !in AbsentLetters(Strength)
  {
  }

  lemma AgilityDisplayAvoids()
    ensures forall c :: c in Display(Agility) ==> c !in AbsentLetters(Agility)
  {
  }

  lemma IntellectDisplayAvoids()
    ensures forall c :: c in Display(Intellect) ==> c !in AbsentLetters(Intellect)
  {
  }

  lemma CharismaDisplayAvoids()
    ensures forall c :: c in Display(Charisma) ==> c !in AbsentLetters(Charisma)
  {
  }

  lemma CombatDisplayAvoids()
    ensures forall c :: c in Display(Combat) ==> c !in AbsentLetters(Combat)
  {
  }

  lemma DefenseDisplayAvoids()
    ensures forall c :: c in Display(Defense) ==> c !in AbsentLetters(Defense)
  {
  }

  /** No character of a display string is among its `AbsentLetters`. */
  lemma DisplayAvoids(s: Stat)
    ensures forall c :: c in Display(s) ==> c !in AbsentLetters(s)
  {
    match s
    case Strength => StrengthDisplayAvoids();
    case Agility => AgilityDisplayAvoids();
    case Intellect => IntellectDisplayAvoids();
    case Charisma => CharismaDisplayAvoids();
    case Combat => CombatDisplayAvoids();
    case Defense => DefenseDisplayAvoids();
  }

  /** A letter listed as absent from a display string is not in it. */
  lemma AbsentFromDisplay(s: Stat, c: char)
    requires c in AbsentLetters(s)
    ensures c !in Display(s)
  {
    DisplayAvoids(s);
  }

  /** No display string but its own contains "Strength". */
  lemma NoOtherStatNamedStrength(s: Stat)
    requires s != Strength
    ensures !NamesStat(s, BonusName(Strength))
  {
    var n := BonusName(Strength);
    assert n == "Strength";
    var i := if s == Charisma || s == Defense then 1 else 0;
    var lower, upper := if i == 1 then 't' else 's', if i == 1 then 'T' else 'S';
    assert LowerChar(n[i]) == lower && UpperChar(lower) == upper;
    AbsentFromDisplay(s, lower);
    AbsentFromDisplay(s, upper);
    LetterMissingExcludes(Display(s), n, i);
  }

  /** No display string but its own contains "Agility". */
  lemma NoOtherStatNamedAgility(s: Stat)
    requires s != Agility
    ensures !NamesStat(s, BonusName(Agility))
  {
    var n := BonusName(Agility);
    assert n == "Agility";
    var i := if s == Charisma || s == Combat then 1 else 0;
    var lower, upper := if i == 1 then 'g' else 'a', if i == 1 then 'G' else 'A';
    assert LowerChar(n[i]) == lower && UpperChar(lower) == upper;
    AbsentFromDisplay(s, lower);
    AbsentFromDisplay(s, upper);
    LetterMissingExcludes(Display(s), n, i);
  }

  /** No display string but its own contains "Intellect". */
  lemma NoOtherStatNamedIntellect(s: Stat)
    requires s != Intellect
    ensures !NamesStat(s, BonusName(Intellect))
  {
    var n := BonusName(Intellect);
    assert n == "Intellect";
    var i := if s == Agility || s == Charisma then 1 else 0;
    var lower, upper := if i == 1 then 'n' else 'i', if i == 1 then 'N' else 'I';
    assert LowerChar(n[i]) == lower && UpperChar(lower) == upper;
    AbsentFromDisplay(s, lower);
    AbsentFromDisplay(s, upper);
    LetterMissingExcludes(Display(s), n, i);
  }

  /** No display string but its own contains "Charisma". */
  lemma NoOtherStatNamedCharisma(s: Stat)
    requires s != Charisma
    ensures !NamesStat(s, BonusName(Charisma))
  {
    var n := BonusName(Charisma);
    assert n == "Charisma";
    var i := if s == Intellect || s == Combat then 1 else 0;
    var lower, upper := if i == 1 then 'h' else 'c', if i == 1 then 'H' else 'C';
    assert LowerChar(n[i]) == lower && UpperChar(lower) == upper;
    AbsentFromDisplay(s, lower);
    AbsentFromDisplay(s, upper);
    LetterMissingExcludes(Display(s), n, i);
  }

  /** No display string but its own contains "Combat". */
  lemma NoOtherStatNamedCombat(s: Stat)
    requires s != Combat
    ensures !NamesStat(s, BonusName(Combat))
  {
    var n := BonusName(Combat);
    assert n == "Combat";
    var i := if s == Intellect || s == Charisma then 1 else 0;
    var lower, upper := if i == 1 then 'o' else 'c', if i == 1 then 'O' else 'C';
    assert LowerChar(n[i]) == lower && UpperChar(lower) == upper;
    AbsentFromDisplay(s, lower);
    AbsentFromDisplay(s, upper);
    LetterMissingExcludes(Display(s), n, i);
  }

  /** No display string but its own contains "Defense". */
  lemma NoOtherStatNamedDefense(s: Stat)
    requires s != Defense
    ensures !NamesStat(s, BonusName(Defense))
  {
    var n := BonusName(Defense);
    assert n == "Defense";
    var i := 0;
    var lower, upper := 'd', 'D';
    assert LowerChar(n[i]) == lower && UpperChar(lower) == upper;
    AbsentFromDisplay(s, lower);
    AbsentFromDisplay(s, upper);
    LetterMissingExcludes(Display(s), n, i);
  }

  /** Another stat's display string lacks, in both cases, one of the first two letters of the name. */
  lemma NamesNoOtherStat(s: Stat, t: Stat)
    requires s != t
    ensures !NamesStat(s, BonusName(t))
  {
    match t
    case Strength => NoOtherStatNamedStrength(s);
    case Agility => NoOtherStatNamedAgility(s);
    case Intellect => NoOtherStatNamedIntellect(s);
    case Charisma => NoOtherStatNamedCharisma(s);
    case Combat => NoOtherStatNamedCombat(s);
    case Defense => NoOtherStatNamedDefense(s);
  }

  /** A stat name from the regular expression is contained in exactly one display string:
      its own. So the loose `includes` test finds the intended stat. */
  lemma NamesStatExactly(s: Stat, t: Stat)
    ensures NamesStat(s, BonusName(t)) <==> s == t
  {
    if s == t {
      NamesOwnStat(t);
    } else {
      NamesNoOtherStat(s, t);
    }
  }


  // ---------------------------------------------------------------------------
  // Applying the archetype bonus to freshly zeroed stats

  /** Where each stat sits in `STAT_KEYS`. */
  function KeyIndex(t: Stat): (k: nat)
    ensures k < |STAT_KEYS| && STAT_KEYS[k] == t
  {
    match t
    case Strength => 0
    case Agility => 1
    case Intellect => 2
    case Charisma => 3
    case Combat => 4
    case Defense => 5
  }

  /** The stat entries are labelled in `STAT_KEYS` order, as the generator builds them. */
  predicate OnKeys(stats: seq<CharacterStat>)
  {
    |stats| == |STAT_KEYS| && forall k :: 0 <= k < |stats| ==> stats[k].stat == STAT_KEYS[k]
  }

  /** The search stops at the first entry passing the test. */
  lemma {:induction false} FindFromFirst(stats: seq<CharacterStat>, test: Stat -> bool, from: nat, target: nat)
    requires from <= target < |stats| && test(stats[target].stat)
    requires forall k :: from <= k < target ==> !test(stats[k].stat)
    ensures FindFrom(stats, test, from) == Some(target)
    decreases target - from
  {
    if from < target {
      FindFromFirst(stats, test, from + 1, target);
    }
  }

  /** Only position `KeyIndex(t)` of `STAT_KEYS` holds `t`. */
  lemma KeyIndexUnique(t: Stat, k: nat)
    requires k < |STAT_KEYS| && STAT_KEYS[k] == t
    ensures k == KeyIndex(t)
  {
    StatKeysEnumerateStats();
  }

  /** On stats in `STAT_KEYS` order, the clause's stat name finds that stat's own entry. */
  lemma FindStatOnKeys(stats: seq<CharacterStat>, t: Stat)
    requires OnKeys(stats)
    ensures FindStat(stats, BonusName(t)) == Some(KeyIndex(t))
  {
    var target := KeyIndex(t);
    var test := (s: Stat) => NamesStat(s, BonusName(t));
    NamesOwnStat(t);
    forall k | 0 <= k < target
      ensures !test(stats[k].stat)
    {
      if stats[k].stat == t {
        KeyIndexUnique(t, k);
      }
      NamesNoOtherStat(stats[k].stat, t);
    }
    FindFromFirst(stats, test, 0, target);
  }

  /** What one clause of the bonus text does: the number it carries, to be added to the
      first entry whose display string contains the stat it names. `None` when the
      regular expression does not match or no entry's display string contains the name. */
  function ClauseEffect(stats: seq<CharacterStat>, clause: string): (r: Option<(nat, int)>)
    ensures r.Some? ==> r.value.0 < |stats|
  {
    match MatchBonus(clause)
    case None => None
    case Some(parts) =>
      match FindStat(stats, parts.statName)
      case None => None
      case Some(k) =>
        SignedNumberParses(parts.number);
        Some((k, ParseInt(parts.number).value))
  }

  /** Adding `delta` to entry `k`. */
  function AddTo(stats: seq<CharacterStat>, k: nat, delta: int): (r: seq<CharacterStat>)
    requires k < |stats|
    ensures |r| == |stats| && r[k].value == stats[k].value + delta
    ensures forall j :: 0 <= j < |r| ==> r[j].stat == stats[j].stat
    ensures forall j :: 0 <= j < |r| && j != k ==> r[j] == stats[j]
  {
    stats[k := CharacterStat(stats[k].stat, stats[k].value + delta)]
  }

  /** One clause applied to the entries. */
  function ApplyClause(stats: seq<CharacterStat>, clause: string): (r: seq<CharacterStat>)
    ensures |r| == |stats|
    ensures forall k :: 0 <= k < |r| ==> r[k].stat == stats[k].stat
  {
    match ClauseEffect(stats, clause)
    case None => stats
    case Some((k, delta)) => AddTo(stats, k, delta)
  }

  /** `bonuses.forEach(...)`: the clauses applied in order. */
  function ApplyClauses(stats: seq<CharacterStat>, clauses: seq<string>): (r: seq<CharacterStat>)
    ensures |r| == |stats|
    ensures forall k :: 0 <= k < |r| ==> r[k].stat == stats[k].stat
  {
    if |clauses| == 0 then stats
    else ApplyClause(ApplyClauses(stats, clauses[..|clauses| - 1]), clauses[|clauses| - 1])
  }

  /** The clauses of the drawn archetype's bonus: the bonus of the table entry with the
      drawn archetype's name, split at ", "; none when no entry has that name. */
  function BonusClauses(archetype: Archetype): seq<string>
  {
    match FindArchetype(archetype.name)
    case None => []
    case Some(a) => Split(a.bonus, ", ")
  }

  /** The clauses are the table entry's bonus text cut at every ", ", and none when the name is unknown. */
  lemma BonusClausesPieces(archetype: Archetype)
    ensures FindArchetype(archetype.name).None? ==> BonusClauses(archetype) == []
    ensures FindArchetype(archetype.name).Some? ==>
      Join(BonusClauses(archetype), ", ") == FindArchetype(archetype.name).value.bonus
    ensures forall i :: 0 <= i < |BonusClauses(archetype)| ==> !Includes(BonusClauses(archetype)[i], ", ")
  {
    match FindArchetype(archetype.name)
    case None =>
    case Some(a) =>
      JoinSplit(a.bonus, ", ");
      SplitPiecesFree(a.bonus, ", ");
  }

  /** The `forEach` over the bonus clauses, updating the stat entries in place. */
  method ApplyBonuses(stats: array<CharacterStat>, bonuses: seq<string>)
    modifies stats
    ensures stats[..] == ApplyClauses(old(stats[..]), bonuses)
  {
    var i := 0;
    while i < |bonuses|
      invariant 0 <= i <= |bonuses|
      invariant stats[..] == ApplyClauses(old(stats[..]), bonuses[..i])
    {
      var b := bonuses[i];
      ghost var before := stats[..];
      ApplyNext(old(stats[..]), bonuses, i);
      var effect := ClauseEffect(stats[..], b);
      if effect.Some? {
        var (k, delta) := effect.value;
        ApplyKnownClause(before, b, k, delta);
        AddToEntry(stats, k, delta);
      } else {
        ApplyNoClause(before, b);
      }
      i := i + 1;
    }
    assert bonuses[..|bonuses|] == bonuses;
  }

  /** `targetStat.value += value`: entry `k` of the array gains `delta`. */
  method AddToEntry(stats: array<CharacterStat>, k: nat, delta: int)
    requires k < stats.Length
    modifies stats
    ensures stats[..] == AddTo(old(stats[..]), k, delta)
  {
    stats[k] := CharacterStat(stats[k].stat, stats[k].value + delta);
  }

  /** The clauses up to `i + 1` are those up to `i`, then clause `i`. */
  lemma ApplyNext(stats: seq<CharacterStat>, clauses: seq<string>, i: nat)
    requires i < |clauses|
    ensures ApplyClauses(stats, clauses[..i + 1]) == ApplyClause(ApplyClauses(stats, clauses[..i]), clauses[i])
  {
    assert clauses[..i + 1][..i] == clauses[..i];
  }

  /** A clause without effect leaves the entries as they are. */
  lemma ApplyNoClause(stats: seq<CharacterStat>, clause: string)
    requires ClauseEffect(stats, clause).None?
    ensures ApplyClause(stats, clause) == stats
  {
  }

  /** `parseInt("+2")` and `parseInt("+1")`. */
  lemma ParseSmallBonuses()
    ensures ParseInt("+2") == Some(2) && ParseInt("+1") == Some(1)
  {
    DigitRunEndAt("+2", 1, 2);
    DigitRunEndAt("+1", 1, 2);
    assert "+2"[1..2] == "2" && "+1"[1..2] == "1";
    assert DigitsValue("2") == 2 && DigitsValue("1") == 1;
  }

  /** On entries in `STAT_KEYS` order, a clause "<sign><digits> to <Stat>..." adds its
      number to that stat's entry. */
  lemma ClauseEffectOnKeys(stats: seq<CharacterStat>, number: string, t: Stat, rest: string)
    requires OnKeys(stats)
    requires |number| >= 2 && (number[0] == '+' || number[0] == '-') && AllDigits(number[1..])
    ensures ParseInt(number).Some?
    ensures ClauseEffect(stats, number + " to " + BonusName(t) + rest) == Some((KeyIndex(t), ParseInt(number).value))
  {
    assert [number[0]] + number[1..] == number;
    MatchLeadingClause(number[0], number[1..], t, rest);
    FindStatOnKeys(stats, t);
    SignedNumberParses(number);
  }

  /** A clause with a known effect adds its number to its entry. */
  lemma ApplyKnownClause(stats: seq<CharacterStat>, clause: string, k: nat, delta: int)
    requires ClauseEffect(stats, clause) == Some((k, delta))
    ensures k < |stats| && ApplyClause(stats, clause) == AddTo(stats, k, delta)
  {
  }

  /** Two clauses are applied one after the other. */
  lemma ApplyTwoClauses(stats: seq<CharacterStat>, c1: string, c2: string)
    ensures ApplyClauses(stats, [c1, c2]) == ApplyClause(ApplyClause(stats, c1), c2)
  {
    assert [c1, c2][..1] == [c1];
    assert [c1][..0] == [];
    assert ApplyClauses(stats, []) == stats;
    assert ApplyClauses(stats, [c1]) == ApplyClause(stats, c1);
  }

  /** No stat name contains a comma. */
  lemma NoCommaInNames(t: Stat)
    ensures ',' !in BonusName(t)
  {
    BonusNameIsName(t);
  }

  /** A bonus text "+2 to <P>..., +1 to <Q>..." splits at ", " into its two clauses. */
  lemma TwoClauseSplit(p: Stat, r1: string, q: Stat, r2: string)
    requires ',' !in r1 && ',' !in r2
    ensures var c1, c2 := "+2" + " to " + BonusName(p) + r1, "+1" + " to " + BonusName(q) + r2;
      Split(c1 + ", " + c2, ", ") == [c1, c2]
  {
    var c1, c2 := "+2" + " to " + BonusName(p) + r1, "+1" + " to " + BonusName(q) + r2;
    NoCommaInNames(p);
    NoCommaInNames(q);
    assert ',' !in c1 && ',' !in c2;
    SplitAfter(c1, ", ", c2);
    SplitWhole(c2, ", ");
  }

  /** The clauses "+2 to <P>..." and "+1 to <Q>..." add 2 to P's entry, then 1 to Q's. */
  lemma TwoClauseApply(stats: seq<CharacterStat>, p: Stat, r1: string, q: Stat, r2: string)
    requires OnKeys(stats)
    ensures var c1, c2 := "+2" + " to " + BonusName(p) + r1, "+1" + " to " + BonusName(q) + r2;
      ApplyClauses(stats, [c1, c2]) == AddTo(AddTo(stats, KeyIndex(p), 2), KeyIndex(q), 1)
  {
    var c1, c2 := "+2" + " to " + BonusName(p) + r1, "+1" + " to " + BonusName(q) + r2;
    ParseSmallBonuses();
    ClauseEffectOnKeys(stats, "+2", p, r1);
    ApplyKnownClause(stats, c1, KeyIndex(p), 2);
    var mid := AddTo(stats, KeyIndex(p), 2);
    assert OnKeys(mid);
    ClauseEffectOnKeys(mid, "+1", q, r2);
    ApplyKnownClause(mid, c2, KeyIndex(q), 1);
    ApplyTwoClauses(stats, c1, c2);
  }

  /** An archetype that the lookup finds by its own name, and whose bonus text reads
      "+2 to <P><r1>, +1 to <Q>.", adds 2 to P's entry and 1 to Q's. */
  lemma BonusOfFound(stats: seq<CharacterStat>, a: Archetype, p: Stat, h1: string, r1: string, q: Stat, t2: string)
    requires OnKeys(stats) && FindArchetype(a.name) == Some(a)
    requires h1 == "+2" + " to " + BonusName(p) && ',' !in r1
    requires t2 == ", " + ("+1" + " to " + BonusName(q) + ".")
    requires a.bonus == h1 + r1 + t2
    ensures ApplyClauses(stats, BonusClauses(a)) == AddTo(AddTo(stats, KeyIndex(p), 2), KeyIndex(q), 1)
  {
    var c1, c2 := "+2" + " to " + BonusName(p) + r1, "+1" + " to " + BonusName(q) + ".";
    AppendAssoc(c1, ", ", c2);
    TwoClauseSplit(p, r1, q, ".");
    TwoClauseApply(stats, p, r1, q, ".");
  }

  /** The bonus texts of the archetype table, clause head, remainder and second clause. */
  lemma BonusTexts()
    ensures ARCHETYPES[0].bonus == "+2 to Combat" + " in hand-to-hand situations" + ", +1 to Agility."
    ensures ARCHETYPES[1].bonus == "+2 to Combat" + " when using explosives" + ", +1 to Strength."
    ensures ARCHETYPES[2].bonus == "+2 to Intellect" + " for gadget use/creation" + ", +1 to Charisma."
    ensures ARCHETYPES[3].bonus == "+2 to Agility" + " for stealth and ranged combat" + ", +1 to Defense."
    ensures ARCHETYPES[4].bonus == "+2 to Agility" + " for speed and stealth" + ", +1 to Intellect."
    ensures ARCHETYPES[5].bonus == "+2 to Intellect" + " for hacking and tech skills" + ", +1 to Defense."
    ensures ARCHETYPES[6].bonus == "+2 to Strength" + (" for powerful attacks" + " and breaching") + ", +1 to Combat."
    ensures ARCHETYPES[7].bonus == "+2 to Charisma" + (" for intimidation/interrogation" + " and investigation") + ", +1 to Intellect."
    ensures ARCHETYPES[8].bonus == "+2 to Defense" + (" for resilience and healing" + " abilities (can use an action" + " to heal self" + " or ally for 1d3 HP)") + ", +1 to Charisma."
    ensures ARCHETYPES[9].bonus == "+2 to Agility" + " when controlling any vehicle" + ", +1 to Intellect."
  {
  }

  /** The two stats each archetype's bonus text raises, by 2 and by 1, in table order. */
  const BONUS_TARGETS: seq<(Stat, Stat)> := [
    (Combat, Agility),
    (Combat, Strength),
    (Intellect, Charisma),
    (Agility, Defense),
    (Agility, Intellect),
    (Intellect, Defense),
    (Strength, Combat),
    (Charisma, Intellect),
    (Defense, Charisma),
    (Agility, Intellect)
  ]

  /** "+2 to Combat …, +1 to Agility.". */
  lemma ArchetypeBonus0(stats: seq<CharacterStat>, k: nat)
    requires OnKeys(stats) && k == 0
    ensures ApplyClauses(stats, BonusClauses(ARCHETYPES[k]))
      == AddTo(AddTo(stats, KeyIndex(BONUS_TARGETS[k].0), 2), KeyIndex(BONUS_TARGETS[k].1), 1)
  {
    TableSizes();
    var r1 := " in hand-to-hand situations";
    NoCommaIn0_a();
    CombatClauseTexts();
    AgilityClauseTexts();
    BonusTexts();
    FindArchetypeChosen(0);
    BonusOfFound(stats, ARCHETYPES[0], Combat, "+2 to Combat", r1, Agility, ", +1 to Agility.");
  }

  /** "+2 to Combat …, +1 to Strength.". */
  lemma ArchetypeBonus1(stats: seq<CharacterStat>, k: nat)
    requires OnKeys(stats) && k == 1
    ensures ApplyClauses(stats, BonusClauses(ARCHETYPES[k]))
      == AddTo(AddTo(stats, KeyIndex(BONUS_TARGETS[k].0), 2), KeyIndex(BONUS_TARGETS[k].1), 1)
  {
    TableSizes();
    var r1 := " when using explosives";
    NoCommaIn1_a();
    CombatClauseTexts();
    StrengthClauseTexts();
    BonusTexts();
    FindArchetypeChosen(1);
    BonusOfFound(stats, ARCHETYPES[1], Combat, "+2 to Combat", r1, Strength, ", +1 to Strength.");
  }

  /** "+2 to Intellect …, +1 to Charisma.". */
  lemma ArchetypeBonus2(stats: seq<CharacterStat>, k: nat)
    requires OnKeys(stats) && k == 2
    ensures ApplyClauses(stats, BonusClauses(ARCHETYPES[k]))
      == AddTo(AddTo(stats, KeyIndex(BONUS_TARGETS[k].0), 2), KeyIndex(BONUS_TARGETS[k].1), 1)
  {
    TableSizes();
    var r1 := " for gadget use/creation";
    NoCommaIn2_a();
    IntellectClauseTexts();
    CharismaClauseTexts();
    BonusTexts();
    FindArchetypeChosen(2);
    BonusOfFound(stats, ARCHETYPES[2], Intellect, "+2 to Intellect", r1, Charisma, ", +1 to Charisma.");
  }

  /** "+2 to Agility …, +1 to Defense.". */
  lemma ArchetypeBonus3(stats: seq<CharacterStat>, k: nat)
    requires OnKeys(stats) && k == 3
    ensures ApplyClauses(stats, BonusClauses(ARCHETYPES[k]))
      == AddTo(AddTo(stats, KeyIndex(BONUS_TARGETS[k].0), 2), KeyIndex(BONUS_TARGETS[k].1), 1)
  {
    TableSizes();
    var r1 := " for stealth and ranged combat";
    NoCommaIn3_a();
    AgilityClauseTexts();
    DefenseClauseTexts();
    BonusTexts();
    FindArchetypeChosen(3);
    BonusOfFound(stats, ARCHETYPES[3], Agility, "+2 to Agility", r1, Defense, ", +1 to Defense.");
  }

  /** "+2 to Agility …, +1 to Intellect.". */
  lemma ArchetypeBonus4(stats: seq<CharacterStat>, k: nat)
    requires OnKeys(stats) && k == 4
    ensures ApplyClauses(stats, BonusClauses(ARCHETYPES[k]))
      == AddTo(AddTo(stats, KeyIndex(BONUS_TARGETS[k].0), 2), KeyIndex(BONUS_TARGETS[k].1), 1)
  {
    TableSizes();
    var r1 := " for speed and stealth";
    NoCommaIn4_a();
    AgilityClauseTexts();
    IntellectClauseTexts();
    BonusTexts();
    FindArchetypeChosen(4);
    BonusOfFound(stats, ARCHETYPES[4], Agility, "+2 to Agility", r1, Intellect, ", +1 to Intellect.");
  }

  /** "+2 to Intellect …, +1 to Defense.". */
  lemma ArchetypeBonus5(stats: seq<CharacterStat>, k: nat)
    requires OnKeys(stats) && k == 5
    ensures ApplyClauses(stats, BonusClauses(ARCHETYPES[k]))
      == AddTo(AddTo(stats, KeyIndex(BONUS_TARGETS[k].0), 2), KeyIndex(BONUS_TARGETS[k].1), 1)
  {
    TableSizes();
    var r1 := " for hacking and tech skills";
    NoCommaIn5_a();
    IntellectClauseTexts();
    DefenseClauseTexts();
    BonusTexts();
    FindArchetypeChosen(5);
    BonusOfFound(stats, ARCHETYPES[5], Intellect, "+2 to Intellect", r1, Defense, ", +1 to Defense.");
  }

  /** "+2 to Strength …, +1 to Combat.". */
  lemma ArchetypeBonus6(stats: seq<CharacterStat>, k: nat)
    requires OnKeys(stats) && k == 6
    ensures ApplyClauses(stats, BonusClauses(ARCHETYPES[k]))
      == AddTo(AddTo(stats, KeyIndex(BONUS_TARGETS[k].0), 2), KeyIndex(BONUS_TARGETS[k].1), 1)
  {
    TableSizes();
    var a, b := " for powerful attacks", " and breaching";
    NoCommaIn6_a();
    NoCommaIn6_b();
    NoCommaAppend(a, b);
    var r1 := a + b;
    StrengthClauseTexts();
    CombatClauseTexts();
    BonusTexts();
    FindArchetypeChosen(6);
    BonusOfFound(stats, ARCHETYPES[6], Strength, "+2 to Strength", r1, Combat, ", +1 to Combat.");
  }

  /** "+2 to Charisma …, +1 to Intellect.". */
  lemma ArchetypeBonus7(stats: seq<CharacterStat>, k: nat)
    requires OnKeys(stats) && k == 7
    ensures ApplyClauses(stats, BonusClauses(ARCHETYPES[k]))
      == AddTo(AddTo(stats, KeyIndex(BONUS_TARGETS[k].0), 2), KeyIndex(BONUS_TARGETS[k].1), 1)
  {
    TableSizes();
    var a, b := " for intimidation/interrogation", " and investigation";
    NoCommaIn7_a();
    NoCommaIn7_b();
    NoCommaAppend(a, b);
    var r1 := a + b;
    CharismaClauseTexts();
    IntellectClauseTexts();
    BonusTexts();
    FindArchetypeChosen(7);
    BonusOfFound(stats, ARCHETYPES[7], Charisma, "+2 to Charisma", r1, Intellect, ", +1 to Intellect.");
  }

  /** "+2 to Defense …, +1 to Charisma.". */
  lemma ArchetypeBonus8(stats: seq<CharacterStat>, k: nat)
    requires OnKeys(stats) && k == 8
    ensures ApplyClauses(stats, BonusClauses(ARCHETYPES[k]))
      == AddTo(AddTo(stats, KeyIndex(BONUS_TARGETS[k].0), 2), KeyIndex(BONUS_TARGETS[k].1), 1)
  {
    TableSizes();
    var a, b, c, d := " for resilience and healing", " abilities (can use an action", " to heal self", " or ally for 1d3 HP)";
    NoCommaIn8_a();
    NoCommaIn8_b();
    NoCommaIn8_c();
    NoCommaIn8_d();
    NoCommaAppend(a, b);
    NoCommaAppend(a + b, c);
    NoCommaAppend(a + b + c, d);
    var r1 := a + b + c + d;
    DefenseClauseTexts();
    CharismaClauseTexts();
    BonusTexts();
    FindArchetypeChosen(8);
    BonusOfFound(stats, ARCHETYPES[8], Defense, "+2 to Defense", r1, Charisma, ", +1 to Charisma.");
  }

  /** "+2 to Agility …, +1 to Intellect.". */
  lemma ArchetypeBonus9(stats: seq<CharacterStat>, k: nat)
    requires OnKeys(stats) && k == 9
    ensures ApplyClauses(stats, BonusClauses(ARCHETYPES[k]))
      == AddTo(AddTo(stats, KeyIndex(BONUS_TARGETS[k].0), 2), KeyIndex(BONUS_TARGETS[k].1), 1)
  {
    TableSizes();
    var r1 := " when controlling any vehicle";
    NoCommaIn9_a();
    AgilityClauseTexts();
    IntellectClauseTexts();
    BonusTexts();
    FindArchetypeChosen(9);
    BonusOfFound(stats, ARCHETYPES[9], Agility, "+2 to Agility", r1, Intellect, ", +1 to Intellect.");
  }

  /** The two stats of each archetype's bonus differ. */
  lemma BonusTargetsDistinct(k: nat)
    requires k < |BONUS_TARGETS|
    ensures BONUS_TARGETS[k].0 != BONUS_TARGETS[k].1
  {
  }

  /** Every archetype's bonus text raises two different stats, the first by 2 and the second
      by 1, as BONUS_TARGETS lists them. */
  lemma ArchetypeBonus(stats: seq<CharacterStat>, k: nat)
    requires OnKeys(stats) && k < |ARCHETYPES|
    ensures BONUS_TARGETS[k].0 != BONUS_TARGETS[k].1
    ensures ApplyClauses(stats, BonusClauses(ARCHETYPES[k]))
      == AddTo(AddTo(stats, KeyIndex(BONUS_TARGETS[k].0), 2), KeyIndex(BONUS_TARGETS[k].1), 1)
  {
    TableSizes();
    BonusTargetsDistinct(k);
    if k == 0 { ArchetypeBonus0(stats, k); }
    else if k == 1 { ArchetypeBonus1(stats, k); }
    else if k == 2 { ArchetypeBonus2(stats, k); }
    else if k == 3 { ArchetypeBonus3(stats, k); }
    else if k == 4 { ArchetypeBonus4(stats, k); }
    else if k == 5 { ArchetypeBonus5(stats, k); }
    else if k == 6 { ArchetypeBonus6(stats, k); }
    else if k == 7 { ArchetypeBonus7(stats, k); }
    else if k == 8 { ArchetypeBonus8(stats, k); }
    else { ArchetypeBonus9(stats, k); }
  }

  // ---------------------------------------------------------------------------
  // Proof helpers: how the table's literal strings are spelled, used by the
  // per-archetype bonus lemmas above

  lemma AppendAssoc(a: string, b: string, c: string)
    ensures a + (b + c) == a + b + c
  {
  }

  /** Two strings without a comma join into one without a comma. */
  lemma NoCommaAppend(a: string, b: string)
    requires ',' !in a && ',' !in b
    ensures ',' !in a + b
  {
  }

  /** How the archetype table spells a "+2" and a "+1" clause head for Strength. */
  lemma StrengthClauseTexts()
    ensures "+2 to Strength" == "+2" + " to " + BonusName(Strength)
    ensures ", +1 to Strength." == ", " + ("+1" + " to " + BonusName(Strength) + ".")
  {
  }

  /** How the archetype table spells a "+2" and a "+1" clause head for Agility. */
  lemma AgilityClauseTexts()
    ensures "+2 to Agility" == "+2" + " to " + BonusName(Agility)
    ensures ", +1 to Agility." == ", " + ("+1" + " to " + BonusName(Agility) + ".")
  {
  }

  /** How the archetype table spells a "+2" and a "+1" clause head for Intellect. */
  lemma IntellectClauseTexts()
    ensures "+2 to Intellect" == "+2" + " to " + BonusName(Intellect)
    ensures ", +1 to Intellect." == ", " + ("+1" + " to " + BonusName(Intellect) + ".")
  {
  }

  /** How the archetype table spells a "+2" and a "+1" clause head for Charisma. */
  lemma CharismaClauseTexts()
    ensures "+2 to Charisma" == "+2" + " to " + BonusName(Charisma)
    ensures ", +1 to Charisma." == ", " + ("+1" + " to " + BonusName(Charisma) + ".")
  {
  }

  /** How the archetype table spells a "+2" and a "+1" clause head for Combat. */
  lemma CombatClauseTexts()
    ensures "+2 to Combat" == "+2" + " to " + BonusName(Combat)
    ensures ", +1 to Combat." == ", " + ("+1" + " to " + BonusName(Combat) + ".")
  {
  }

  /** How the archetype table spells a "+2" and a "+1" clause head for Defense. */
  lemma DefenseClauseTexts()
    ensures "+2 to Defense" == "+2" + " to " + BonusName(Defense)
    ensures ", +1 to Defense." == ", " + ("+1" + " to " + BonusName(Defense) + ".")
  {
  }

  lemma NoCommaIn0_a()
    ensures ',' !in " in hand-to-hand situations"
  {
  }

  lemma NoCommaIn1_a()
    ensures ',' !in " when using explosives"
  {
  }

  lemma NoCommaIn2_a()
    ensures ',' !in " for gadget use/creation"
  {
  }

  lemma NoCommaIn3_a()
    ensures ',' !in " for stealth and ranged combat"
  {
  }

  lemma NoCommaIn4_a()
    ensures ',' !in " for speed and stealth"
  {
  }

  lemma NoCommaIn5_a()
    ensures ',' !in " for hacking and tech skills"
  {
  }

  lemma NoCommaIn6_a()
    ensures ',' !in " for powerful attacks"
  {
  }

  lemma NoCommaIn6_b()
    ensures ',' !in " and breaching"
  {
  }

  lemma NoCommaIn7_a()
    ensures ',' !in " for intimidation/interrogation"
  {
  }

  lemma NoCommaIn7_b()
    ensures ',' !in " and investigation"
  {
  }

  lemma NoCommaIn8_a()
    ensures ',' !in " for resilience and healing"
  {
  }

  lemma NoCommaIn8_b()
    ensures ',' !in " abilities (can use an action"
  {
  }

  lemma NoCommaIn8_c()
    ensures ',' !in " to heal self"
  {
  }

  lemma NoCommaIn8_d()
    ensures ',' !in " or ally for 1d3 HP)"
  {
  }

  lemma NoCommaIn9_a()
    ensures ',' !in " when controlling any vehicle"
  {
  }
}
