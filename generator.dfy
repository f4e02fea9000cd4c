/**
 * The random character generator as a whole: seven picks from the tables, the
 * archetype bonus, the allocation loop, hit points and the assembled record;
 * and the pure builders of the numbered roll tables and the explosion meter.
 */
module Generator {
  import opened Optional
  import opened Text
  import opened Types
  import opened Constants
  import opened Bonuses
  import opened Allocation

  /** The seven values `Math.random()` returns for the table picks, in the order drawn. */
  datatype Picks = Picks(
    archetype: real,
    description: real,
    trinket: real,
    catchphrase: real,
    definingTrait: real,
    background: real,
    motivation: real)

  predicate ValidPicks(p: Picks)
  {
    && 0.0 <= p.archetype < 1.0 && 0.0 <= p.description < 1.0 && 0.0 <= p.trinket < 1.0
    && 0.0 <= p.catchphrase < 1.0 && 0.0 <= p.definingTrait < 1.0
    && 0.0 <= p.background < 1.0 && 0.0 <= p.motivation < 1.0
  }

  /** `stats.find(s => s.stat === Stat.Defense)?.value || 0`: the first Defense entry's value, or 0. */
  function DefenseValue(stats: seq<CharacterStat>): (v: int)
    ensures (forall k :: 0 <= k < |stats| ==> stats[k].stat != Defense) ==> v == 0
    ensures OnKeys(stats) ==> v == stats[KeyIndex(Defense)].value
    ensures forall k :: 0 <= k < |stats| ==>
      (stats[k].stat == Defense && (forall j :: 0 <= j < k ==> stats[j].stat != Defense) ==> v == stats[k].value)
  {
    var found := FindFrom(stats, s => s == Defense, 0);
    if OnKeys(stats) then
      FindFromFirst(stats, s => s == Defense, 0, KeyIndex(Defense));
      DefenseEntry(stats, found)
    else
      DefenseEntry(stats, found)
  }

  function DefenseEntry(stats: seq<CharacterStat>, found: Option<nat>): int
    requires found.Some? ==> found.value < |stats|
  {
    match found
    case None => 0
    case Some(k) => stats[k].value
  }

  /** `generateCharacter`'s body: the picks, the stat entries built from `STAT_KEYS`, the
      bonus and allocation phases on them, hit points from the final Defense value, and
      the record. */
  method GenerateCharacter(picks: Picks, draws: seq<real>) returns (c: GeneratedCharacter)
    requires ValidPicks(picks) && Draws(draws)
    ensures Some(c.archetype) == RandomElement(ARCHETYPES, picks.archetype)
    ensures Some(c.description) == RandomElement(CHARACTER_DESCRIPTIONS, picks.description)
    ensures Some(c.trinket) == RandomElement(TRINKETS, picks.trinket)
    ensures Some(c.catchphrase) == RandomElement(CATCHPHRASES, picks.catchphrase)
    ensures Some(c.definingTrait) == RandomElement(DEFINING_TRAITS, picks.definingTrait)
    ensures Some(c.background) == RandomElement(BACKGROUND_STORIES, picks.background)
    ensures Some(c.motivation) == RandomElement(MOTIVATIONS, picks.motivation)
    ensures c.gear == c.archetype.gearIdea
    ensures c.stats == Allocate(ApplyClauses(INITIAL_STATS, BonusClauses(c.archetype)), STAT_POINTS_TOTAL, draws).stats
    ensures c.hp == BASE_HP + DefenseValue(c.stats)
  {
    TableSizes();
    RandomElementIn(ARCHETYPES, picks.archetype);
    RandomElementIn(CHARACTER_DESCRIPTIONS, picks.description);
    RandomElementIn(TRINKETS, picks.trinket);
    RandomElementIn(CATCHPHRASES, picks.catchphrase);
    RandomElementIn(DEFINING_TRAITS, picks.definingTrait);
    RandomElementIn(BACKGROUND_STORIES, picks.background);
    RandomElementIn(MOTIVATIONS, picks.motivation);
    var archetype := RandomElement(ARCHETYPES, picks.archetype).value;
    var description := RandomElement(CHARACTER_DESCRIPTIONS, picks.description).value;
    var trinket := RandomElement(TRINKETS, picks.trinket).value;
    var catchphrase := RandomElement(CATCHPHRASES, picks.catchphrase).value;
    var definingTrait := RandomElement(DEFINING_TRAITS, picks.definingTrait).value;
    var background := RandomElement(BACKGROUND_STORIES, picks.background).value;
    var motivation := RandomElement(MOTIVATIONS, picks.motivation).value;

    var stats := new CharacterStat[|STAT_KEYS|](i requires 0 <= i < |STAT_KEYS| => CharacterStat(STAT_KEYS[i], MIN_STAT_INITIAL));
    assert stats[..] == INITIAL_STATS;
    ApplyBonuses(stats, BonusClauses(archetype));
    var points, used, exit := AllocatePoints(stats, draws);
    var hp := BASE_HP + DefenseValue(stats[..]);
    c := GeneratedCharacter(archetype, description, stats[..], hp, archetype.gearIdea,
      trinket, catchphrase, definingTrait, background, motivation);
  }

  // ---------------------------------------------------------------------------
  // What the generated stats look like

  lemma {:induction false} TotalOfZeros(stats: seq<CharacterStat>)
    requires forall k :: 0 <= k < |stats| ==> stats[k].value == 0
    ensures Total(stats) == 0
  {
    if |stats| > 0 {
      TotalOfZeros(stats[1..]);
    }
  }

  /** With every value between 0 and the cap, the room left is the cap times the number of
      entries, less their total. */
  lemma {:induction false} RoomOfCappedValues(stats: seq<CharacterStat>)
    requires forall k :: 0 <= k < |stats| ==> 0 <= stats[k].value <= MAX_STAT_INITIAL
    ensures Room(stats) == |stats| * MAX_STAT_INITIAL - Total(stats)
  {
    if |stats| > 0 {
      RoomOfCappedValues(stats[1..]);
    }
  }

  /** A +2 and a +1 on two different entries of zeroed stats: the values total 3, each lies
      between 0 and 2, and 21 points of room remain under the cap. */
  lemma TwoBonusesOnZeros(zero: seq<CharacterStat>, p: Stat, q: Stat)
    requires OnKeys(zero) && forall j :: 0 <= j < |zero| ==> zero[j].value == 0
    requires p != q
    ensures var b := AddTo(AddTo(zero, KeyIndex(p), 2), KeyIndex(q), 1);
      && OnKeys(b) && Total(b) == 3 && Room(b) == 21
      && forall j :: 0 <= j < |b| ==> 0 <= b[j].value <= 2
  {
    var b := AddTo(AddTo(zero, KeyIndex(p), 2), KeyIndex(q), 1);
    TwoBonusesValues(zero, p, q);
    TwoBonusesTotal(zero, p, q);
    RoomOfCappedValues(b);
  }

  lemma TwoBonusesValues(zero: seq<CharacterStat>, p: Stat, q: Stat)
    requires OnKeys(zero) && forall j :: 0 <= j < |zero| ==> zero[j].value == 0
    requires p != q
    ensures var b := AddTo(AddTo(zero, KeyIndex(p), 2), KeyIndex(q), 1);
      && OnKeys(b) && forall j :: 0 <= j < |b| ==> 0 <= b[j].value <= 2
  {
    assert KeyIndex(p) != KeyIndex(q);
  }

  lemma TwoBonusesTotal(zero: seq<CharacterStat>, p: Stat, q: Stat)
    requires forall j :: 0 <= j < |zero| ==> zero[j].value == 0
    requires KeyIndex(p) < |zero| && KeyIndex(q) < |zero| && p != q
    ensures Total(AddTo(AddTo(zero, KeyIndex(p), 2), KeyIndex(q), 1)) == 3
  {
    var i, j := KeyIndex(p), KeyIndex(q);
    var mid := AddTo(zero, i, 2);
    assert i != j;
    TotalOfZeros(zero);
    TotalUpdate(zero, i, 2);
    assert mid[j].value == 0;
    TotalUpdate(mid, j, 1);
  }

  /** After the archetype bonus the six entries total 3, each lies between 0 and 2, and the
      room left under the cap is 21. */
  lemma BonusedStats(k: nat)
    requires k < |ARCHETYPES|
    ensures var b := ApplyClauses(INITIAL_STATS, BonusClauses(ARCHETYPES[k]));
      && OnKeys(b) && Total(b) == 3 && Room(b) == 21
      && forall j :: 0 <= j < |b| ==> 0 <= b[j].value <= 2
  {
    InitialStatsZero();
    assert OnKeys(INITIAL_STATS);
    ArchetypeBonus(INITIAL_STATS, k);
    TwoBonusesOnZeros(INITIAL_STATS, BONUS_TARGETS[k].0, BONUS_TARGETS[k].1);
  }

  /** Whatever the draws, every generated stat ends between 0 and the cap, the points left
      and the values together make 13, and unless the draws ran out the loop spent the
      whole budget: the values total exactly 13. Hit points lie between 10 and 14. */
  lemma GeneratedStats(k: nat, draws: seq<real>)
    requires k < |ARCHETYPES| && Draws(draws)
    ensures var r := Allocate(ApplyClauses(INITIAL_STATS, BonusClauses(ARCHETYPES[k])), STAT_POINTS_TOTAL, draws);
      && OnKeys(r.stats)
      && (forall j :: 0 <= j < |r.stats| ==> MIN_STAT_INITIAL <= r.stats[j].value <= MAX_STAT_INITIAL)
      && r.points + Total(r.stats) == 13
      && (r.exit != DrawsExhausted ==> r.exit == Spent && Total(r.stats) == 13)
      && BASE_HP <= BASE_HP + DefenseValue(r.stats) <= BASE_HP + MAX_STAT_INITIAL
  {
    BonusedStats(k);
    var b := ApplyClauses(INITIAL_STATS, BonusClauses(ARCHETYPES[k]));
    AllocateConserves(b, STAT_POINTS_TOTAL, draws);
    AllocateBounds(b, STAT_POINTS_TOTAL, draws);
    AllocateExit(b, STAT_POINTS_TOTAL, draws);
    AllocateLeftover(b, STAT_POINTS_TOTAL, draws);
    var r := Allocate(b, STAT_POINTS_TOTAL, draws);
    assert OnKeys(r.stats);
  }

  // ---------------------------------------------------------------------------
  // NumberedRollTable

  /** An item of a roll table: a plain string, or a named entry. */
  datatype RollEntry = Plain(text: string) | Named(item: RollTableItem)

  /** The headers: the dice type upper-cased in the first. */
  function RollHeaders(diceType: string): (h: seq<string>)
    ensures |h| == 2 && h[1] == "Result"
    ensures |h[0]| == |diceType| + 7 && h[0][..6] == "Roll (" && h[0][|h[0]| - 1] == ')'
    ensures forall i :: 0 <= i < |diceType| ==> h[0][6 + i] == UpperChar(diceType[i])
  {
    ["Roll (" + Upper(diceType) + ")", "Result"]
  }

  /** The text of a result cell: the string itself, or the bold name, a colon, a space and
      the description. */
  function CellText(e: RollEntry): string
  {
    match e
    case Plain(t) => t
    case Named(item) => item.name + ":" + " " + item.description
  }

  /** One row per item: `[(index + 1).toString(), resultCell]`. */
  function RollRows(items: seq<RollEntry>): (rows: seq<(string, string)>)
    ensures |rows| == |items|
    ensures forall i :: 0 <= i < |items| ==> rows[i].1 == CellText(items[i])
  {
    seq(|items|, i requires 0 <= i < |items| => (IntToString(i + 1), CellText(items[i])))
  }

  /** Row `i`'s label is the decimal numeral of `i + 1`: it has no leading zero and reads
      back as `i + 1`, so the labels run 1, 2, … and no two rows share one. */
  lemma RollRowLabel(items: seq<RollEntry>, i: nat)
    requires i < |items|
    ensures var numeral := RollRows(items)[i].0;
      && |numeral| > 0 && AllDigits(numeral) && (|numeral| > 1 ==> numeral[0] != '0')
      && ParseInt(numeral) == Some(i + 1)
  {
    ParseIntToString(i + 1, []);
    assert IntToString(i + 1) + [] == IntToString(i + 1);
  }

  /** Different rows carry different labels. */
  lemma RollRowLabelsDistinct(items: seq<RollEntry>, i: nat, j: nat)
    requires i < |items| && j < |items| && i != j
    ensures RollRows(items)[i].0 != RollRows(items)[j].0
  {
    RollRowLabel(items, i);
    RollRowLabel(items, j);
  }

  // ---------------------------------------------------------------------------
  // ExplosionMeter

  /** Five icons; icon `i` is lit (red) when `i < intensity`. */
  function ExplosionIcons(intensity: int): (lit: seq<bool>)
    ensures |lit| == 5
  {
    seq(5, i => i < intensity)
  }

  function CountLit(lit: seq<bool>): nat
  {
    if |lit| == 0 then 0 else (if lit[0] then 1 else 0) + CountLit(lit[1..])
  }

  /** The lit icons come first, and there are as many as the intensity, clamped to 0..5. */
  lemma ExplosionMeterLit(intensity: int)
    ensures var lit := ExplosionIcons(intensity);
      && (forall i, j :: 0 <= i < j < 5 && lit[j] ==> lit[i])
      && CountLit(lit) == if intensity < 0 then 0 else if intensity > 5 then 5 else intensity
  {
    var lit := ExplosionIcons(intensity);
    assert lit[4..][1..] == [];
    assert lit[3..][1..] == lit[4..];
    assert lit[2..][1..] == lit[3..];
    assert lit[1..][1..] == lit[2..];
    assert CountLit(lit[4..]) == (if lit[4] then 1 else 0);
    assert CountLit(lit[3..]) == (if lit[3] then 1 else 0) + CountLit(lit[4..]);
    assert CountLit(lit[2..]) == (if lit[2] then 1 else 0) + CountLit(lit[3..]);
    assert CountLit(lit[1..]) == (if lit[1] then 1 else 0) + CountLit(lit[2..]);
  }
}
