/**
 * The entities of the game site: the six stats and their display strings,
 * archetypes, stat entries, generated characters and the fillable sheet record.
 */
module Types {

  /** The six stats. The source's enum members are strings; `Display` gives them. */
  datatype Stat = Strength | Agility | Intellect | Charisma | Combat | Defense

  /** The stat's name, as the archetype bonus texts spell it. */
  function Name(s: Stat): string
  {
    match s
    case Strength => "Strength"
    case Agility => "Agility"
    case Intellect => "Intellect"
    case Charisma => "Charisma"
    case Combat => "Combat"
    case Defense => "Defense"
  }

  /** The three-letter abbreviation shown after the name. */
  function Abbreviation(s: Stat): string
  {
    match s
    case Strength => "STR"
    case Agility => "AGI"
    case Intellect => "INT"
    case Charisma => "CHA"
    case Combat => "COM"
    case Defense => "DEF"
  }

  /** The string value of each enum member, such as "Strength (STR)". */
  function Display(s: Stat): string
  {
    Name(s) + " (" + Abbreviation(s) + ")"
  }

  /** The enum's values are pairwise distinct, so a display string names one stat. */
  lemma DisplayInjective(s: Stat, t: Stat)
    ensures Display(s) == Display(t) ==> s == t
  {
    if s != t {
      // the first two characters already tell the six display strings apart
      assert Display(s)[0] != Display(t)[0] || Display(s)[1] != Display(t)[1];
    }
  }

  datatype Archetype = Archetype(name: string, description: string, bonus: string, gearIdea: string)

  datatype CharacterStat = CharacterStat(stat: Stat, value: int)

  datatype RollTableItem = RollTableItem(name: string, description: string)

  datatype GeneratedCharacter = GeneratedCharacter(
    archetype: Archetype,
    description: string,
    stats: seq<CharacterStat>,
    hp: int,
    gear: string,
    trinket: string,
    catchphrase: string,
    definingTrait: RollTableItem,
    background: string,
    motivation: string)

  /**
   * The fillable character sheet. `stats` is the JavaScript object keyed by
   * the stats' display strings; the type promises all six keys, and the
   * page keeps that promise (see `Sheet.StatsComplete`).
   */
  datatype FillableSheetData = FillableSheetData(
    name: string,
    archetypeName: string,
    description: string,
    stats: map<string, int>,
    hp: int,
    maxHp: int,
    gear: string,
    trinket: string,
    catchphrase: string,
    definingTraitName: string,
    definingTraitDescription: string,
    background: string,
    motivation: string,
    stuntPoints: int,
    actionHeroFeats: string,
    signatureMoves: string)
}
