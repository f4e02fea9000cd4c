/**
 * The game's constant data: the archetype table, the stat keys and point-budget
 * constants, the flavour tables the generator draws from, the random helpers
 * and the initial records.
 */
module Constants {
  import opened Optional
  import opened Types

  /** The ten archetypes. Each bonus text is written as a concatenation of pieces that
      spell exactly the source's string; the pieces are where the proofs about the bonus
      clauses cut it. */
  const ARCHETYPES: seq<Archetype> := [
    Archetype(
      "Martial Arts Master",
      "Expert in hand-to-hand combat, improbable acrobatics, and the art of looking cool while breaking limbs.",
      "+2 to Combat" + " in hand-to-hand situations" + ", +1 to Agility.",
      "Nunchaku, a sharp suit, inexplicable knowledge of pressure points."),
    Archetype(
      "Explosives Expert",
      "If it can go \"BOOM!\", they know how to make it, use it, or disarm it (usually by making it go boom).",
      "+2 to Combat" + " when using explosives" + ", +1 to Strength.",
      "A bag of assorted explosives, questionable wiring, a \"lucky\" detonator."),
    Archetype(
      "Gadget Guru",
      "Master of inventive tools, makeshift weapons, and technology that shouldn't exist but is incredibly convenient.",
      "+2 to Intellect" + " for gadget use/creation" + ", +1 to Charisma.",
      "A multi-tool with 101 improbable functions, duct tape, a laptop that can hack anything."),
    Archetype(
      "Mysterious Lone Wolf",
      "Skilled in ranged combat, stealth, and brooding. They have a troubled past and an aversion to teamwork (that they always overcome).",
      "+2 to Agility" + " for stealth and ranged combat" + ", +1 to Defense.",
      "A custom firearm, a trench coat, a single grainy photo."),
    Archetype(
      "Cyber Ninja",
      "A fusion of ancient martial arts and cutting-edge cybernetics. Silent, deadly, and probably has cool glowing bits.",
      "+2 to Agility" + " for speed and stealth" + ", +1 to Intellect.",
      "Cybernetic enhancements (e.g., optical camo, enhanced reflexes), throwing stars, a grappling hook."),
    Archetype(
      "Tech Savant",
      "A genius hacker, engineer, or scientist who can bend technology to their will, often with sarcastic commentary.",
      "+2 to Intellect" + " for hacking and tech skills" + ", +1 to Defense.",
      "High-tech goggles, a custom hacking rig, a multi-tool that talks."),
    Archetype(
      "Demolitionist",
      "Not just explosives, but *structural* demolition. They bring down the house, literally.",
      "+2 to Strength" + (" for powerful attacks" + " and breaching") + ", +1 to Combat.",
      "C4 charges, a detonator, a reinforced vest, blueprints of unlikely buildings."),
    Archetype(
      "Rogue Detective",
      "An ex-cop or private eye who plays by their own rules, usually involving property damage and a high body count.",
      "+2 to Charisma" + (" for intimidation/interrogation" + " and investigation") + ", +1 to Intellect.",
      "A trusty revolver, a trench coat, a notebook full of shady contacts, a flask."),
    Archetype(
      "Combat Medic",
      "Someone has to patch up these maniacs. They're surprisingly good at fighting too, often with improvised medical equipment.",
      "+2 to Defense" + (" for resilience and healing" + " abilities (can use an action" + " to heal self" + " or ally for 1d3 HP)") + ", +1 to Charisma.",
      "A medkit full of military-grade supplies, a sidearm, body armor."),
    Archetype(
      "The Wheelman/Wheelwoman",
      "If it has wheels (or wings, or propellers), they can drive it like they stole it – and they probably did. Master of vehicular combat and impossible stunts.",
      "+2 to Agility" + " when controlling any vehicle" + ", +1 to Intellect.",
      "Set of lockpicks/hotwiring kit, driving gloves, an encyclopedic knowledge of local shortcuts.")
  ]

  const CHARACTER_DESCRIPTIONS: seq<string> := [
    "This hero once won a staring contest… with their own reflection... in a mirror made of diamond.",
    "They can roundhouse kick faster than a speeding bullet... and the bullet apologizes.",
    "Their shadow has its own stunt double... and it's a union member.",
    "They once defeated an entire army… with a single, perfectly timed eyebrow raise and a cutting remark about their uniforms.",
    "Every time they blink, someone somewhere feels an inexplicable chill... and a sudden urge to make a donation to their favorite charity.",
    "They can disarm a bomb with a stern look and a witty one-liner... the bomb then disarms itself out of respect.",
    "Their high-fives have been classified as a form of renewable energy... and a potential WMD.",
    "They once escaped from a locked room just by telling the door to open... politely, but with an undeniable undertone of 'or else'.",
    "Their reputation is so fierce, even their enemies send them thank-you notes... for the honor of being defeated.",
    "They can defuse any situation with a pun and a perfectly timed wink... results may vary, but are always explosive."
  ]

  const TRINKETS: seq<string> := [
    "A pocket-sized rubber duck: It squeaks portentously when squeezed before something bad (or good) happens.",
    "A lucky rabbit’s foot: Supposedly brings good fortune. Probably didn't for the rabbit.",
    "A pair of sunglasses: That make everything look like a 90s action scene, complete with lens flares (even indoors). You refuse to take them off.",
    "A Swiss Army knife: With a surprising number of impractical tools (e.g., a tiny grappling hook, a miniature flamethrower, a button that plays a generic guitar riff).",
    "A mysterious locket: Containing a picture of a long-lost love... or a very young Steven Seagal.",
    "A worn-out VHS tape: Labeled \"Top Secret Training Footage - Do Not Watch!\" or \"World's Best Macaroni Recipe.\"",
    "A comb that doubles as a lockpick: For looking sharp while breaking and entering.",
    "A deck of cards with hidden messages on the back: You haven't deciphered them all yet.",
    "An old pager that still mysteriously receives cryptic messages: Usually just \"Buy more milk\" or \"Danger noodles ahead.\"",
    "A “Totally Not Bugged” pen that records audio: It occasionally plays back embarrassing things you've said at the worst possible moments."
  ]

  const CATCHPHRASES: seq<string> := [
    "I’m just getting warmed up!",
    "You call that a punch? *This* is a punch!",
    "Looks like you’re out of luck... and teeth.",
    "You mess with the best, you explode like the rest.",
    "Time to kick some butt and chew bubblegum… and I’m all out of gum... and I don't like bubblegum anyway.",
    "You just activated my trap card! (Metaphorically speaking... usually.)",
    "Justice never takes a day off... but it does take extended lunch breaks.",
    "Boom! That’s how it’s done. Any questions? Didn't think so.",
    "I’m too old for this… Nah, just kidding, let's do this!",
    "Yippee-ki-yay, [insert plural noun for bad guys here]!"
  ]

  const BACKGROUND_STORIES: seq<string> := [
    "Former Special Ops: Once a top agent/soldier, now living \"off the grid\" after a mission went predictably wrong.",
    "Streetwise Orphan: Grew up on the tough streets, learning to fight, survive, and deliver sassy comebacks.",
    "Ex-Cop Turned Vigilante: Left the force to clean up the city their own way, usually with more explosions.",
    "Disgraced Scientist/Inventor: On the run after a lab accident/invention was misused.",
    "Revenge-Seeker: Their family/mentor/pet goldfish was wronged; now out for vengeance.",
    "Secret Agent in Hiding (Badly): Drawn back into action when their past inevitably catches up.",
    "Mystical Wanderer/Chosen One: Trained by a secret martial arts order/ancient prophecy.",
    "Celebrity Action Star (Playing Themselves): Stumbled into real-life heroics.",
    "Exiled Royalty/Heir: Fighting to reclaim their throne/honor/favorite shoes.",
    "Rogue AI Creator/Partner: Trying to stop/protect their revolutionary AI."
  ]

  const MOTIVATIONS: seq<string> := [
    "Revenge: For a personal loss, betrayal, or stolen parking spot.",
    "Redemption: To atone for a past mistake or bad haircut.",
    "Protect the Innocent: Especially if they're attractive.",
    "Uncover the Truth: About a conspiracy or who ate the last donut.",
    "Save the World (Again): Often from their own accidental making.",
    "Prove Themselves/Be the Best: Or win a shiny trophy.",
    "Find a Lost Loved One/Artifact: Or the ultimate remote control.",
    "Hunt for Treasure/Power: Or the secret to looking good in leather pants.",
    "Fame and Glory: Or just get their face on a mural.",
    "Justice (Their Version Of It): Against villains or bad drivers."
  ]

  const DEFINING_TRAITS: seq<RollTableItem> := [
    RollTableItem(
      "Unflappable Calm",
      "Gain +1 to rolls when trying to resist intimidation or fear. You've seen weirder."),
    RollTableItem(
      "Reckless Daredevil",
      "Once per session, you can attempt an incredibly dangerous stunt. If you succeed, gain an extra Stunt Point. If you fail, the B-Movie Consequence is twice as chaotic."),
    RollTableItem(
      "Genius Inventor / Improv Master",
      "Once per session, you can cobble together a surprisingly useful (if temporary) item from nearby junk."),
    RollTableItem(
      "Surprisingly Philosophical",
      "Once per session, you can drop a surprisingly deep (or nonsensical) philosophical quote that confuses an opponent, giving them -1 on their next roll."),
    RollTableItem(
      "Heart of Gold (Hidden)",
      "Despite your tough exterior, you have a soft spot. Gain +1 to rolls when directly protecting an innocent."),
    RollTableItem(
      "Always Has A Plan (that usually goes wrong)",
      "Once per session, you can reveal you \"planned for this exact scenario!\" Describe your convoluted plan. The DM determines if it grants a minor advantage or just complicates things further.")
  ]

  /** The stats in the order the generator and the sheet list them. */
  const STAT_KEYS: seq<Stat> := [Strength, Agility, Intellect, Charisma, Combat, Defense]
  const BASE_HP: int := 10
  const STAT_POINTS_TOTAL: int := 10
  const MAX_STAT_INITIAL: int := 4
  const MIN_STAT_INITIAL: int := 0

  /** `Math.floor(r * n)`, where `r` is the value drawn by `Math.random()`. */
  function RandomIndex(n: nat, r: real): int
  {
    (r * n as real).Floor
  }

  /** `getRandomElement(arr)` with the draw `r` made explicit; `None` is the
      `undefined` that indexing outside the array gives. */
  function RandomElement<T>(arr: seq<T>, r: real): (e: Option<T>)
    ensures e.Some? ==> e.value in arr
  {
    var i := RandomIndex(|arr|, r);
    if 0 <= i < |arr| then Some(arr[i]) else None
  }

  /** `rollD10()` with the draw `r` made explicit. */
  function RollD10(r: real): (d: int)
    ensures (d - 1) as real <= r * 10.0 < d as real
  {
    RandomIndex(10, r) + 1
  }

  /** The first archetype whose name is `name` (`ARCHETYPES.find(a => a.name === name)`). */
  function FindArchetype(name: string): (r: Option<Archetype>)
    ensures r.Some? ==> r.value in ARCHETYPES && r.value.name == name
    ensures r.None? ==> forall i :: 0 <= i < |ARCHETYPES| ==> ARCHETYPES[i].name != name
  {
    FindByName(ARCHETYPES, name)
  }

  function FindByName(table: seq<Archetype>, name: string): (r: Option<Archetype>)
    ensures r.Some? ==> r.value in table && r.value.name == name
    ensures r.None? ==> forall a :: a in table ==> a.name != name
  {
    if |table| == 0 then None
    else if table[0].name == name then Some(table[0])
    else FindByName(table[1..], name)
  }

  /** `INITIAL_STATS`: one zero entry per stat, in `STAT_KEYS` order. */
  const INITIAL_STATS: seq<CharacterStat> :=
    seq(|STAT_KEYS|, i requires 0 <= i < |STAT_KEYS| => CharacterStat(STAT_KEYS[i], 0))

  /** The `reduce` that builds the sheet's stats object: each key in turn set to 0. */
  function ZeroStats(keys: seq<Stat>, acc: map<string, int>): map<string, int>
  {
    if |keys| == 0 then acc else ZeroStats(keys[1..], acc[Display(keys[0]) := 0])
  }

  const INITIAL_FILLABLE_SHEET_DATA: FillableSheetData := FillableSheetData(
    name := "",
    archetypeName := if |ARCHETYPES| > 0 && ARCHETYPES[0].name != "" then ARCHETYPES[0].name else "",
    description := "",
    stats := ZeroStats(STAT_KEYS, map[]),
    hp := BASE_HP,
    maxHp := BASE_HP,
    gear := "",
    trinket := "",
    catchphrase := "",
    definingTraitName := "",
    definingTraitDescription := "",
    background := "",
    motivation := "",
    stuntPoints := 0,
    actionHeroFeats := "",
    signatureMoves := "")

  /** `STAT_KEYS` lists every stat exactly once. */
  lemma StatKeysEnumerateStats()
    ensures |STAT_KEYS| == 6
    ensures forall s: Stat :: s in STAT_KEYS
    ensures forall i, j :: 0 <= i < j < |STAT_KEYS| ==> STAT_KEYS[i] != STAT_KEYS[j]
  {
    forall s: Stat
      ensures s in STAT_KEYS
    {
      match s
      case Strength => assert STAT_KEYS[0] == s;
      case Agility => assert STAT_KEYS[1] == s;
      case Intellect => assert STAT_KEYS[2] == s;
      case Charisma => assert STAT_KEYS[3] == s;
      case Combat => assert STAT_KEYS[4] == s;
      case Defense => assert STAT_KEYS[5] == s;
    }
  }

  /** The point budget fits into the room the per-stat cap leaves: 10 <= 6 * (4 - 0). */
  lemma BudgetFitsCap()
    ensures 0 <= MIN_STAT_INITIAL < MAX_STAT_INITIAL
    ensures STAT_POINTS_TOTAL <= |STAT_KEYS| * (MAX_STAT_INITIAL - MIN_STAT_INITIAL)
  {
  }

  /** No two archetypes share a name. */
  lemma ArchetypeNamesDistinct()
    ensures |ARCHETYPES| == 10
    ensures forall i, j :: 0 <= i < j < |ARCHETYPES| ==> ARCHETYPES[i].name != ARCHETYPES[j].name
  {
  }

  /** Looking an entry up by its own name finds that entry when no earlier entry shares the name. */
  lemma {:induction false} FindByNameFirst(table: seq<Archetype>, i: nat)
    requires i < |table|
    requires forall j :: 0 <= j < i ==> table[j].name != table[i].name
    ensures FindByName(table, table[i].name) == Some(table[i])
  {
    if i > 0 {
      assert table[1..][i - 1] == table[i];
      FindByNameFirst(table[1..], i - 1);
    }
  }

  /** Finding an archetype by the name of the one chosen returns the one chosen. */
  lemma FindArchetypeChosen(i: nat)
    requires i < |ARCHETYPES|
    ensures FindArchetype(ARCHETYPES[i].name) == Some(ARCHETYPES[i])
  {
    ArchetypeNamesDistinct();
    FindByNameFirst(ARCHETYPES, i);
  }

  /** Every table the generator draws from is non-empty; these are their sizes. */
  lemma TableSizes()
    ensures |ARCHETYPES| == 10 && |CHARACTER_DESCRIPTIONS| == 10 && |TRINKETS| == 10
    ensures |CATCHPHRASES| == 10 && |DEFINING_TRAITS| == 6
    ensures |BACKGROUND_STORIES| == 10 && |MOTIVATIONS| == 10
  {
  }

  /** The index is the whole part of `r * n`. */
  lemma RandomIndexFloor(n: nat, r: real)
    ensures RandomIndex(n, r) as real <= r * n as real < RandomIndex(n, r) as real + 1.0
  {
  }

  /** For a draw in [0, 1) the index `floor(r * n)` lies in [0, n). */
  lemma RandomIndexInRange(n: nat, r: real)
    requires n > 0 && 0.0 <= r < 1.0
    ensures 0 <= RandomIndex(n, r) < n
  {
    var m := n as real;
    NonNegativeProduct(r, m);
    assert m - r * m == (1.0 - r) * m;
    PositiveProduct(1.0 - r, m);
  }

  /** On a non-empty array and a draw in [0, 1), `getRandomElement` returns one of its elements. */
  lemma RandomElementIn<T>(arr: seq<T>, r: real)
    requires |arr| > 0 && 0.0 <= r < 1.0
    ensures RandomElement(arr, r).Some? && RandomElement(arr, r).value in arr
  {
    RandomIndexInRange(|arr|, r);
  }

  /** Every element is drawn by some value in [0, 1): element `i` by `i / n`. */
  lemma RandomElementReaches<T>(arr: seq<T>, i: nat)
    requires i < |arr|
    ensures var r := i as real / |arr| as real;
      0.0 <= r < 1.0 && RandomElement(arr, r) == Some(arr[i])
  {
    var n := |arr| as real;
    var r := i as real / n;
    QuotientInUnit(i as real, n);
    assert r * n == i as real;
    assert RandomIndex(|arr|, r) == (i as real).Floor == i;
  }

  /** `rollD10` gives an integer from 1 to 10. */
  lemma RollD10Range(r: real)
    requires 0.0 <= r < 1.0
    ensures 1 <= RollD10(r) <= 10
  {
    RandomIndexInRange(10, r);
  }

  /** `INITIAL_STATS` holds one entry per stat, in `STAT_KEYS` order, each at 0. */
  lemma InitialStatsZero()
    ensures |INITIAL_STATS| == |STAT_KEYS|
    ensures forall i :: 0 <= i < |INITIAL_STATS| ==> INITIAL_STATS[i] == CharacterStat(STAT_KEYS[i], 0)
  {
  }

  /** The stats `reduce` keeps the accumulator's keys that are not listed. */
  lemma {:induction false} ZeroStatsKeeps(keys: seq<Stat>, acc: map<string, int>)
    ensures var m := ZeroStats(keys, acc);
      forall k :: k in acc && (forall s :: s in keys ==> k != Display(s)) ==> k in m && m[k] == acc[k]
  {
    if |keys| > 0 {
      var next := acc[Display(keys[0]) := 0];
      ZeroStatsKeeps(keys[1..], next);
      forall k | k in acc && (forall s :: s in keys ==> k != Display(s))
        ensures k in next && next[k] == acc[k] && forall s :: s in keys[1..] ==> k != Display(s)
      {
        assert keys[0] in keys;
        assert forall s :: s in keys[1..] ==> s in keys;
      }
    }
  }

  /** The stats `reduce` sets every listed key to 0. */
  lemma {:induction false} ZeroStatsSets(keys: seq<Stat>, acc: map<string, int>)
    ensures var m := ZeroStats(keys, acc);
      forall s :: s in keys ==> Display(s) in m && m[Display(s)] == 0
  {
    if |keys| > 0 {
      var rest, next := keys[1..], acc[Display(keys[0]) := 0];
      ZeroStatsSets(rest, next);
      ZeroStatsKeeps(rest, next);
      SplitMembership(keys);
    }
  }

  /** The stats `reduce` adds no key beyond the listed ones. */
  lemma {:induction false} ZeroStatsOnly(keys: seq<Stat>, acc: map<string, int>)
    ensures var m := ZeroStats(keys, acc);
      forall k :: k in m ==> k in acc || exists s :: s in keys && k == Display(s)
  {
    if |keys| > 0 {
      var next := acc[Display(keys[0]) := 0];
      ZeroStatsOnly(keys[1..], next);
      forall k | k in ZeroStats(keys, acc) && k !in acc
        ensures exists s :: s in keys && k == Display(s)
      {
        if k == Display(keys[0]) {
          assert keys[0] in keys;
        } else {
          assert k !in next && k in ZeroStats(keys[1..], next);
          var s :| s in keys[1..] && k == Display(s);
          assert s in keys;
        }
      }
    }
  }

  /** A member of a non-empty list is its head or a member of its tail. */
  lemma SplitMembership(keys: seq<Stat>)
    requires |keys| > 0
    ensures forall s :: s in keys ==> s == keys[0] || s in keys[1..]
  {
    forall s | s in keys && s != keys[0]
      ensures s in keys[1..]
    {
      var i :| 0 <= i < |keys| && keys[i] == s;
      assert keys[1..][i - 1] == s;
    }
  }

  /** The initial sheet's stats: all six at 0 and nothing else. */
  lemma InitialSheetStats()
    ensures var m := INITIAL_FILLABLE_SHEET_DATA.stats;
      && (forall s: Stat :: Display(s) in m && m[Display(s)] == 0)
      && (forall k :: k in m ==> exists s: Stat :: k == Display(s))
  {
    StatKeysEnumerateStats();
    ZeroStatsSets(STAT_KEYS, map[]);
    ZeroStatsOnly(STAT_KEYS, map[]);
  }

  /** The initial sheet: all six stats at 0 and nothing else in `stats`, `hp == maxHp == BASE_HP == 10`,
      no stunt points, the first archetype's name selected. */
  lemma InitialSheetFacts()
    ensures var d := INITIAL_FILLABLE_SHEET_DATA;
      && (forall s: Stat :: Display(s) in d.stats && d.stats[Display(s)] == 0)
      && (forall k :: k in d.stats ==> exists s: Stat :: k == Display(s))
      && d.hp == d.maxHp == BASE_HP == 10
      && d.stuntPoints == 0
      && d.archetypeName == ARCHETYPES[0].name
  {
    InitialSheetStats();
  }

  // ---------------------------------------------------------------------------
  // Proof helpers: facts about real products and quotients used by the lemmas above

  lemma NonNegativeProduct(a: real, b: real)
    requires 0.0 <= a && 0.0 <= b
    ensures 0.0 <= a * b
  {
  }

  lemma PositiveProduct(a: real, b: real)
    requires 0.0 < a && 0.0 < b
    ensures 0.0 < a * b
  {
  }

  lemma QuotientInUnit(a: real, b: real)
    requires 0.0 <= a < b
    ensures 0.0 <= a / b < 1.0
  {
  }
}
