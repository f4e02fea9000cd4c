/**
 * The fillable character sheet page: one sheet record kept as page state and
 * changed by the load effect, the archetype/HP sync effect, the text and number
 * edit handlers, save and clear. Each transition computes its new record as a
 * pure function of the old one; the page class applies them in place.
 */
module Sheet {
  import opened Optional
  import opened Text
  import opened Types
  import opened Constants

  /** The key the sheet is saved under in the browser's local storage. */
  const LOCAL_STORAGE_KEY: string := "actionHeroFillableSheet_v1"

  /** The prefix of the number inputs that edit a stat: `stat-` followed by the stat. */
  const STAT_FIELD_PREFIX: string := "stat-"

  const SAVED_MESSAGE: string := "Character Sheet Saved!"
  const CLEARED_MESSAGE: string := "Character Sheet Cleared!"

  // ---------------------------------------------------------------------------
  // Saved data

  /** The object read back from storage: each field present or absent; the saved `stats`
      object, when present, maps keys to a number or to null. */
  datatype SavedSheet = SavedSheet(
    name: Option<string>,
    archetypeName: Option<string>,
    description: Option<string>,
    stats: Option<map<string, Option<int>>>,
    hp: Option<int>,
    maxHp: Option<int>,
    gear: Option<string>,
    trinket: Option<string>,
    catchphrase: Option<string>,
    definingTraitName: Option<string>,
    definingTraitDescription: Option<string>,
    background: Option<string>,
    motivation: Option<string>,
    stuntPoints: Option<int>,
    actionHeroFeats: Option<string>,
    signatureMoves: Option<string>)

  /** A saved object with no fields at all. */
  const NOTHING_SAVED: SavedSheet := SavedSheet(None, None, None, None, None, None, None, None,
    None, None, None, None, None, None, None, None)

  /** `parsedData.stats?.[statKey] ?? 0`. */
  function SavedStat(saved: Option<map<string, Option<int>>>, key: string): (v: int)
    ensures v == 0 || (saved.Some? && key in saved.value && saved.value[key] == Some(v))
  {
    match saved
    case None => 0
    case Some(m) => if key in m && m[key].Some? then m[key].value else 0
  }

  /** The `reduce` over `keys` that completes the stats object, one key at a time. */
  function CompleteStats(keys: seq<Stat>, saved: Option<map<string, Option<int>>>, acc: map<string, int>): map<string, int>
  {
    if |keys| == 0 then acc
    else CompleteStats(keys[1..], saved, acc[Display(keys[0]) := SavedStat(saved, Display(keys[0]))])
  }

  /** The completion keeps the accumulator's keys that are not listed. */
  lemma {:induction false} CompleteStatsKeeps(keys: seq<Stat>, saved: Option<map<string, Option<int>>>, acc: map<string, int>)
    ensures var m := CompleteStats(keys, saved, acc);
      forall k :: k in acc && (forall s :: s in keys ==> k != Display(s)) ==> k in m && m[k] == acc[k]
  {
    if |keys| > 0 {
      var next := acc[Display(keys[0]) := SavedStat(saved, Display(keys[0]))];
      CompleteStatsKeeps(keys[1..], saved, next);
      forall k | k in acc && (forall s :: s in keys ==> k != Display(s))
        ensures k in next && next[k] == acc[k] && forall s :: s in keys[1..] ==> k != Display(s)
      {
        assert keys[0] in keys;
        assert forall s :: s in keys[1..] ==> s in keys;
      }
    }
  }

  /** The completion gives every listed key its saved value, or 0. */
  lemma {:induction false} CompleteStatsSets(keys: seq<Stat>, saved: Option<map<string, Option<int>>>, acc: map<string, int>)
    ensures var m := CompleteStats(keys, saved, acc);
      forall s :: s in keys ==> Display(s) in m && m[Display(s)] == SavedStat(saved, Display(s))
  {
    if |keys| > 0 {
      var rest, next := keys[1..], acc[Display(keys[0]) := SavedStat(saved, Display(keys[0]))];
      CompleteStatsSets(rest, saved, next);
      CompleteStatsKeeps(rest, saved, next);
      SplitMembership(keys);
    }
  }

  /** The completion adds no key beyond the listed ones. */
  lemma {:induction false} CompleteStatsOnly(keys: seq<Stat>, saved: Option<map<string, Option<int>>>, acc: map<string, int>)
    ensures var m := CompleteStats(keys, saved, acc);
      forall k :: k in m ==> k in acc || exists s :: s in keys && k == Display(s)
  {
    if |keys| > 0 {
      var next := acc[Display(keys[0]) := SavedStat(saved, Display(keys[0]))];
      CompleteStatsOnly(keys[1..], saved, next);
      forall k | k in CompleteStats(keys, saved, acc) && k !in acc
        ensures exists s :: s in keys && k == Display(s)
      {
        if k == Display(keys[0]) {
          assert keys[0] in keys;
        } else {
          assert k !in next && k in CompleteStats(keys[1..], saved, next);
          var s :| s in keys[1..] && k == Display(s);
          assert s in keys;
        }
      }
    }
  }

  /** The sheet holds a number for every stat. */
  predicate HasAllStats(d: FillableSheetData)
  {
    forall s: Stat :: Display(s) in d.stats
  }

  /** The sheet's stats object holds exactly the six stats. */
  predicate StatsExact(d: FillableSheetData)
  {
    HasAllStats(d) && forall k :: k in d.stats ==> exists s: Stat :: k == Display(s)
  }

  /** The completed stats of a load: all six stats, each the saved value when there is a
      number for it and 0 otherwise, and no other key. */
  lemma LoadedStats(saved: Option<map<string, Option<int>>>)
    ensures var m := CompleteStats(STAT_KEYS, saved, map[]);
      && (forall s: Stat :: Display(s) in m && m[Display(s)] == SavedStat(saved, Display(s)))
      && (forall k :: k in m ==> exists s: Stat :: k == Display(s))
  {
    StatKeysEnumerateStats();
    CompleteStatsSets(STAT_KEYS, saved, map[]);
    CompleteStatsOnly(STAT_KEYS, saved, map[]);
  }

  /** `{ ...INITIAL_FILLABLE_SHEET_DATA, ...parsedData, stats: completeStats }`. */
  function Merge(saved: SavedSheet): (r: FillableSheetData)
    ensures StatsExact(r)
  {
    LoadedStats(saved.stats);
    var d := INITIAL_FILLABLE_SHEET_DATA;
    FillableSheetData(
      name := saved.name.GetOr(d.name),
      archetypeName := saved.archetypeName.GetOr(d.archetypeName),
      description := saved.description.GetOr(d.description),
      stats := CompleteStats(STAT_KEYS, saved.stats, map[]),
      hp := saved.hp.GetOr(d.hp),
      maxHp := saved.maxHp.GetOr(d.maxHp),
      gear := saved.gear.GetOr(d.gear),
      trinket := saved.trinket.GetOr(d.trinket),
      catchphrase := saved.catchphrase.GetOr(d.catchphrase),
      definingTraitName := saved.definingTraitName.GetOr(d.definingTraitName),
      definingTraitDescription := saved.definingTraitDescription.GetOr(d.definingTraitDescription),
      background := saved.background.GetOr(d.background),
      motivation := saved.motivation.GetOr(d.motivation),
      stuntPoints := saved.stuntPoints.GetOr(d.stuntPoints),
      actionHeroFeats := saved.actionHeroFeats.GetOr(d.actionHeroFeats),
      signatureMoves := saved.signatureMoves.GetOr(d.signatureMoves))
  }

  /** What `JSON.stringify` writes for a sheet, as read back: every field present. */
  function ToSaved(d: FillableSheetData): (r: SavedSheet)
    ensures r.stats.Some? && r.stats.value.Keys == d.stats.Keys
    ensures forall k :: k in d.stats ==> r.stats.value[k] == Some(d.stats[k])
  {
    SavedSheet(Some(d.name), Some(d.archetypeName), Some(d.description),
      Some(map k | k in d.stats :: Some(d.stats[k])),
      Some(d.hp), Some(d.maxHp), Some(d.gear), Some(d.trinket), Some(d.catchphrase),
      Some(d.definingTraitName), Some(d.definingTraitDescription), Some(d.background),
      Some(d.motivation), Some(d.stuntPoints), Some(d.actionHeroFeats), Some(d.signatureMoves))
  }

  /** A field absent from the saved object keeps its initial value; a present one is taken. */
  lemma MergeFields(saved: SavedSheet)
    ensures var r, d := Merge(saved), INITIAL_FILLABLE_SHEET_DATA;
      && (saved.name.None? ==> r.name == d.name) && (saved.name.Some? ==> r.name == saved.name.value)
      && (saved.archetypeName.None? ==> r.archetypeName == ARCHETYPES[0].name)
      && (saved.archetypeName.Some? ==> r.archetypeName == saved.archetypeName.value)
      && (saved.hp.None? ==> r.hp == BASE_HP) && (saved.hp.Some? ==> r.hp == saved.hp.value)
      && (saved.maxHp.None? ==> r.maxHp == BASE_HP) && (saved.maxHp.Some? ==> r.maxHp == saved.maxHp.value)
      && (saved.stuntPoints.None? ==> r.stuntPoints == 0)
      && (saved.stuntPoints.Some? ==> r.stuntPoints == saved.stuntPoints.value)
      && (saved.motivation.None? ==> r.motivation == "")
      && (saved.motivation.Some? ==> r.motivation == saved.motivation.value)
  {
    InitialSheetFacts();
  }

  /** Loading an object without any field gives the initial sheet. */
  lemma LoadNothingSaved()
    ensures Merge(NOTHING_SAVED) == INITIAL_FILLABLE_SHEET_DATA
  {
    var r, d := Merge(NOTHING_SAVED), INITIAL_FILLABLE_SHEET_DATA;
    LoadedStats(None);
    InitialSheetFacts();
    assert r.stats == d.stats;
  }

  /** Loading what was saved gives back the sheet, when its stats object holds exactly the six stats. */
  lemma MergeToSaved(d: FillableSheetData)
    requires StatsExact(d)
    ensures Merge(ToSaved(d)) == d
  {
    SavedStatsReload(d);
  }

  /** The saved stats object completes to the sheet's own, when it holds exactly the six stats. */
  lemma SavedStatsReload(d: FillableSheetData)
    requires StatsExact(d)
    ensures CompleteStats(STAT_KEYS, ToSaved(d).stats, map[]) == d.stats
  {
    var saved := ToSaved(d).stats;
    var m := CompleteStats(STAT_KEYS, saved, map[]);
    LoadedStats(saved);
    forall k | k in d.stats
      ensures k in m && m[k] == d.stats[k]
    {
      var s: Stat :| k == Display(s);
      assert SavedStat(saved, k) == d.stats[k];
    }
    forall k | k in m
      ensures k in d.stats
    {
      var s: Stat :| k == Display(s);
    }
    assert m.Keys == d.stats.Keys;
  }

  // ---------------------------------------------------------------------------
  // The archetype and HP sync effect

  /** `sheetData.stats[Stat.Defense] || 0`. */
  function DefenseOf(d: FillableSheetData): int
  {
    if Display(Defense) in d.stats then d.stats[Display(Defense)] else 0
  }

  /** The sync effect's update: when the maximum differs from 10 plus Defense, or the hit
      points exceed it, set the maximum and clamp the hit points down to it. */
  function Synced(d: FillableSheetData): (r: FillableSheetData)
    ensures r.maxHp == BASE_HP + DefenseOf(d)
    ensures r.hp == if d.hp <= r.maxHp then d.hp else r.maxHp
    ensures r.(hp := d.hp, maxHp := d.maxHp) == d
  {
    var newMaxHp := BASE_HP + DefenseOf(d);
    if d.maxHp != newMaxHp || d.hp > newMaxHp then
      d.(maxHp := newMaxHp, hp := if d.hp <= newMaxHp then d.hp else newMaxHp)
    else d
  }

  /** The sync never raises the hit points. */
  lemma SyncNeverRaisesHp(d: FillableSheetData)
    ensures Synced(d).hp <= d.hp && Synced(d).hp <= Synced(d).maxHp
  {
  }

  /** The sync changes nothing exactly when the maximum is already 10 plus Defense and the
      hit points do not exceed it. */
  lemma SyncNoOp(d: FillableSheetData)
    ensures Synced(d) == d <==> (d.maxHp == BASE_HP + DefenseOf(d) && d.hp <= d.maxHp)
  {
  }

  /** Running the sync again after it fired changes nothing. */
  lemma SyncIdempotent(d: FillableSheetData)
    ensures Synced(Synced(d)) == Synced(d)
  {
    var r := Synced(d);
    assert DefenseOf(r) == DefenseOf(d);
    SyncNoOp(r);
  }

  /** With every stat present the maximum is 10 plus the Defense stat. */
  lemma SyncedMaxHp(d: FillableSheetData)
    requires HasAllStats(d)
    ensures Synced(d).maxHp == BASE_HP + d.stats[Display(Defense)]
  {
  }

  // ---------------------------------------------------------------------------
  // The edit handlers

  /** The sheet's text inputs, selects and text areas. */
  datatype TextField = NameField | ArchetypeField | DescriptionField | GearField | TrinketField
    | CatchphraseField | TraitNameField | TraitDescriptionField | BackgroundField
    | MotivationField | FeatsField | MovesField

  /** The `name` attribute of each text input, which is also the field it edits. */
  function TextFieldName(f: TextField): string
  {
    match f
    case NameField => "name"
    case ArchetypeField => "archetypeName"
    case DescriptionField => "description"
    case GearField => "gear"
    case TrinketField => "trinket"
    case CatchphraseField => "catchphrase"
    case TraitNameField => "definingTraitName"
    case TraitDescriptionField => "definingTraitDescription"
    case BackgroundField => "background"
    case MotivationField => "motivation"
    case FeatsField => "actionHeroFeats"
    case MovesField => "signatureMoves"
  }

  /** The text field an input name stands for, if any. */
  function TextFieldNamed(field: string): (r: Option<TextField>)
    ensures r.Some? ==> TextFieldName(r.value) == field
    ensures r.None? ==> forall f :: TextFieldName(f) != field
  {
    if field == "name" then Some(NameField)
    else if field == "archetypeName" then Some(ArchetypeField)
    else if field == "description" then Some(DescriptionField)
    else if field == "gear" then Some(GearField)
    else if field == "trinket" then Some(TrinketField)
    else if field == "catchphrase" then Some(CatchphraseField)
    else if field == "definingTraitName" then Some(TraitNameField)
    else if field == "definingTraitDescription" then Some(TraitDescriptionField)
    else if field == "background" then Some(BackgroundField)
    else if field == "motivation" then Some(MotivationField)
    else if field == "actionHeroFeats" then Some(FeatsField)
    else if field == "signatureMoves" then Some(MovesField)
    else None
  }

  function GetText(d: FillableSheetData, f: TextField): string
  {
    match f
    case NameField => d.name
    case ArchetypeField => d.archetypeName
    case DescriptionField => d.description
    case GearField => d.gear
    case TrinketField => d.trinket
    case CatchphraseField => d.catchphrase
    case TraitNameField => d.definingTraitName
    case TraitDescriptionField => d.definingTraitDescription
    case BackgroundField => d.background
    case MotivationField => d.motivation
    case FeatsField => d.actionHeroFeats
    case MovesField => d.signatureMoves
  }

  /** `{ ...prev, [name]: value }` for one text field. */
  function SetText(d: FillableSheetData, f: TextField, value: string): (r: FillableSheetData)
    ensures r.stats == d.stats && r.hp == d.hp && r.maxHp == d.maxHp && r.stuntPoints == d.stuntPoints
  {
    match f
    case NameField => d.(name := value)
    case ArchetypeField => d.(archetypeName := value)
    case DescriptionField => d.(description := value)
    case GearField => d.(gear := value)
    case TrinketField => d.(trinket := value)
    case CatchphraseField => d.(catchphrase := value)
    case TraitNameField => d.(definingTraitName := value)
    case TraitDescriptionField => d.(definingTraitDescription := value)
    case BackgroundField => d.(background := value)
    case MotivationField => d.(motivation := value)
    case FeatsField => d.(actionHeroFeats := value)
    case MovesField => d.(signatureMoves := value)
  }

  /** Setting a text field is read back from that field, and no other text field moves. */
  lemma GetSetText(d: FillableSheetData, f: TextField, g: TextField, value: string)
    ensures GetText(SetText(d, f, value), g) == if g == f then value else GetText(d, g)
  {
  }

  /** Setting a text field to the value it holds changes nothing. */
  lemma SetGetText(d: FillableSheetData, f: TextField)
    ensures SetText(d, f, GetText(d, f)) == d
  {
  }

  /** `handleInputChange`: the input's name picks the field to set. */
  function WithText(d: FillableSheetData, field: string, value: string): (r: FillableSheetData)
    ensures r.stats == d.stats && r.hp == d.hp && r.maxHp == d.maxHp && r.stuntPoints == d.stuntPoints
  {
    match TextFieldNamed(field)
    case None => d
    case Some(f) => SetText(d, f, value)
  }

  /** The input of text field `f` sets exactly that field. */
  lemma TextEdit(d: FillableSheetData, f: TextField, value: string)
    ensures WithText(d, TextFieldName(f), value) == SetText(d, f, value)
  {
    var g := TextFieldNamed(TextFieldName(f));
    assert g.Some? && TextFieldName(g.value) == TextFieldName(f);
    TextFieldNamesDistinct(g.value, f);
  }

  /** No two text inputs share a name. */
  lemma TextFieldNamesDistinct(f: TextField, g: TextField)
    ensures TextFieldName(f) == TextFieldName(g) ==> f == g
  {
  }

  /** The sheet's number inputs other than the stats. */
  datatype NumberField = HpField | MaxHpField | StuntPointsField

  function NumberFieldName(f: NumberField): string
  {
    match f
    case HpField => "hp"
    case MaxHpField => "maxHp"
    case StuntPointsField => "stuntPoints"
  }

  /** The number field an input name stands for, if any. */
  function NumberFieldNamed(field: string): (r: Option<NumberField>)
    ensures r.Some? ==> NumberFieldName(r.value) == field
    ensures r.None? ==> forall f :: NumberFieldName(f) != field
  {
    if field == "hp" then Some(HpField)
    else if field == "maxHp" then Some(MaxHpField)
    else if field == "stuntPoints" then Some(StuntPointsField)
    else None
  }

  function GetNumber(d: FillableSheetData, f: NumberField): int
  {
    match f
    case HpField => d.hp
    case MaxHpField => d.maxHp
    case StuntPointsField => d.stuntPoints
  }

  /** `{ ...prev, [name]: value }` for one number field. */
  function SetNumber(d: FillableSheetData, f: NumberField, n: int): (r: FillableSheetData)
    ensures r.stats == d.stats && forall t :: GetText(r, t) == GetText(d, t)
  {
    match f
    case HpField => d.(hp := n)
    case MaxHpField => d.(maxHp := n)
    case StuntPointsField => d.(stuntPoints := n)
  }

  /** Setting a number field is read back from that field, and no other number field moves. */
  lemma GetSetNumber(d: FillableSheetData, f: NumberField, g: NumberField, n: int)
    ensures GetNumber(SetNumber(d, f, n), g) == if g == f then n else GetNumber(d, g)
  {
  }

  /** The number an input's text stands for: `parseInt`, with NaN read as 0. */
  function InputNumber(value: string): (n: int)
    ensures ParseInt(value).Some? ==> n == ParseInt(value).value
    ensures ParseInt(value).None? ==> n == 0
  {
    ParseInt(value).GetOr(0)
  }

  /** Whether an input name starts with the stat prefix. */
  predicate IsStatField(field: string)
  {
    |STAT_FIELD_PREFIX| <= |field| && field[..|STAT_FIELD_PREFIX|] == STAT_FIELD_PREFIX
  }

  /** A name that differs from the prefix in its first or third letter is not a stat input. */
  lemma NotStatField(field: string)
    requires |field| < 3 || field[0] != 's' || field[2] != 'a'
    ensures !IsStatField(field)
  {
  }

  /** `handleNumberInputChange`: a `stat-` input sets, in the stats object, the key that
      follows the prefix; any other input sets the number field of its name. */
  function WithNumber(d: FillableSheetData, field: string, value: string): (r: FillableSheetData)
    ensures forall t :: GetText(r, t) == GetText(d, t)
  {
    var n := InputNumber(value);
    if IsStatField(field) then d.(stats := d.stats[field[|STAT_FIELD_PREFIX|..] := n])
    else
      match NumberFieldNamed(field)
      case None => d
      case Some(f) => SetNumber(d, f, n)
  }

  /** The stat input of stat `s` sets that stat to the number typed (0 when it is not a
      number) and changes nothing else. */
  lemma StatEdit(d: FillableSheetData, s: Stat, value: string)
    ensures var r := WithNumber(d, STAT_FIELD_PREFIX + Display(s), value);
      && Display(s) in r.stats && r.stats[Display(s)] == InputNumber(value)
      && (forall k :: k in d.stats && k != Display(s) ==> k in r.stats && r.stats[k] == d.stats[k])
      && (forall k :: k in r.stats ==> k in d.stats || k == Display(s))
      && r.(stats := d.stats) == d
  {
    var field := STAT_FIELD_PREFIX + Display(s);
    assert field[..|STAT_FIELD_PREFIX|] == STAT_FIELD_PREFIX;
    assert field[|STAT_FIELD_PREFIX|..] == Display(s);
  }

  /** The input of number field `f` sets that field to the number typed (0 when it is
      not a number) and changes nothing else. */
  lemma NumberEdit(d: FillableSheetData, f: NumberField, value: string)
    ensures WithNumber(d, NumberFieldName(f), value) == SetNumber(d, f, InputNumber(value))
  {
    NotStatField(NumberFieldName(f));
  }

  /** Every edit keeps a number for each stat. */
  lemma EditsKeepAllStats(d: FillableSheetData, field: string, value: string)
    requires HasAllStats(d)
    ensures HasAllStats(WithText(d, field, value)) && HasAllStats(WithNumber(d, field, value))
  {
  }

  // ---------------------------------------------------------------------------
  // An edit followed by the sync effect it re-runs

  /** The hit points as the sync effect leaves them: the maximum is 10 plus Defense and
      the hit points do not exceed it. */
  predicate SettledHp(d: FillableSheetData)
  {
    d.maxHp == BASE_HP + DefenseOf(d) && d.hp <= d.maxHp
  }

  /** After the sync the hit points are settled. */
  lemma SyncSettles(d: FillableSheetData)
    ensures SettledHp(Synced(d))
  {
    assert Synced(d).stats == d.stats;
  }

  /** A Max HP edit does not stick: the sync it triggers puts back 10 plus Defense, and the
      page ends as the sync alone would leave it. */
  lemma MaxHpEditUndone(d: FillableSheetData, value: string)
    ensures Synced(WithNumber(d, NumberFieldName(MaxHpField), value)) == Synced(d)
    ensures Synced(WithNumber(d, NumberFieldName(MaxHpField), value)).maxHp == BASE_HP + DefenseOf(d)
  {
    NumberEdit(d, MaxHpField, value);
  }

  /** An HP edit is clamped at once to 10 plus Defense; the rest of the sheet keeps its values. */
  lemma HpEditClamped(d: FillableSheetData, value: string)
    ensures var r, max := Synced(WithNumber(d, NumberFieldName(HpField), value)), BASE_HP + DefenseOf(d);
      && r.maxHp == max
      && r.hp == (if InputNumber(value) <= max then InputNumber(value) else max)
      && r.(hp := d.hp, maxHp := d.maxHp) == d
  {
    NumberEdit(d, HpField, value);
  }

  /** A Defense edit moves the maximum to 10 plus the number typed. */
  lemma DefenseEditSetsMaxHp(d: FillableSheetData, value: string)
    ensures Synced(WithNumber(d, STAT_FIELD_PREFIX + Display(Defense), value)).maxHp == BASE_HP + InputNumber(value)
  {
    StatEdit(d, Defense, value);
  }

  /** A text edit leaves the hit points where the sync put them. */
  lemma TextEditKeepsHp(d: FillableSheetData, field: string, value: string)
    ensures Synced(WithText(d, field, value)).hp == Synced(d).hp
    ensures Synced(WithText(d, field, value)).maxHp == Synced(d).maxHp
  {
  }

  // ---------------------------------------------------------------------------
  // Load, as a function of the stored text

  /** The load effect: with nothing stored (or an empty string) nothing happens; text that
      parses is merged over the initial sheet; text that does not parse is removed from
      storage and the sheet is left as it was. */
  function Loaded(d: FillableSheetData, stored: Option<string>, parse: string -> Option<SavedSheet>): (r: (FillableSheetData, Option<string>))
    ensures stored.None? || stored == Some("") ==> r == (d, stored)
    ensures r.1.Some? ==> r.1 == stored
    ensures r.1.None? && stored.Some? ==> r.0 == d
  {
    if stored.None? || stored.value == "" then (d, stored)
    else
      match parse(stored.value)
      case Some(saved) => (Merge(saved), stored)
      case None => (d, None)
  }

  /** Saving a sheet and loading it back gives the same sheet, as long as the stored text
      reads back as the object written and the sheet's stats are exactly the six. */
  lemma LoadAfterSave(before: FillableSheetData, d: FillableSheetData, encode: FillableSheetData -> string, parse: string -> Option<SavedSheet>)
    requires StatsExact(d) && encode(d) != "" && parse(encode(d)) == Some(ToSaved(d))
    ensures Loaded(before, Some(encode(d)), parse) == (d, Some(encode(d)))
  {
    MergeToSaved(d);
  }

  // ---------------------------------------------------------------------------
  // The page

  /** The page's state: the sheet, the archetype the sheet names, the stored text and the
      feedback message on display. */
  class SheetPage {
    var sheet: FillableSheetData
    var selected: Option<Archetype>
    var stored: Option<string>
    var feedback: Option<string>

    /** Every stat has a number on the sheet. */
    predicate Valid()
      reads this
    {
      HasAllStats(sheet)
    }

    /** The page as first rendered: the initial sheet, nothing selected, no message. */
    constructor (storage: Option<string>)
      ensures Valid()
      ensures sheet == INITIAL_FILLABLE_SHEET_DATA && selected == None
      ensures stored == storage && feedback == None
    {
      sheet := INITIAL_FILLABLE_SHEET_DATA;
      selected := None;
      stored := storage;
      feedback := None;
      InitialSheetFacts();
    }

    /** The mount effect that loads the stored sheet. */
    method LoadSaved(parse: string -> Option<SavedSheet>)
      requires Valid()
      modifies this
      ensures Valid()
      ensures (sheet, stored) == Loaded(old(sheet), old(stored), parse)
      ensures selected == old(selected) && feedback == old(feedback)
    {
      if stored.Some? && stored.value != "" {
        var parsed := parse(stored.value);
        if parsed.Some? {
          sheet := Merge(parsed.value);
        } else {
          stored := None;
        }
      }
    }

    /** The effect that looks up the archetype by name and syncs the maximum hit points. */
    method SyncArchetypeAndHp()
      requires Valid()
      modifies this
      ensures Valid()
      ensures selected == FindArchetype(old(sheet).archetypeName)
      ensures sheet == Synced(old(sheet))
      ensures stored == old(stored) && feedback == old(feedback)
    {
      selected := FindArchetype(sheet.archetypeName);
      var newMaxHp := BASE_HP + DefenseOf(sheet);
      if sheet.maxHp != newMaxHp || sheet.hp > newMaxHp {
        var hp := if sheet.hp <= newMaxHp then sheet.hp else newMaxHp;
        sheet := sheet.(maxHp := newMaxHp, hp := hp);
      }
    }

    /** `handleInputChange`. */
    method InputChange(field: string, value: string)
      requires Valid()
      modifies this
      ensures Valid()
      ensures sheet == WithText(old(sheet), field, value)
      ensures selected == old(selected) && stored == old(stored) && feedback == old(feedback)
    {
      sheet := WithText(sheet, field, value);
    }

    /** `handleNumberInputChange`. */
    method NumberInputChange(field: string, value: string)
      requires Valid()
      modifies this
      ensures Valid()
      ensures sheet == WithNumber(old(sheet), field, value)
      ensures selected == old(selected) && stored == old(stored) && feedback == old(feedback)
    {
      var n := InputNumber(value);
      if IsStatField(field) {
        sheet := sheet.(stats := sheet.stats[field[|STAT_FIELD_PREFIX|..] := n]);
      } else if field == "hp" {
        sheet := sheet.(hp := n);
      } else if field == "maxHp" {
        sheet := sheet.(maxHp := n);
      } else if field == "stuntPoints" {
        sheet := sheet.(stuntPoints := n);
      }
    }

    /** What the sync effect leaves: settled hit points and the archetype the sheet names. */
    predicate Settled()
      reads this
    {
      SettledHp(sheet) && selected == FindArchetype(sheet.archetypeName)
    }

    /** A text edit as the page shows it: the handler, then the sync effect that React runs
        again because the sheet changed. */
    method InputChangeAndSync(field: string, value: string)
      requires Valid()
      modifies this
      ensures Valid() && Settled()
      ensures sheet == Synced(WithText(old(sheet), field, value))
      ensures stored == old(stored) && feedback == old(feedback)
    {
      InputChange(field, value);
      SyncArchetypeAndHp();
      SyncSettles(old(WithText(sheet, field, value)));
      assert sheet.archetypeName == WithText(old(sheet), field, value).archetypeName;
    }

    /** A number edit as the page shows it: the handler, then the sync effect. */
    method NumberInputChangeAndSync(field: string, value: string)
      requires Valid()
      modifies this
      ensures Valid() && Settled()
      ensures sheet == Synced(WithNumber(old(sheet), field, value))
      ensures stored == old(stored) && feedback == old(feedback)
    {
      NumberInputChange(field, value);
      SyncArchetypeAndHp();
      SyncSettles(WithNumber(old(sheet), field, value));
      assert sheet.archetypeName == WithNumber(old(sheet), field, value).archetypeName;
    }

    /** `saveSheet`: the encoded sheet is stored and the saved message shown. */
    method SaveSheet(encode: FillableSheetData -> string)
      requires Valid()
      modifies this
      ensures Valid()
      ensures stored == Some(encode(old(sheet))) && feedback == Some(SAVED_MESSAGE)
      ensures sheet == old(sheet) && selected == old(selected)
    {
      stored := Some(encode(sheet));
      feedback := Some(SAVED_MESSAGE);
    }

    /** `clearSheet`: once confirmed, the initial sheet, nothing stored and the cleared
        message; declined, nothing changes. */
    method ClearSheet(confirmed: bool)
      requires Valid()
      modifies this
      ensures Valid()
      ensures confirmed ==> sheet == INITIAL_FILLABLE_SHEET_DATA && stored == None && feedback == Some(CLEARED_MESSAGE)
      ensures !confirmed ==> sheet == old(sheet) && stored == old(stored) && feedback == old(feedback)
      ensures selected == old(selected)
    {
      if confirmed {
        sheet := INITIAL_FILLABLE_SHEET_DATA;
        stored := None;
        feedback := Some(CLEARED_MESSAGE);
        InitialSheetFacts();
      }
    }
  }
}
