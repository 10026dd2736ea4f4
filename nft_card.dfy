/** The helpers of the NFT card: badge colours for a difficulty, a level and
    a style, the trait lookup over a record's attributes, and the condition
    for the accessibility badge. */
module NftCard {
  import opened Wrappers
  import opened Js
  import opened MetadataTypes
  import Generator

  const Green: string := "bg-green-100 text-green-800"
  const Yellow: string := "bg-yellow-100 text-yellow-800"
  const Red: string := "bg-red-100 text-red-800"
  const Blue: string := "bg-blue-100 text-blue-800"
  const Purple: string := "bg-purple-100 text-purple-800"
  const Orange: string := "bg-orange-100 text-orange-800"
  const Indigo: string := "bg-indigo-100 text-indigo-800"
  const Pink: string := "bg-pink-100 text-pink-800"
  const Teal: string := "bg-teal-100 text-teal-800"
  const Gray: string := "bg-gray-100 text-gray-800"

  const Levels: seq<string> := ["beginner", "intermediate", "advanced"]
  const LevelColors: seq<string> := [Blue, Purple, Orange]
  const Styles: seq<string> := ["hatha", "vinyasa", "ashtanga", "yin"]
  const StyleColors: seq<string> := [Indigo, Pink, Red, Teal]

  // ---------------------------------------------------------------- colours

  /** `getDifficultyColor`: three bands, at most 2, at most 4, above. */
  function DifficultyColor(difficulty: real): (r: string)
    ensures r == Green <==> difficulty <= 2.0
    ensures r == Yellow <==> 2.0 < difficulty <= 4.0
    ensures r == Red <==> 4.0 < difficulty
  {
    if difficulty <= 2.0 then Green
    else if difficulty <= 4.0 then Yellow
    else Red
  }

  /** The band index of a difficulty colour: 0 green, 1 yellow, 2 red. */
  function Band(color: string): nat
  {
    if color == Green then 0 else if color == Yellow then 1 else 2
  }

  /** A harder course never gets a milder colour. */
  lemma DifficultyColorMonotone(d1: real, d2: real)
    requires d1 <= d2
    ensures Band(DifficultyColor(d1)) <= Band(DifficultyColor(d2))
  {
  }

  /** The colour at the index of `key` in `keys`, or gray: a `switch` with a
      `default`. */
  function Lookup(keys: seq<string>, colors: seq<string>, key: string): (r: string)
    requires |keys| == |colors|
    ensures (exists i :: 0 <= i < |keys| && keys[i] == key) ==> exists i :: 0 <= i < |keys| && keys[i] == key && r == colors[i]
    ensures (forall i :: 0 <= i < |keys| ==> keys[i] != key) ==> r == Gray
    decreases |keys|
  {
    if keys == [] then Gray
    else if keys[0] == key then colors[0]
    else
      var r := Lookup(keys[1..], colors[1..], key);
      assert forall i :: 1 <= i < |keys| ==> keys[i] == keys[1..][i - 1];
      r
  }

  /** `getLevelColor`: the level is compared after lower-casing. */
  function LevelColor(level: string): string
  {
    Lookup(Levels, LevelColors, Lower(level))
  }

  /** `getStyleColor`: the style is compared after lower-casing. */
  function StyleColor(style: string): string
  {
    Lookup(Styles, StyleColors, Lower(style))
  }

  /** Each known level has its own colour, whatever its case; everything
      else is gray. */
  lemma LevelColorCases(level: string)
    ensures Lower(level) == "beginner" ==> LevelColor(level) == Blue
    ensures Lower(level) == "intermediate" ==> LevelColor(level) == Purple
    ensures Lower(level) == "advanced" ==> LevelColor(level) == Orange
    ensures Lower(level) !in Levels ==> LevelColor(level) == Gray
    ensures LevelColor(Lower(level)) == LevelColor(level)
  {
    LowerIdempotent(level);
  }

  /** Each known style has its own colour, whatever its case; everything
      else is gray. */
  lemma StyleColorCases(style: string)
    ensures Lower(style) == "hatha" ==> StyleColor(style) == Indigo
    ensures Lower(style) == "vinyasa" ==> StyleColor(style) == Pink
    ensures Lower(style) == "ashtanga" ==> StyleColor(style) == Red
    ensures Lower(style) == "yin" ==> StyleColor(style) == Teal
    ensures Lower(style) !in Styles ==> StyleColor(style) == Gray
    ensures StyleColor(Lower(style)) == StyleColor(style)
  {
    LowerIdempotent(style);
  }

  /** The colours of the known levels, and of the known styles, are all
      different and none is gray, so the colour tells the value apart. */
  lemma ColorsDistinct()
    ensures forall i, j :: 0 <= i < j < |LevelColors| ==> LevelColors[i] != LevelColors[j]
    ensures forall i, j :: 0 <= i < j < |StyleColors| ==> StyleColors[i] != StyleColors[j]
    ensures Gray !in LevelColors && Gray !in StyleColors
  {
  }

  // ---------------------------------------------------------------- traits

  /** `attributes.find(attr => attr.trait_type === traitType)?.value`:
      the value of the first attribute with exactly that name. */
  function FindTrait(attributes: seq<Attribute>, traitType: string): (r: Option<Json>)
    ensures r.None? <==> forall i :: 0 <= i < |attributes| ==> attributes[i].traitType != traitType
    ensures r.Some? ==> exists i :: 0 <= i < |attributes| && attributes[i].traitType == traitType
                          && r.value == attributes[i].value
                          && forall j :: 0 <= j < i ==> attributes[j].traitType != traitType
    decreases |attributes|
  {
    if attributes == [] then None
    else if attributes[0].traitType == traitType then Some(attributes[0].value)
    else
      var r := FindTrait(attributes[1..], traitType);
      assert forall i :: 1 <= i < |attributes| ==> attributes[i] == attributes[1..][i - 1];
      r
  }

  /** The six traits the card reads. */
  datatype CardTraits = CardTraits(
    level: Option<Json>,
    duration: Option<Json>,
    lessons: Option<Json>,
    difficulty: Option<Json>,
    focus: Option<Json>,
    accessibility: Option<Json>)

  function ReadTraits(attributes: seq<Attribute>): CardTraits
  {
    CardTraits(
      FindTrait(attributes, "Level"),
      FindTrait(attributes, "Duration"),
      FindTrait(attributes, "Lessons"),
      FindTrait(attributes, "Difficulty"),
      FindTrait(attributes, "Focus"),
      FindTrait(attributes, "Accessibility"))
  }

  /** The accessibility badge is shown only for the exact string 'Full'. */
  function ShowsAccessibleBadge(accessibility: Option<Json>): (r: bool)
    ensures r <==> accessibility.Some? && accessibility.value == JString("Full")
  {
    accessibility == Some(JString("Full"))
  }

  /** The generator's trait names, in order. */
  const GeneratedTraitNames: seq<string> :=
    ["Yoga Style", "Level", "Number of Lessons", "Lesson Duration", "Accessibility",
     "Main Focus", "Difficulty", "Category"]

  lemma TraitNamesOfGenerated(course: Generator.YogaCourse)
    ensures |Generator.Traits(course)| == |GeneratedTraitNames|
    ensures forall i :: 0 <= i < |GeneratedTraitNames| ==> Generator.Traits(course)[i].traitType == GeneratedTraitNames[i]
  {
  }

  /** A lookup by one of the generator's names finds the trait of that
      index; a lookup by any other name finds nothing. */
  lemma FindGeneratedTrait(course: Generator.YogaCourse, traitType: string)
    ensures traitType !in GeneratedTraitNames ==> FindTrait(Generator.Traits(course), traitType).None?
    ensures forall k :: 0 <= k < |GeneratedTraitNames| && GeneratedTraitNames[k] == traitType ==>
              FindTrait(Generator.Traits(course), traitType) == Some(Generator.Traits(course)[k].value)
  {
    var attrs := Generator.Traits(course);
    TraitNamesOfGenerated(course);
    assert forall i, j :: 0 <= i < j < |GeneratedTraitNames| ==> GeneratedTraitNames[i] != GeneratedTraitNames[j];
  }

  /** The names the card reads for the duration, the lesson count and the
      focus are none of the generator's. */
  lemma CardNamesNotGenerated()
    ensures "Duration" !in GeneratedTraitNames
    ensures "Lessons" !in GeneratedTraitNames
    ensures "Focus" !in GeneratedTraitNames
  {
    assert forall i :: 0 <= i < |GeneratedTraitNames| ==>
      |GeneratedTraitNames[i]| != 7 && (|GeneratedTraitNames[i]| == 8 ==> GeneratedTraitNames[i][0] == 'C')
      && (|GeneratedTraitNames[i]| == 5 ==> GeneratedTraitNames[i][0] == 'L');
  }

  /** A lookup by the generator's `k`-th name finds the `k`-th value. */
  lemma FindGeneratedTraitAt(course: Generator.YogaCourse, k: nat)
    requires k < |GeneratedTraitNames|
    ensures FindTrait(Generator.Traits(course), GeneratedTraitNames[k]) == Some(Generator.Traits(course)[k].value)
  {
    FindGeneratedTrait(course, GeneratedTraitNames[k]);
  }

  /** On a generated record, the card finds the level, the difficulty and
      the accessibility. */
  lemma CardFindsGeneratedTraits(course: Generator.YogaCourse)
    ensures FindTrait(Generator.Traits(course), "Level") == Some(JString(course.level))
    ensures FindTrait(Generator.Traits(course), "Accessibility") == Some(JString(course.accessibility))
    ensures FindTrait(Generator.Traits(course), "Difficulty") == Some(JNumber(course.difficulty as real))
  {
    FindGeneratedTraitAt(course, 1);
    FindGeneratedTraitAt(course, 4);
    FindGeneratedTraitAt(course, 6);
  }

  /** It does not find the duration, the lesson count or the focus: the
      generator names those 'Lesson Duration', 'Number of Lessons' and
      'Main Focus'. */
  lemma CardMissesGeneratedNames(course: Generator.YogaCourse)
    ensures FindTrait(Generator.Traits(course), "Duration").None?
    ensures FindTrait(Generator.Traits(course), "Lessons").None?
    ensures FindTrait(Generator.Traits(course), "Focus").None?
  {
    CardNamesNotGenerated();
    FindGeneratedTrait(course, "Duration");
    FindGeneratedTrait(course, "Lessons");
    FindGeneratedTrait(course, "Focus");
  }

  /** What the card reads from a generated record. */
  lemma CardMissesGeneratedTraits(course: Generator.YogaCourse)
    ensures ReadTraits(Generator.Traits(course)) == CardTraits(
      Some(JString(course.level)), None, None, Some(JNumber(course.difficulty as real)), None,
      Some(JString(course.accessibility)))
  {
    CardFindsGeneratedTraits(course);
    CardMissesGeneratedNames(course);
  }

  /** The card's reads under the generator's own trait names: 'Level',
      'Lesson Duration', 'Number of Lessons', 'Difficulty', 'Main Focus'
      and 'Accessibility'. */
  function ReadTraitsByGeneratedNames(attributes: seq<Attribute>): CardTraits
  {
    CardTraits(
      FindTrait(attributes, GeneratedTraitNames[1]),
      FindTrait(attributes, GeneratedTraitNames[3]),
      FindTrait(attributes, GeneratedTraitNames[2]),
      FindTrait(attributes, GeneratedTraitNames[6]),
      FindTrait(attributes, GeneratedTraitNames[5]),
      FindTrait(attributes, GeneratedTraitNames[4]))
  }

  /** With those names the card finds all six traits of a generated record. */
  lemma GeneratedNamesReadEveryTrait(course: Generator.YogaCourse)
    ensures ReadTraitsByGeneratedNames(Generator.Traits(course)) == CardTraits(
      Some(JString(course.level)), Some(JString(course.duration)), Some(JNumber(course.lessons as real)),
      Some(JNumber(course.difficulty as real)), Some(JString(course.focus)), Some(JString(course.accessibility)))
  {
    FindGeneratedTraitAt(course, 1);
    FindGeneratedTraitAt(course, 2);
    FindGeneratedTraitAt(course, 3);
    FindGeneratedTraitAt(course, 4);
    FindGeneratedTraitAt(course, 5);
    FindGeneratedTraitAt(course, 6);
  }

  /** A generated record's badge for 'Full' accessibility is shown. */
  lemma GeneratedBadge(course: Generator.YogaCourse)
    ensures ShowsAccessibleBadge(ReadTraits(Generator.Traits(course)).accessibility)
            <==> course.accessibility == "Full"
  {
    CardMissesGeneratedTraits(course);
  }
}
