/** The Plant entity: validated fields, the setters that guard them, growth,
    watering and the derived age queries. Every setter reports the rule it
    rejected a value for as an `Outcome` instead of throwing
    ArgumentException, and leaves the field untouched when it rejects. */
module Plants {
  import opened Calendar

  datatype Option<T> = None | Some(value: T)

  /** The plant categories. The enumeration's own members are not part of
      this model; any closed set of tags behaves the same here. */
  datatype PlantType = Tree | Shrub | Flower

  /** Which validation rule an operation rejected its argument for. */
  datatype PlantError =
    | NameBlank
    | NameLength
    | NameCharacters
    | AgeOutOfRange
    | HeightOutOfRange
    | PlantedBefore1900
    | PlantedInFuture
    | NonPositiveGrowth

  datatype Outcome = Pass | Fail(error: PlantError)

  const MinNameLength: int := 2
  const MaxNameLength: int := 50
  const MaxAge: int := 5000
  /** The height of Hyperion, the tallest known tree, in metres. */
  const MaxHeight: real := 115.7
  const EarliestPlantingYear: int := 1900
  /** What `LastWatered` reads before the first watering ("never"). */
  const NeverWatered: string := "Ніколи"
  const YoungLabel: string := "Молода"
  const AdultLabel: string := "Доросла"
  const OldLabel: string := "Стара"
  const PlantedPhrase: string := " було висаджено "

  // ---------------------------------------------------------------------
  // Characters

  /** char.IsWhiteSpace: the space separators, the line and paragraph
      separators, U+0009 to U+000D and U+0085. */
  predicate IsWhiteSpace(c: char) {
    var n := c as int;
    || n == 0x20 || 0x09 <= n <= 0x0D || n == 0x85 || n == 0xA0 || n == 0x1680
    || 0x2000 <= n <= 0x200A || n == 0x2028 || n == 0x2029 || n == 0x202F
    || n == 0x205F || n == 0x3000
  }

  /** char.IsLetter, restricted to the letters of these blocks: Basic Latin,
      Latin-1 Supplement, Latin Extended-A and -B, IPA Extensions, Spacing Modifier Letters
      (among them U+02BC, the apostrophe of Ukrainian words), Latin Extended
      Additional, Cyrillic, Cyrillic Supplement and Cyrillic Extended-B and -C. */
  predicate IsLetter(c: char) {
    var n := c as int;
    || 'A' as int <= n <= 'Z' as int || 'a' as int <= n <= 'z' as int
    || n == 0xAA || n == 0xB5 || n == 0xBA
    || 0xC0 <= n <= 0xD6 || 0xD8 <= n <= 0xF6 || 0xF8 <= n <= 0x24F
    || 0x250 <= n <= 0x2C1 || 0x2C6 <= n <= 0x2D1 || 0x2E0 <= n <= 0x2E4
    || n == 0x2EC || n == 0x2EE
    || 0x400 <= n <= 0x481 || 0x48A <= n <= 0x52F
    || 0x1C80 <= n <= 0x1C88 || 0x1E00 <= n <= 0x1EFF
    || 0xA640 <= n <= 0xA66E || 0xA67F <= n <= 0xA69D
  }

  predicate IsNameChar(c: char) {
    IsLetter(c) || c == ' '
  }

  // ---------------------------------------------------------------------
  // Name rule

  /** string.IsNullOrWhiteSpace, walking the string from the front. */
  predicate IsNullOrWhiteSpace(s: string) {
    s == [] || (IsWhiteSpace(s[0]) && IsNullOrWhiteSpace(s[1..]))
  }

  /** `s.All(c => char.IsLetter(c) || c == ' ')`, walking from the front. */
  predicate AllNameChars(s: string) {
    s == [] || (IsNameChar(s[0]) && AllNameChars(s[1..]))
  }

  ghost predicate WhiteSpaceOnly(s: string) {
    forall i :: 0 <= i < |s| ==> IsWhiteSpace(s[i])
  }

  ghost predicate OnlyNameChars(s: string) {
    forall i :: 0 <= i < |s| ==> IsNameChar(s[i])
  }

  lemma {:induction false} IsNullOrWhiteSpaceMeans(s: string)
    ensures IsNullOrWhiteSpace(s) <==> WhiteSpaceOnly(s)
    decreases |s|
  {
    if s != [] {
      IsNullOrWhiteSpaceMeans(s[1..]);
      assert forall i :: 1 <= i < |s| ==> s[i] == s[1..][i - 1];
    }
  }

  lemma {:induction false} AllNameCharsMeans(s: string)
    ensures AllNameChars(s) <==> OnlyNameChars(s)
    decreases |s|
  {
    if s != [] {
      AllNameCharsMeans(s[1..]);
      assert forall i :: 1 <= i < |s| ==> s[i] == s[1..][i - 1];
    }
  }

  /** A name the Name setter accepts. */
  ghost predicate ValidName(s: string) {
    && !WhiteSpaceOnly(s)
    && MinNameLength <= |s| <= MaxNameLength
    && OnlyNameChars(s)
  }

  /** The Name setter's checks, in their order: blank, then length, then
      characters. The result names the first rule `s` breaks. */
  function CheckName(s: string): (r: Outcome)
    ensures r == Pass <==> ValidName(s)
    ensures r == Fail(NameBlank) <==> WhiteSpaceOnly(s)
    ensures r == Fail(NameLength) <==>
              !WhiteSpaceOnly(s) && !(MinNameLength <= |s| <= MaxNameLength)
    ensures r == Fail(NameCharacters) <==>
              && !WhiteSpaceOnly(s) && MinNameLength <= |s| <= MaxNameLength
              && exists i :: 0 <= i < |s| && !IsNameChar(s[i])
  {
    IsNullOrWhiteSpaceMeans(s);
    AllNameCharsMeans(s);
    if IsNullOrWhiteSpace(s) then Fail(NameBlank)
    else if |s| < MinNameLength || |s| > MaxNameLength then Fail(NameLength)
    else if !AllNameChars(s) then Fail(NameCharacters)
    else Pass
  }

  /** Put differently: a valid name is 2 to 50 letters and spaces, at least
      one of them a letter. */
  lemma ValidNameHasLetter(s: string)
    ensures ValidName(s) <==>
              && MinNameLength <= |s| <= MaxNameLength
              && OnlyNameChars(s)
              && exists i :: 0 <= i < |s| && IsLetter(s[i])
  {
    if ValidName(s) {
      var i :| 0 <= i < |s| && !IsWhiteSpace(s[i]);
      assert IsLetter(s[i]);
    }
  }

  /** A Ukrainian name written with the modifier-letter apostrophe is
      accepted; one with a digit is refused for its characters. */
  lemma ApostropheNameAccepted()
    ensures CheckName("Мʼята") == Pass
    ensures CheckName("Мʼята 2") == Fail(NameCharacters)
  {
    assert !IsWhiteSpace("Мʼята"[0]);
    assert !IsNameChar("Мʼята 2"[6]);
  }

  // ---------------------------------------------------------------------
  // Type, age, height and planting-date rules

  /** Enum.IsDefined always holds of a value of a closed datatype. */
  function CheckType(t: PlantType): (r: Outcome)
    ensures r == Pass
  {
    Pass
  }

  predicate ValidAge(v: int) {
    0 <= v <= MaxAge
  }

  function CheckAge(v: int): (r: Outcome)
    ensures r == Pass <==> 0 <= v <= MaxAge
    ensures r != Pass ==> r == Fail(AgeOutOfRange)
  {
    if v < 0 || v > MaxAge then Fail(AgeOutOfRange) else Pass
  }

  predicate ValidHeight(v: real) {
    0.0 < v <= MaxHeight
  }

  function CheckHeight(v: real): (r: Outcome)
    ensures r == Pass <==> 0.0 < v <= MaxHeight
    ensures r != Pass ==> r == Fail(HeightOutOfRange)
  {
    if v <= 0.0 || v > MaxHeight then Fail(HeightOutOfRange) else Pass
  }

  /** ValidatePlantingDate with the current moment passed in: the year
      first, then "not after now". */
  function ValidatePlantingDate(d: DateTime, now: DateTime): (r: Outcome)
    ensures r == Pass <==> d.year >= EarliestPlantingYear && !Later(d, now)
    ensures r == Fail(PlantedBefore1900) <==> d.year < EarliestPlantingYear
    ensures r == Fail(PlantedInFuture) <==> d.year >= EarliestPlantingYear && Later(d, now)
  {
    if d.year < EarliestPlantingYear then Fail(PlantedBefore1900)
    else if Later(d, now) then Fail(PlantedInFuture)
    else Pass
  }

  /** A date accepted at one moment is still accepted at any moment after
      it: the "not in the future" rule cannot start failing as time passes. */
  lemma PlantingDateStaysValid(d: DateTime, now: DateTime, after: DateTime)
    requires ValidatePlantingDate(d, now) == Pass
    requires !Later(now, after)
    ensures ValidatePlantingDate(d, after) == Pass
  {
    LaterIsStrictTotalOrder(d, after, now);
    LaterIsStrictTotalOrder(now, after, d);
  }

  /** Before 1900 no planting date at all is accepted. */
  lemma NoPlantingDateBefore1900(d: DateTime, now: DateTime)
    requires now.year < EarliestPlantingYear
    ensures ValidatePlantingDate(d, now) != Pass
  {
    if d.year >= EarliestPlantingYear {
      LaterYear(d, now);
    }
  }

  /** The constructor runs the setters for name, type, age, height and
      planting date in that order and stops at the first that rejects. */
  function CheckConstruction(name: string, t: PlantType, age: int, height: real,
                             plantingDate: DateTime, now: DateTime): (r: Outcome)
    ensures r == Pass <==>
              && ValidName(name) && ValidAge(age) && ValidHeight(height)
              && ValidatePlantingDate(plantingDate, now) == Pass
    ensures !ValidName(name) ==> r == CheckName(name)
    ensures ValidName(name) && !ValidAge(age) ==> r == Fail(AgeOutOfRange)
    ensures ValidName(name) && ValidAge(age) && !ValidHeight(height) ==>
              r == Fail(HeightOutOfRange)
    ensures ValidName(name) && ValidAge(age) && ValidHeight(height) ==>
              r == ValidatePlantingDate(plantingDate, now)
  {
    if CheckName(name).Fail? then CheckName(name)
    else if CheckType(t).Fail? then CheckType(t)
    else if CheckAge(age).Fail? then CheckAge(age)
    else if CheckHeight(height).Fail? then CheckHeight(height)
    else ValidatePlantingDate(plantingDate, now)
  }

  // ---------------------------------------------------------------------
  // Growth

  /** What Grow reports: a non-positive growth is refused before the
      height is touched; otherwise the Height setter judges the sum. */
  function GrowthOutcome(h: real, growth: real): (r: Outcome)
    ensures r == Pass <==> growth > 0.0 && ValidHeight(h + growth)
    ensures r == Fail(NonPositiveGrowth) <==> growth <= 0.0
    ensures growth > 0.0 && !ValidHeight(h + growth) ==> r == Fail(HeightOutOfRange)
  {
    if growth <= 0.0 then Fail(NonPositiveGrowth) else CheckHeight(h + growth)
  }

  /** The height after Grow(growth) from height `h`. */
  function HeightAfterGrowth(h: real, growth: real): (h': real)
    ensures h' == h || h' == h + growth
    ensures h' != h <==> growth > 0.0 && ValidHeight(h + growth)
    ensures h' >= h
    ensures ValidHeight(h) ==> ValidHeight(h')
  {
    if GrowthOutcome(h, growth) == Pass then h + growth else h
  }

  /** The height after a series of Grow calls, successful or not. */
  function HeightAfterGrowths(h: real, growths: seq<real>): real
    decreases |growths|
  {
    if growths == [] then h
    else HeightAfterGrowths(HeightAfterGrowth(h, growths[0]), growths[1..])
  }

  /** However many times a plant grows, its height never decreases and never
      leaves (0, 115.7]. */
  lemma {:induction false} GrowthsKeepHeightValid(h: real, growths: seq<real>)
    requires ValidHeight(h)
    ensures ValidHeight(HeightAfterGrowths(h, growths))
    ensures HeightAfterGrowths(h, growths) >= h
    decreases |growths|
  {
    if growths != [] {
      GrowthsKeepHeightValid(HeightAfterGrowth(h, growths[0]), growths[1..]);
    }
  }

  /** Growth that is accepted adds exactly what was asked; growth that is
      refused leaves the height where it was. */
  lemma {:induction false} GrowthsAddAcceptedAmounts(h: real, growths: seq<real>)
    ensures HeightAfterGrowths(h, growths) == h + AcceptedGrowth(h, growths)
    decreases |growths|
  {
    if growths != [] {
      GrowthsAddAcceptedAmounts(HeightAfterGrowth(h, growths[0]), growths[1..]);
    }
  }

  /** The sum of the growths in the series that Grow accepted, each judged
      against the height reached before it. */
  function AcceptedGrowth(h: real, growths: seq<real>): real
    decreases |growths|
  {
    if growths == [] then 0.0
    else
      (if GrowthOutcome(h, growths[0]) == Pass then growths[0] else 0.0)
        + AcceptedGrowth(HeightAfterGrowth(h, growths[0]), growths[1..])
  }

  // ---------------------------------------------------------------------
  // Rendering "dd.MM.yyyy HH:mm" and "dd.MM.yyyy"

  /** The fields of a moment that "dd.MM.yyyy HH:mm" shows. */
  datatype Stamp = Stamp(day: int, month: int, year: int, hour: int, minute: int)

  function StampOf(t: DateTime): Stamp {
    Stamp(t.day, t.month, t.year, t.hour, t.minute)
  }

  predicate Printable(st: Stamp) {
    && 0 <= st.day <= 99 && 0 <= st.month <= 99 && 0 <= st.year <= 9999
    && 0 <= st.hour <= 99 && 0 <= st.minute <= 99
  }

  /** Sixteen characters: digits, with '.' at 2 and 5, ' ' at 10 and ':' at 13. */
  predicate IsWateringTimeShape(s: string) {
    && |s| == 16
    && forall i :: 0 <= i < |s| ==>
         if i == 2 || i == 5 then s[i] == '.'
         else if i == 10 then s[i] == ' '
         else if i == 13 then s[i] == ':'
         else IsDigit(s[i])
  }

  /** "dd.MM.yyyy" */
  function FormatDate(day: int, month: int, year: int): (s: string)
    requires 0 <= day <= 99 && 0 <= month <= 99 && 0 <= year <= 9999
    ensures |s| == 10 && s[2] == '.' && s[5] == '.'
  {
    TwoDigits(day) + "." + TwoDigits(month) + "." + FourDigits(year)
  }

  /** "dd.MM.yyyy HH:mm" */
  function FormatStamp(st: Stamp): (s: string)
    requires Printable(st)
    ensures IsWateringTimeShape(s)
  {
    FormatDate(st.day, st.month, st.year) + " " + TwoDigits(st.hour) + ":" + TwoDigits(st.minute)
  }

  /** FormatWateringTime: the moment rendered as "dd.MM.yyyy HH:mm". */
  function FormatWateringTime(t: DateTime): (s: string)
    ensures IsWateringTimeShape(s)
  {
    FormatStamp(StampOf(t))
  }

  /** Reads the fields back out of a "dd.MM.yyyy HH:mm" string. */
  function ParseWateringTime(s: string): (r: Option<Stamp>)
    ensures r.Some? <==> IsWateringTimeShape(s)
    ensures r.Some? ==> Printable(r.value)
  {
    if IsWateringTimeShape(s) then
      assert AllDigits(s[0..2]) && AllDigits(s[3..5]) && AllDigits(s[6..10]);
      assert AllDigits(s[11..13]) && AllDigits(s[14..16]);
      Some(Stamp(TwoDigitsValue(s[0..2]), TwoDigitsValue(s[3..5]), FourDigitsValue(s[6..10]),
                 TwoDigitsValue(s[11..13]), TwoDigitsValue(s[14..16])))
    else None
  }

  /** Reading back a rendered watering time gives its day, month, year,
      hour and minute. */
  lemma FormatThenParse(t: DateTime)
    ensures ParseWateringTime(FormatWateringTime(t)) == Some(StampOf(t))
  {
    var s := FormatWateringTime(t);
    assert s[0..2] == TwoDigits(t.day) && s[3..5] == TwoDigits(t.month);
    assert s[6..10] == FourDigits(t.year);
    assert s[11..13] == TwoDigits(t.hour) && s[14..16] == TwoDigits(t.minute);
    TwoDigitsRoundTrip(t.day, "");
    TwoDigitsRoundTrip(t.month, "");
    FourDigitsRoundTrip(t.year, "");
    TwoDigitsRoundTrip(t.hour, "");
    TwoDigitsRoundTrip(t.minute, "");
  }

  /** Every string of the watering-time shape is the rendering of the
      fields read out of it. */
  lemma ParseThenFormat(s: string)
    requires IsWateringTimeShape(s)
    ensures FormatStamp(ParseWateringTime(s).value) == s
  {
    var st := ParseWateringTime(s).value;
    TwoDigitsRoundTrip(0, s[0..2]);
    TwoDigitsRoundTrip(0, s[3..5]);
    FourDigitsRoundTrip(0, s[6..10]);
    TwoDigitsRoundTrip(0, s[11..13]);
    TwoDigitsRoundTrip(0, s[14..16]);
    var f := FormatStamp(st);
    assert f[0..2] == s[0..2] && f[3..5] == s[3..5] && f[6..10] == s[6..10];
    assert f[11..13] == s[11..13] && f[14..16] == s[14..16];
    assert forall i :: 0 <= i < 16 ==> f[i] == s[i] by {
      forall i | 0 <= i < 16 ensures f[i] == s[i] {
        if i < 2 { assert f[i] == f[0..2][i]; }
        else if 3 <= i < 5 { assert f[i] == f[3..5][i - 3]; }
        else if 6 <= i < 10 { assert f[i] == f[6..10][i - 6]; }
        else if 11 <= i < 13 { assert f[i] == f[11..13][i - 11]; }
        else if 14 <= i { assert f[i] == f[14..16][i - 14]; }
      }
    }
  }

  /** Two watering times render alike exactly when they agree to the minute. */
  lemma WateringTimeDeterminesMinute(a: DateTime, b: DateTime)
    ensures FormatWateringTime(a) == FormatWateringTime(b) <==> StampOf(a) == StampOf(b)
  {
    FormatThenParse(a);
    FormatThenParse(b);
  }

  // ---------------------------------------------------------------------
  // The entity

  class Plant {
    var name: string
    var plantType: PlantType
    var age: int
    var height: real
    var plantingDate: DateTime
    var isFlowering: bool
    var lastWatered: string

    /** Every guarded field holds a value its setter accepts. The "not in the
        future" half of the planting-date rule is relative to the moment of
        assignment, so only the year is part of the invariant. */
    ghost predicate Valid()
      reads this
    {
      && ValidName(name) && ValidAge(age) && ValidHeight(height)
      && plantingDate.year >= EarliestPlantingYear
    }

    /** The object before its constructor body runs: the CLR's default field
        values and the two property initialisers. The name stands for the
        CLR default `null`, and `Tree` for `(PlantType)0`; no caller sees
        either, because `Create` hands the object out only after every
        setter has accepted its argument. */
    constructor Blank()
      ensures name == [] && plantType == Tree && age == 0 && height == 0.0
      ensures plantingDate == Moment(1, 1, 1, 0, 0, 0, 0)
      ensures isFlowering && lastWatered == NeverWatered
    {
      name := [];
      plantType := Tree;
      age := 0;
      height := 0.0;
      plantingDate := Moment(1, 1, 1, 0, 0, 0, 0);
      isFlowering := true;
      lastWatered := NeverWatered;
    }

    /** `new Plant(name, type, age, height, plantingDate)`: either a fresh,
        valid plant holding exactly the arguments, or no plant and the first
        rule broken. */
    static method Create(name: string, plantType: PlantType, age: int, height: real,
                         plantingDate: DateTime, now: DateTime)
      returns (p: Plant?, r: Outcome)
      ensures r == CheckConstruction(name, plantType, age, height, plantingDate, now)
      ensures p != null <==> r == Pass
      ensures p != null ==> fresh(p) && p.Valid()
      ensures p != null ==>
                && p.name == name && p.plantType == plantType && p.age == age
                && p.height == height && p.plantingDate == plantingDate
                && p.isFlowering && p.lastWatered == NeverWatered
    {
      var q := new Plant.Blank();
      p := null;
      r := q.SetName(name);
      if r.Fail? { return; }
      r := q.SetType(plantType);
      r := q.SetAge(age);
      if r.Fail? { return; }
      r := q.SetHeight(height);
      if r.Fail? { return; }
      r := q.SetPlantingDate(plantingDate, now);
      if r.Fail? { return; }
      p := q;
    }

    method SetName(value: string) returns (r: Outcome)
      modifies this`name
      ensures r == CheckName(value)
      ensures name == if r == Pass then value else old(name)
      ensures old(Valid()) ==> Valid()
    {
      r := CheckName(value);
      if r == Pass {
        name := value;
      }
    }

    method SetType(value: PlantType) returns (r: Outcome)
      modifies this`plantType
      ensures r == Pass && plantType == value
      ensures old(Valid()) ==> Valid()
    {
      r := CheckType(value);
      plantType := value;
    }

    method SetAge(value: int) returns (r: Outcome)
      modifies this`age
      ensures r == CheckAge(value)
      ensures age == if r == Pass then value else old(age)
      ensures old(Valid()) ==> Valid()
    {
      r := CheckAge(value);
      if r == Pass {
        age := value;
      }
    }

    method SetHeight(value: real) returns (r: Outcome)
      modifies this`height
      ensures r == CheckHeight(value)
      ensures height == if r == Pass then value else old(height)
      ensures old(Valid()) ==> Valid()
    {
      r := CheckHeight(value);
      if r == Pass {
        height := value;
      }
    }

    method SetPlantingDate(value: DateTime, now: DateTime) returns (r: Outcome)
      modifies this`plantingDate
      ensures r == ValidatePlantingDate(value, now)
      ensures plantingDate == if r == Pass then value else old(plantingDate)
      ensures old(Valid()) ==> Valid()
    {
      r := ValidatePlantingDate(value, now);
      if r == Pass {
        plantingDate := value;
      }
    }

    /** Grow goes through the Height setter, so the upper bound is checked
        again after growth. */
    method Grow(growth: real) returns (r: Outcome)
      modifies this`height
      ensures r == GrowthOutcome(old(height), growth)
      ensures height == HeightAfterGrowth(old(height), growth)
      ensures r == Pass <==> height == old(height) + growth && growth > 0.0
      ensures old(Valid()) ==> Valid()
    {
      if growth <= 0.0 {
        return Fail(NonPositiveGrowth);
      }
      r := SetHeight(height + growth);
    }

    /** WaterPlant, with the current moment passed in. */
    method WaterPlant(now: DateTime)
      modifies this`lastWatered
      ensures lastWatered == FormatWateringTime(now)
      ensures ParseWateringTime(lastWatered) == Some(StampOf(now))
      ensures old(Valid()) ==> Valid()
    {
      lastWatered := FormatWateringTime(now);
      FormatThenParse(now);
    }

    function AgeCategory(): (s: string)
      reads this
      ensures s == YoungLabel <==> age < 2
      ensures s == AdultLabel <==> 2 <= age < 10
      ensures s == OldLabel <==> age >= 10
    {
      if age < 2 then YoungLabel
      else if age < 10 then AdultLabel
      else OldLabel
    }

    function IsMature(): (b: bool)
      reads this
      ensures b <==> age > 5
    {
      age > 5
    }

    /** GetPlantingInfo: the name, then the planting date as "dd.MM.yyyy",
        which is the date half of the watering-time rendering (in a culture
        with the Gregorian calendar). */
    function PlantingInfo(): (s: string)
      reads this
      ensures |s| == |name| + |PlantedPhrase| + 11
      ensures s[..|name|] == name && s[|s| - 1] == '.'
      ensures s[|name|..|name| + |PlantedPhrase|] == PlantedPhrase
      ensures s[|s| - 11..|s| - 1] == FormatWateringTime(plantingDate)[..10]
    {
      name + PlantedPhrase
        + FormatDate(plantingDate.day, plantingDate.month, plantingDate.year) + "."
    }
  }

  /** A mature plant is never young, and an old one is always mature. */
  lemma MaturityAgainstCategory(p: Plant)
    ensures p.IsMature() ==> p.AgeCategory() != YoungLabel
    ensures p.AgeCategory() == OldLabel ==> p.IsMature()
  {
  }

  /** The boundary ages of the category rule and of maturity. */
  lemma AgeBoundaries(p: Plant)
    ensures p.age == 1 ==> p.AgeCategory() == YoungLabel
    ensures p.age == 2 ==> p.AgeCategory() == AdultLabel
    ensures p.age == 9 ==> p.AgeCategory() == AdultLabel
    ensures p.age == 10 ==> p.AgeCategory() == OldLabel
    ensures p.age == 5 ==> !p.IsMature()
    ensures p.age == 6 ==> p.IsMature()
  {
  }
}
