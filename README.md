# Plant — a verified Dafny model

This project models the `Plant` class of `OOP_Lab2_Poryshkin`: a plant with a
name, a type, an age, a height, a planting date, a flowering flag and the time
it was last watered. Every guarded field is assigned only through a setter that
checks the new value first. Validation covers:

- the name: not blank, 2 to 50 characters, letters and spaces only;
- the age: 0 to 5000 years;
- the height: above 0 and at most 115.7 m, the height of Hyperion;
- the planting date: not before 1900 and not in the future.

A rejected value leaves the field as it was. The class also has these operations:

- `Grow` adds a positive amount to the height.
- `WaterPlant` records the current time as `dd.MM.yyyy HH:mm`.
- `AgeCategory` and `IsMature` classify the plant by age.
- `GetPlantingInfo` renders the planting date.

Modules:

- `Calendar` (`calendar.dfy`) models the parts of `System.DateTime` the class uses:
  - a moment as calendar fields of the Gregorian calendar, down to the 100 ns tick;
  - the chronological order behind `date > DateTime.Now`;
  - the zero-padded digit fields behind the `dd`, `MM`, `yyyy`, `HH` and `mm` format specifiers.
- `Plants` (`plants.dfy`) covers the validation rules as functions that return an
  `Outcome`: `Pass`, or `Fail` with the rule that was broken. It also holds the
  `Plant` class. Its setters are methods that return that `Outcome` and change only
  their own field. `Create` stands for the constructor and runs the setters in the
  constructor's order. `Grow` and `WaterPlant` are there too, with the pure
  functions and lemmas their contracts are stated against.
- `DoubleHeight` (`double_height.dfy`) checks the height and growth guards against
  IEEE doubles: finite values, the infinities and NaN. See "## Findings".

`Grow` writes `Height += growth` (Plant.cs:124). That assignment goes through the
`Height` setter. So the 115.7 m bound is checked again after growth, and growth
cannot break the class invariant. The model follows this code. It does not treat
growth as a path that bypasses the bound.

## Model

| member | source | states |
|---|---|---|
| `Calendar.LaterIsStrictTotalOrder` | OOP_Lab2_Poryshkin/Plant.cs:94 | the `>` used to compare a planting date with the current moment is irreflexive, transitive and total on moments |
| `Calendar.LaterYear` | OOP_Lab2_Poryshkin/Plant.cs:92-94 | a moment in a later year is later, whatever its other fields |
| `Calendar.TwoDigitsRoundTrip` | OOP_Lab2_Poryshkin/Plant.cs:100 | the two-digit fields `dd`, `MM`, `HH`, `mm` read back as the number written, and any two digits are the rendering of their value |
| `Calendar.FourDigitsRoundTrip` | OOP_Lab2_Poryshkin/Plant.cs:100 | the same two directions for the four-digit `yyyy` field |
| `Plants.CheckName` | OOP_Lab2_Poryshkin/Plant.cs:14-19 | accepts exactly the non-blank names of 2–50 letters and spaces; on rejection names the first failing rule in the order blank, length, characters, each stated as an if-and-only-if |
| `Plants.IsNullOrWhiteSpaceMeans` | OOP_Lab2_Poryshkin/Plant.cs:14 | the blank test holds exactly when every character is white space (the empty string included) |
| `Plants.AllNameCharsMeans` | OOP_Lab2_Poryshkin/Plant.cs:18 | the `All` test holds exactly when every character is a letter or a space |
| `Plants.ValidNameHasLetter` | OOP_Lab2_Poryshkin/Plant.cs:14-19 | a name is accepted exactly when it is 2–50 letters and spaces with at least one letter |
| `Plants.ApostropheNameAccepted` | OOP_Lab2_Poryshkin/Plant.cs:18 | the name "Мʼята", written with the modifier-letter apostrophe, is accepted, and "Мʼята 2" is refused for its characters |
| `Plants.CheckType` | OOP_Lab2_Poryshkin/Plant.cs:29-30 | every value of the closed plant-type enumeration is accepted |
| `Plants.CheckAge` | OOP_Lab2_Poryshkin/Plant.cs:40-41 | accepts exactly 0 ≤ age ≤ 5000, otherwise reports the age rule |
| `Plants.CheckHeight` | OOP_Lab2_Poryshkin/Plant.cs:51-52 | accepts exactly 0 < height ≤ 115.7, otherwise reports the height rule |
| `Plants.ValidatePlantingDate` | OOP_Lab2_Poryshkin/Plant.cs:90-96 | accepts exactly a date of year ≥ 1900 not after now; a year before 1900 is reported first, a future date second |
| `Plants.PlantingDateStaysValid` | OOP_Lab2_Poryshkin/Plant.cs:90-96 | a date accepted at one moment is accepted at every later moment |
| `Plants.NoPlantingDateBefore1900` | OOP_Lab2_Poryshkin/Plant.cs:92-95 | while the clock reads a year before 1900, no planting date is accepted |
| `Plants.CheckConstruction` | OOP_Lab2_Poryshkin/Plant.cs:81-88 | construction succeeds exactly when all five arguments pass their rules; otherwise it reports the first failing argument in the order name, type, age, height, planting date |
| `Plants.GrowthOutcome` | OOP_Lab2_Poryshkin/Plant.cs:120-124 | growth succeeds exactly when it is positive and the new height is within (0, 115.7]; a growth ≤ 0 is reported as a non-positive growth, and a positive growth that leaves the range is reported as the height rule, as the setter reports it |
| `Plants.HeightAfterGrowth` | OOP_Lab2_Poryshkin/Plant.cs:120-124 | after one growth the height is the old height or old + growth, changes exactly when growth is accepted, never decreases and stays in (0, 115.7] |
| `Plants.GrowthsKeepHeightValid` | OOP_Lab2_Poryshkin/Plant.cs:120-124 | after any series of growths a valid height is still valid and no lower |
| `Plants.GrowthsAddAcceptedAmounts` | OOP_Lab2_Poryshkin/Plant.cs:120-124 | after any series of growths the height is the start height plus the sum of the growths `Grow` accepted, each judged by its own guard and the height setter against the height reached before it |
| `Plants.FormatWateringTime` | OOP_Lab2_Poryshkin/Plant.cs:98-101 | the rendering is 16 characters: digits, with `.` at 2 and 5, a space at 10 and `:` at 13 |
| `Plants.ParseWateringTime` | OOP_Lab2_Poryshkin/Plant.cs:98-101 | reads day, month, year, hour and minute out of exactly the strings of the watering-time shape |
| `Plants.FormatThenParse` | OOP_Lab2_Poryshkin/Plant.cs:98-101 | reading back a rendered time gives the moment's day, month, year, hour and minute |
| `Plants.ParseThenFormat` | OOP_Lab2_Poryshkin/Plant.cs:98-101 | every string of the watering-time shape is the rendering of the fields read from it |
| `Plants.WateringTimeDeterminesMinute` | OOP_Lab2_Poryshkin/Plant.cs:98-101 | two moments render the same exactly when they agree to the minute |
| `Plants.Plant.Blank` | OOP_Lab2_Poryshkin/Plant.cs:3-7 | the object before the constructor body runs: default field values, flowering, and "Ніколи" as the last watering |
| `Plants.Plant.Create` | OOP_Lab2_Poryshkin/Plant.cs:81-88 | runs the setters in order; on success it returns a fresh valid plant holding exactly its arguments, flowering and never watered; on failure it returns no plant and the first rule broken |
| `Plants.Plant.SetName` | OOP_Lab2_Poryshkin/Plant.cs:12-21 | reports the name rule's verdict, stores the value only when accepted, changes no other field, and keeps the invariant |
| `Plants.Plant.SetType` | OOP_Lab2_Poryshkin/Plant.cs:27-32 | always accepts and stores the type, and changes no other field |
| `Plants.Plant.SetAge` | OOP_Lab2_Poryshkin/Plant.cs:38-43 | reports the age rule's verdict, stores the value only when accepted, changes no other field, and keeps the invariant |
| `Plants.Plant.SetHeight` | OOP_Lab2_Poryshkin/Plant.cs:49-54 | reports the height rule's verdict, stores the value only when accepted, changes no other field, and keeps the invariant |
| `Plants.Plant.SetPlantingDate` | OOP_Lab2_Poryshkin/Plant.cs:60-64 | reports the planting-date verdict against the given moment, stores the value only when accepted, changes no other field, and keeps the invariant |
| `Plants.Plant.Grow` | OOP_Lab2_Poryshkin/Plant.cs:120-126 | the height becomes old + growth exactly when growth is positive and the sum is within the bound; otherwise nothing changes; only the height is touched, and the invariant is kept |
| `Plants.Plant.WaterPlant` | OOP_Lab2_Poryshkin/Plant.cs:103-108 | only the last-watered text changes; it becomes the rendering of the given moment and reads back as that moment's minute |
| `Plants.Plant.AgeCategory` | OOP_Lab2_Poryshkin/Plant.cs:69-77 | "Молода" exactly below 2, "Доросла" exactly for 2 to 9, "Стара" exactly from 10 |
| `Plants.Plant.IsMature` | OOP_Lab2_Poryshkin/Plant.cs:133-136 | mature exactly when older than 5, reading state only |
| `Plants.Plant.PlantingInfo` | OOP_Lab2_Poryshkin/Plant.cs:128-131 | the text is the name, then the literal " було висаджено ", then the planting date as the `dd.MM.yyyy` half of the watering-time rendering, then `.` |
| `Plants.MaturityAgainstCategory` | OOP_Lab2_Poryshkin/Plant.cs:133-136 | a mature plant is never "Молода", and a "Стара" plant is always mature |
| `Plants.AgeBoundaries` | OOP_Lab2_Poryshkin/Plant.cs:69-77 | ages 1, 2, 9 and 10 fall in Молода, Доросла, Доросла and Стара; age 5 is not mature and 6 is |
| `DoubleHeight.HeightGuardAsWrittenOnNumbers` | OOP_Lab2_Poryshkin/Plant.cs:51 | on every double except NaN, the guard as written accepts exactly the finite values in (0, 115.7] |
| `DoubleHeight.NaNGrowthCorruptsHeight` | OOP_Lab2_Poryshkin/Plant.cs:120-124 | as written, `Grow(double.NaN)` passes both guards, and the height setter accepts NaN, so the height becomes NaN |
| `DoubleHeight.HeightAccepted` | OOP_Lab2_Poryshkin/Plant.cs:51-52 | the corrected guard accepts exactly the finite values in (0, 115.7]; it agrees with the guard as written everywhere except at NaN |
| `DoubleHeight.CorrectedGrowthKeepsHeightValid` | OOP_Lab2_Poryshkin/Plant.cs:120-124 | with the corrected guard, no growth (NaN and infinities included) takes a valid height out of range; on finite growth it is `HeightAfterGrowth` |

## Left out

- Console output of `WaterPlant` and `Grow` (Plant.cs:107, 125) is I/O. The model neither produces nor returns these notices.
- The clock: the current moment is a parameter, `now`, of `Create`, `SetPlantingDate` and `WaterPlant`.
- Timestamps from successive waterings do not decrease. This depends on the clock, which is not modelled.
- `GetDescription` and `GetFormattedDescription` (Plant.cs:110-118) are left out. They depend on the runtime's culture-dependent rendering of doubles and enum names.
- Height is a `real`. IEEE rounding of `Height + growth` is not modelled. NaN and the infinities appear only in `DoubleHeight`.
- Plants.IsLetter: accepts only the letters of Basic Latin, Latin-1 Supplement, Latin Extended-A and -B, IPA Extensions, Spacing Modifier Letters (which hold U+02BC, the apostrophe in "Мʼята"), Latin Extended Additional, Cyrillic, Cyrillic Supplement, and Cyrillic Extended-B and -C. `char.IsLetter` also accepts letters of every other script, which the model rejects. For example, a name containing Greek `α` (U+03B1) is refused by `CheckName` with `NameCharacters` and accepted by the source.
- Plants.CheckName: measures length in Unicode scalar values, not UTF-16 code units. A name with characters outside the Basic Multilingual Plane is counted shorter than `string.Length` would count it.
- Strings cannot be null in Dafny, so the null case of `IsNullOrWhiteSpace` has no counterpart.
- `PlantType` is a closed datatype. `Enum.IsDefined` therefore always holds, and the type rule never rejects. The enumeration's real members are not part of this model. Integer values cast to the enum type that are not defined members are not represented.
- Exception messages are reduced to the `PlantError` kind that names the rule.
- Calendar.Later: compares calendar fields lexicographically. For well-formed moments this is the order of `DateTime.Ticks`. `DateTimeKind` and time zones are ignored.
- Plants.FormatWateringTime: assumes a culture whose calendar is the Gregorian one, with `:` as its time separator, as the invariant and Ukrainian cultures have. A culture with another calendar (th-TH writes `yyyy` in the Thai Buddhist era) or another time separator renders `FormatWateringTime` and `PlantingInfo` differently.
- Plants.Plant.Valid: holds only the year half of the planting-date rule. "Not in the future" is relative to the moment of assignment; `PlantingDateStaysValid` shows that it cannot become false later.
- `IsFlowering` is a plain field without validation, as in the source.

## Findings

| source | as written | input that shows it | evidently intended | confidence | as-written member | corrected member |
|---|---|---|---|---|---|---|
| OOP_Lab2_Poryshkin/Plant.cs:51 | the setter rejects only when `value <= 0 \|\| value > 115.7`. Both comparisons are false for NaN, so NaN is stored. `Grow` inherits this: its guard `growth <= 0` is also false for NaN. | `plant.Height = double.NaN`, or `plant.Grow(double.NaN)` on any valid plant | the height is a number in (0, 115.7], as the setter's message states | high; not executed | `DoubleHeight.NaNGrowthCorruptsHeight` | `DoubleHeight.HeightAccepted` |
