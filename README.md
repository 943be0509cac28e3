# Kanji worksheet selection and kanken rating, in Dafny

This project models the core of a kanji worksheet generator: the in-memory
kanji store, the query language that selects records from it, and the
one-shot rater that gives each joyo kanji its kanken (proficiency exam) level.

- `generate.py` keeps every record in a dictionary from key to list of
  records. A record is filed under its grade ("1".."6", "S") and, when it has
  a kanken level, also under "k" + that level. `selectRecords` reads a query
  such as `1-3,S,k4-2`. It splits the query into comma-separated clauses, and
  each clause into keys. A clause of two dash-separated endpoints is a range:
  a kanken range when an endpoint starts with "k", otherwise a grade range in
  which "s" counts as 7. A kanken range goes through the two literal
  `REMAP_KK_INT` / `REMAP_INT_KK` tables. Every key is looked up, and the
  records found are gathered into one duplicate-free set.
- `builddb/addkanken.py` files records by grade only. `applyRating` then
  overwrites the `kanken` field of every record:
  - grades 1..6 count down from level 10 to level 5;
  - an "S" kanji gets 4, 3 or 2.5 by the first kanken list that holds it, else 2.

  Beside it are the string clean-ups of the loader and the exporter.

Modules:

- `Wrappers`: Option and Result.
- `Text`: the Python string operations used, i.e. split on one character,
  join, ASCII `lower`, `int()` on decimal digits, and `str()` of a natural
  number.
- `DictIndex`: the get-or-create-then-append dictionary of lists, as the class
  `ListDict`.
- `Remap`: the two tables.
- `KanjiStore`: the generator's records, `addRecord`, `newEmptyDb`.
- `Selection`: `selectRecords`, as a method with loops, proved equal to the
  pure `Resolve`.
- `QueryLaws`: what each kind of query selects from a store built by
  `addRecord`.
- `AddKanken`: the builder's records, `addRecord`, the rater class, and the
  reading and footnote clean-ups.

Records are classes, so a record reached through two keys is one object, as
with Python references. Exceptions are values:

- `selectRecords` returns `Err(IndexError | KeyError | ValueError)`;
- `applyRating` returns `ok == false` where Python raises a `TypeError`.

## Model

| member | source | states |
|---|---|---|
| Text.Split | generate.py:208 | `str.split` on one character gives one piece more than there are separators, and no piece holds the separator |
| Text.Lower | generate.py:214-215 | `lower()` keeps the length, turns each capital letter into its own small letter and changes no other character |
| Text.NatToDecimal | generate.py:253 | `str(n)` is a non-empty string of decimal digits without a leading zero |
| Text.DecimalRoundTrip | generate.py:242-243 | `int(str(n)) == n` |
| Text.DecimalInjective | generate.py:253 | distinct numbers have distinct decimal forms |
| Text.JoinSplit | builddb/addkanken.py:66 | joining the pieces of a split with the separator rebuilds the text |
| Text.SplitJoin | generate.py:316 | splitting a join of separator-free pieces (at least one) gives the pieces back |
| Text.SplitKeepsAbsent | builddb/addkanken.py:65-66 | a character absent from a text is absent from every piece of its split |
| Remap.TablesAreInverse | generate.py:198-202 | both tables have exactly 12 entries, each undoes the other entry by entry, and the index keys are exactly the level table's values |
| Remap.IndicesAreDecimals | generate.py:201-202 | the indices are exactly `str(n)` for n in 1..12 |
| Remap.KankenIndex | generate.py:238-243 | `int(REMAP_KK_INT[level])` lies in 1..12 and its `str()` is the table entry |
| Remap.KankenLevel | generate.py:257 | `REMAP_INT_KK[str(n)]` is a kanken level whose index is n |
| Remap.LevelOfIndex | generate.py:198-202 | level, then index, then level again, gives back the level |
| Remap.HalfLevelsInterleave | generate.py:198-199 | 1.5 and 2.5 sit between the whole levels: 1→1, 1.5→2, 2→3, 2.5→4, 3→5, 10→12 |
| DictIndex.Appended | generate.py:277-284 | the list under the key grows by the record at its end, starting from empty when absent; the key becomes present; every other list is unchanged |
| DictIndex.ListDict.constructor | generate.py:299-300 | a new dictionary has no keys |
| DictIndex.ListDict.AppendUnder | generate.py:278-284 | get, create on first use, then append, leaves the dictionary `Appended` describes |
| KanjiStore.KanjiRecord.constructor | generate.py:10-16 | a record holds the glyph, grade, kanken level, gloss and readings it was given |
| KanjiStore.FiledUnder | generate.py:284-297 | a record is among the copies filed under a key exactly when it belongs there, and nothing else is |
| KanjiStore.AddToIndex | generate.py:273-297 | every list grows at its end by the copies of the record that belong under its key; the keys gained are the grade key and, for a rated record, "k" + level |
| KanjiStore.NewEmptyDb | generate.py:299-300 | a fresh, empty store |
| KanjiStore.AddRecord | generate.py:273-297 | the store after `addRecord` is `AddToIndex` of the store before |
| KanjiStore.AddKeepsWellFiled | generate.py:273-297 | adding keeps every record under keys it belongs to |
| KanjiStore.IndexOfLookup | generate.py:310-318 | after adding records in order, each list holds exactly the records that belong under its key, in input order |
| KanjiStore.IndexOfMembership | generate.py:310-318 | a record is under a key of the built store exactly when it was added and belongs there |
| KanjiStore.LoadDb | generate.py:302-320 | the loading loop over already-built records gives a fresh store equal to `IndexOf(records)` |
| Selection.GradeKeys | generate.py:253-254 | a grade range of lo..hi yields hi - lo + 1 keys |
| Selection.KankenKeys | generate.py:257 | a kanken range of lo..hi yields hi - lo + 1 keys |
| Selection.SelectRecords | generate.py:204-271 | the loops over clauses and keys return `Resolve`, the first clause error, or the union of the records under every expanded key |
| Selection.ExpandClauses | generate.py:208-261 | the clause loop gives the keys of every clause in order, or the first clause's exception |
| Selection.GatherRecords | generate.py:265-270 | the union loop gives the records under any of the keys, an absent key adding none |
| Selection.ErrorPropagates | generate.py:210-259 | once a clause raises, the whole query raises that error |
| Selection.SelectedMembership | generate.py:265-271 | a record is in the result exactly when it is under one of the expanded keys; absent keys add nothing |
| Selection.SelectedAppend | generate.py:267-269 | gathering two key lists one after the other gives the union of the two gatherings |
| Selection.ClauseListAppend | generate.py:208-261 | the keys of two clause lists are both lists' keys in order, or the first error |
| Selection.ResolveUnion | generate.py:204-271 | "x,y" raises the first error of "x" and "y", and otherwise selects the union of their selections |
| Selection.GradeKeyInjective | generate.py:253 | distinct grade-scale integers have distinct keys, 7 included |
| Selection.GradeKeysMembership | generate.py:253-254 | the key of x is in the grade range exactly when lo <= x <= hi |
| Selection.KankenKeysMembership | generate.py:257 | "k" + level is in the kanken range exactly when the level's index lies in it, and every key there has that form |
| Selection.RangeSucceedsExactlyWhen | generate.py:213-243 | a range succeeds exactly for two grade endpoints or two kanken endpoints with a "k" marker. Otherwise: an empty endpoint gives IndexError, an unknown kanken level KeyError, a non-numeric grade endpoint ValueError |
| Selection.GradeRangeKeys | generate.py:229-254 | a grade range yields exactly the keys of the integers between its endpoint values, "s" counting as 7 |
| Selection.KankenRangeKeys | generate.py:218-257 | a kanken range yields exactly "k" + each level whose index lies between the endpoints' indices |
| Selection.RangeSymmetric | generate.py:246-247 | swapping the endpoints changes neither the keys nor the error |
| Selection.RangeClause | generate.py:212-215 | a clause "a-b" without further dashes is the range of the lower-cased endpoints |
| Selection.SingleClause | generate.py:208-271 | a comma-free query selects what its one clause's keys select, or raises its error |
| Selection.ResolveSymmetric | generate.py:246-247 | the queries "a-b" and "b-a" select the same records or raise the same error |
| Selection.NonRangeClause | generate.py:260-261 | a clause that does not split into exactly two endpoints is the single key of its lower-cased text and never raises |
| Selection.ExampleGradeRanges | generate.py:229-254 | "1-3" yields 1, 2, 3, and "5-s" yields 5, 6, S |
| Selection.ExampleKankenRange | generate.py:218-257 | "k4-2" yields k2, k2.5, k3, k4 |
| Selection.ExampleBareClauses | generate.py:212-261 | "1-2-3" is the single key "1-2-3", not an error; "S" and "s" are both the key "s" |
| Selection.ExampleEmptyEndpoint | generate.py:219 | "-3" raises IndexError |
| Selection.ExampleUnknownKanken | generate.py:238-239 | "k4-x" raises KeyError |
| Selection.ExampleNotANumber | generate.py:242-243 | "1-x" raises ValueError |
| QueryLaws.SelectedFromIndex | generate.py:265-271 | the keys select from a built store exactly the added records that belong under one of them |
| QueryLaws.SingleKeySelects | generate.py:267-269 | one key selects exactly the added records that belong under it |
| QueryLaws.BareTokenSelects | generate.py:260-269 | a bare lower-case token selects exactly the records that belong under it |
| QueryLaws.GradeTokenSelects | generate.py:260-269 | a token not starting with "k", such as "1".."6", selects exactly the records of that grade, whatever their kanken level |
| QueryLaws.KankenTokenSelects | generate.py:260-269 | "k" + level selects exactly the records rated at that level |
| QueryLaws.GradeRangeSelects | generate.py:229-269 | a grade range selects exactly the records whose grade is the key of an integer in the range |
| QueryLaws.KankenRangeSelects | generate.py:218-269 | a kanken range selects exactly the records rated at a level whose index lies between the endpoints' indices |
| QueryLaws.FullKankenRangeSelects | generate.py:218-269 | "k10-1" selects every record rated at one of the twelve levels |
| QueryLaws.BareSSelectsLowerS | generate.py:260-269 | as written, "S" and "s" both select exactly the records whose grade is spelled "s" |
| QueryLaws.RangeSSSelectsGradeS | generate.py:229-269 | as written, the range "s-s" selects exactly the records graded "S" |
| QueryLaws.BareSMissesGradeS | generate.py:260-261 | as written, "S" expands to "s" and selects nothing from a store with a grade-"S" record and no grade-"s" one, while "s-s" selects that record |
| QueryLaws.IntendedClauseKeys | generate.py:211-261 | the intended clause keys are those of the code as written for every clause other than a bare "s"/"S" |
| QueryLaws.IntendedDiffersOnlyOnBareS | generate.py:260-261 | the intended and the written clause keys differ exactly on a bare "s" or "S" |
| QueryLaws.IntendedListAgrees | generate.py:208-261 | a clause list with no bare "s"/"S" expands to the same keys, or the same error, as written and as intended |
| QueryLaws.IntendedAgrees | generate.py:204-271 | a query with no bare "s"/"S" clause selects the same records, or raises the same error, as written and as intended |
| QueryLaws.IntendedSingleClause | generate.py:208-271 | as intended, a comma-free query selects what its one clause's keys select, or raises its error |
| QueryLaws.BareSSelectsGradeS | generate.py:253-261 | as intended, "S" and "s" each select exactly the grade-"S" records, which is what "s-s" selects as written |
| AddKanken.KanjiRecord.constructor | builddb/addkanken.py:3-9 | a new record holds its glyph, grade, gloss and readings, and has no kanken level |
| AddKanken.AddRecord | builddb/addkanken.py:43-51 | the record is appended under its grade key, created on first use; every other key is unchanged |
| AddKanken.AddKeepsFiledByGrade | builddb/addkanken.py:43-51 | adding keeps every record under its own grade key |
| AddKanken.RatedGradeKeys | builddb/addkanken.py:22-23 | `str(kyoiku)` for kyoiku 1..6 are the keys "1".."6" the rater visits |
| AddKanken.Reached | builddb/addkanken.py:22-33 | the rater gets through exactly the rated keys before the first missing one |
| AddKanken.KanjiRecordKankenRater.constructor | builddb/addkanken.py:12-16 | the rater holds the store and the three kanken lists |
| AddKanken.KanjiRecordKankenRater.SRating | builddb/addkanken.py:34-41 | an "S" kanji is level 4 if in the level-4 list, else 3 if in the level-3 list, else 2.5 if in the level-2.5 list, else 2 |
| AddKanken.KanjiRecordKankenRater.ApplyRating | builddb/addkanken.py:18-41 | fails exactly when a rated key is missing; the store is unchanged; every record in it ends with the level of the last rated list holding it among the keys reached, or keeps its level |
| AddKanken.KanjiRecordKankenRater.RateSchoolGrades | builddb/addkanken.py:19-26 | the grade loop fails exactly when one of "1".."6" is missing; every record ends with the countdown level of the last grade list reached that holds it, or keeps its level |
| AddKanken.KanjiRecordKankenRater.RateGradeKey | builddb/addkanken.py:22-26 | one grade's pass gives the records under that grade `str(10 - n)` and leaves every other record of the store alone |
| AddKanken.KanjiRecordKankenRater.RateSecondaryKey | builddb/addkanken.py:32-41 | the "S" pass gives the "S" records their list rating and leaves every other record of the store alone |
| AddKanken.KanjiRecordKankenRater.RateAll | builddb/addkanken.py:24-25 | every record of one grade list gets that grade's level |
| AddKanken.KanjiRecordKankenRater.RateSecondary | builddb/addkanken.py:33-41 | every "S" record gets the level its kanji's first list gives |
| AddKanken.AfterOwnKey | builddb/addkanken.py:22-41 | in a store filed by grade, a record keeps the level of its own grade once the rater has passed it |
| AddKanken.AfterUnrated | builddb/addkanken.py:18-41 | a record under none of "1".."6", "S" keeps its level |
| AddKanken.RatedByGrade | builddb/addkanken.py:20-41 | after a complete rating of a store filed by grade, a grade-g record (g in 1..6) has level `str(11 - g)`, and an "S" record the level its lists give |
| AddKanken.RatingsAreKankenLevels | builddb/addkanken.py:25-41 | every level the rater writes is a key of `REMAP_KK_INT` |
| AddKanken.RatedLevelsAreKankenLevels | builddb/addkanken.py:18-41 | every record the rater reached holds a level that a kanken range can select |
| AddKanken.ReadingPieces | builddb/addkanken.py:65-66 | the pieces of the field's first line, split at '、', rejoin to that line and hold no '、' and no line break |
| AddKanken.CleanedReadings | builddb/addkanken.py:65-69 | one reading per piece, at least one: each piece cut just before its first '[', whole when it has none, with no '[', '、' or line break left |
| AddKanken.CleanReadings | builddb/addkanken.py:65-69 | the in-place loop over the readings gives `CleanedReadings` of the field |
| AddKanken.StripFootnote | builddb/addkanken.py:126 | the glyph is the kanji text up to its first space: a space-free prefix, the whole text when it has no space |
| AddKanken.ReadingsRoundTrip | builddb/addkanken.py:127 | the generator's `split(',')` of the exported reading column gives back the readings, when there is at least one and none holds a comma |
| AddKanken.CleanedReadingsSurviveExport | builddb/addkanken.py:65-127 | for a comma-free field, cleaning, exporting and loading again gives the cleaned readings back |

## Left out

- `WorksheetGenerator` (HTML rendering, output files) and `_shuffle`: templating and I/O, and nondeterministic library shuffling.
- `loadDbFromCleanCsv`, `loadDbFromCsv`, `loadKankenList` and the CSV export loop of the builder's `main` read and write files. `KanjiStore.LoadDb` models the loading loop over records that are already built. The string clean-ups inside the loaders are modelled as functions.
- `main`, `getopt`, `usage` and the unused Google API imports: command-line handling and foreign libraries.
- Python `lower()` beyond ASCII letters: `Text.Lower` folds only A-Z.
- `int()` leniency: an endpoint with whitespace, a sign, underscores or non-ASCII digits gives ValueError in the model, although Python accepts it.
- Selection.SelectRecords: returns a set. The order of `list(result)` is that of a Python set and is not modelled.
- Exceptions are results. A query error is an `Err` value, and `applyRating`'s `TypeError` on a missing grade is `ok == false`. In both cases the work done before the error (rated records) is kept, as in Python.
- DictIndex.ListDict: keeps its lists as values. In the source no list object is shared between keys or held elsewhere, so in-place `append` and value update agree.
- QueryLaws.KankenTokenSelects: stated for stores in which no grade is spelled like the kanken key. A grade "k4" would otherwise be selected by "k4" as well.
- QueryLaws.KankenRangeSelects: stated for stores whose grades do not start with "k", for the same reason.
- Selection.RangeSymmetric: "the error does not change" holds for the exception's class only. Errors carry no payload in the model, while Python's does: "kx-ky" raises `KeyError('y')` and "ky-kx" raises `KeyError('x')`, because `upper` is looked up first (generate.py:238-239).
- `_getPrefixedName` is not modelled: a trivial naming one-liner of the renderer.

## Findings

| source | as written | input that shows it | evidently intended | confidence | as-written member | corrected member |
|---|---|---|---|---|---|---|
| generate.py:260-261 | a clause that is not a range is only lower-cased, so the bare query "S" looks up the key "s", which `addRecord` never creates for a grade-"S" record | the query "S" on a store holding a record of grade "S" and none of grade "s": the result is empty | "S" (or "s") selects the grade-"S" records, as the range "s-s" does and as the usage line `1-6,S,k10-1` (generate.py:323) offers | not executed | QueryLaws.BareSMissesGradeS | QueryLaws.BareSSelectsGradeS |

`Selection.ClauseKeys`, and with it `Selection.SelectRecords` and
`Selection.Resolve`, follows the code as written: a bare "S" is the key "s"
(`QueryLaws.BareSSelectsLowerS`, `QueryLaws.BareSMissesGradeS`). The intended
behaviour is `QueryLaws.IntendedClauseKeys` and `QueryLaws.IntendedResolve`,
in which a bare "s" or "S" is the grade key "S". They differ from the code as
written on that clause only (`QueryLaws.IntendedDiffersOnlyOnBareS`,
`QueryLaws.IntendedAgrees`).
