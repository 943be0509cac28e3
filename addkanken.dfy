/**
  The database builder (builddb/addkanken.py): records read from the joyo
  table are filed by grade only, then a one-shot rater gives every record of
  grades 1..6 and "S" a kanken level, overwriting the `kanken` field of the
  record objects in place. The string clean-ups of the loader and of the
  exporter are pure functions beside it.
*/
module AddKanken {
  import opened Wrappers
  import opened Text
  import opened DictIndex
  import opened Remap

  /** One kanji entry of the builder; only its kanken level changes after construction. */
  class KanjiRecord {
    const kanji: string
    const grade: string
    const english: string
    const readings: seq<string>
    var kanken: Option<string>

    /** A new record is not rated yet. */
    constructor (kanji: string, grade: string, english: string, readings: seq<string>)
      ensures this.kanji == kanji && this.grade == grade
      ensures this.english == english && this.readings == readings
      ensures kanken == None
    {
      this.kanji := kanji;
      this.grade := grade;
      this.english := english;
      this.readings := readings;
      this.kanken := None;
    }
  }

  /** The builder's store: grade key to the records of that grade. */
  type GradeDb = ListDict<KanjiRecord>

  /** `addRecord(db, record)` of the builder: files the record under its grade key only. */
  method AddRecord(db: GradeDb, record: KanjiRecord)
    modifies db
    ensures db.lists == Appended(old(db.lists), record.grade, record)
  {
    db.AppendUnder(record.grade, record);
  }

  /** Every record in the store sits under its own grade key. */
  ghost predicate FiledByGrade(lists: map<string, seq<KanjiRecord>>)
  {
    forall k: string, i: int :: k in lists && 0 <= i < |lists[k]| ==> lists[k][i].grade == k
  }

  /** Filing a record under its grade keeps every record under its own grade. */
  lemma AddKeepsFiledByGrade(lists: map<string, seq<KanjiRecord>>, record: KanjiRecord)
    requires FiledByGrade(lists)
    ensures FiledByGrade(Appended(lists, record.grade, record))
  {
    var grown: map<string, seq<KanjiRecord>> := Appended(lists, record.grade, record);
    forall k: string, i: int | k in grown && 0 <= i < |grown[k]| ensures grown[k][i].grade == k {
      assert grown[k] == Lookup(lists, k) + (if k == record.grade then [record] else []);
    }
  }

  /** Every record filed in the store, under any key. */
  function Stored(lists: map<string, seq<KanjiRecord>>): set<KanjiRecord>
  {
    set k, r | k in lists && r in lists[k] :: r
  }

  /** The keys the rater visits, in order: the six school grades, then "S". */
  const RatedKeys: seq<string> := ["1", "2", "3", "4", "5", "6", "S"]

  /** `str(kyoiku)` for the school grades 1..6 is the rated key at position kyoiku - 1. */
  lemma RatedGradeKeys()
    ensures forall g :: 1 <= g <= 6 ==> NatToDecimal(g) == RatedKeys[g - 1]
  {
    SmallDecimals();
  }

  /** The rated keys are seven distinct strings. */
  lemma RatedKeysDistinct()
    ensures |RatedKeys| == 7
    ensures forall i, j :: 0 <= i < j < 7 ==> RatedKeys[i] != RatedKeys[j]
  {
  }

  /** How many of the rated keys, from the first, are present in the store. */
  function Reached(lists: map<string, seq<KanjiRecord>>): (n: nat)
    ensures n <= 7
    ensures forall i :: 0 <= i < n ==> RatedKeys[i] in lists
    ensures n < 7 ==> RatedKeys[n] !in lists
  {
    ReachedFrom(lists, 0)
  }

  function ReachedFrom(lists: map<string, seq<KanjiRecord>>, start: nat): (n: nat)
    requires start <= 7
    requires forall i :: 0 <= i < start ==> RatedKeys[i] in lists
    ensures start <= n <= 7
    ensures forall i :: 0 <= i < n ==> RatedKeys[i] in lists
    ensures n < 7 ==> RatedKeys[n] !in lists
    decreases 7 - start
  {
    if start == 7 || RatedKeys[start] !in lists then start else ReachedFrom(lists, start + 1)
  }

  /**
    `KanjiRecordKankenRater`: the store to rate and the three kanken lists
    (the kanji of levels 4, 3 and 2.5) that decide the level of an "S" kanji.
  */
  class KanjiRecordKankenRater {
    const db: GradeDb
    const kk4: set<string>
    const kk3: set<string>
    const kk2_5: set<string>

    constructor (db: GradeDb, kk4: set<string>, kk3: set<string>, kk2_5: set<string>)
      ensures this.db == db && this.kk4 == kk4 && this.kk3 == kk3 && this.kk2_5 == kk2_5
    {
      this.db := db;
      this.kk4 := kk4;
      this.kk3 := kk3;
      this.kk2_5 := kk2_5;
    }

    /**
      The level of a secondary-school kanji: the first of the lists 4, 3, 2.5
      that holds it decides, and a kanji in none of them is level 2.
    */
    function SRating(kanji: string): (level: string)
      ensures kanji in kk4 ==> level == "4"
      ensures kanji !in kk4 && kanji in kk3 ==> level == "3"
      ensures kanji !in kk4 && kanji !in kk3 && kanji in kk2_5 ==> level == "2.5"
      ensures kanji !in kk4 && kanji !in kk3 && kanji !in kk2_5 ==> level == "2"
    {
      if kanji in kk4 then "4"
      else if kanji in kk3 then "3"
      else if kanji in kk2_5 then "2.5"
      else "2"
    }

    /**
      The level written into a record found under the rated key at position
      `n`: the countdown 10, 9, .., 5 for grades 1..6, the list rating for "S".
    */
    function Rating(n: nat, r: KanjiRecord): string
      requires n < 7
    {
      if n < 6 then NatToDecimal(10 - n) else SRating(r.kanji)
    }

    /**
      The kanken of `r` after the rater has gone through the first `n` rated
      keys, starting from `before`: the rating of the last of those lists that
      holds `r` (a later write wins), or `before` when none holds it.
    */
    function AfterKeys(lists: map<string, seq<KanjiRecord>>, n: nat, r: KanjiRecord, before: Option<string>): Option<string>
      requires n <= 7
    {
      if n == 0 then before
      else if r in Lookup(lists, RatedKeys[n - 1]) then Some(Rating(n - 1, r))
      else AfterKeys(lists, n - 1, r, before)
    }

    /** The records the rater may overwrite: those in the lists under the rated keys. */
    function RatedRecords(lists: map<string, seq<KanjiRecord>>): set<KanjiRecord>
    {
      set k, r | k in RatedKeys && k in lists && r in lists[k] :: r
    }

    /**
      `applyRating()`: rates grades 1..6 with the countdown 10..5, then the
      "S" records by the three lists. `ok` is false where Python raises a
      TypeError: a rated key is missing, `db.get` gives None and the loop
      over it fails; the keys before it stay rated. The store itself, keys and
      lists, does not change, and every record in it ends with the level of
      `AfterKeys` over the keys reached.
    */
    method ApplyRating() returns (ok: bool)
      modifies RatedRecords(db.lists)
      ensures ok <==> forall k :: k in RatedKeys ==> k in db.lists
      ensures db.lists == old(db.lists)
      ensures forall r: KanjiRecord :: r in Stored(db.lists) ==>
        r.kanken == AfterKeys(db.lists, Reached(db.lists), r, old(r.kanken))
    {
      ok := RateSchoolGrades();
      if !ok {
        return;
      }
      ghost var lists: map<string, seq<KanjiRecord>> := db.lists;
      if "S" !in db.lists {
        assert Reached(lists) == 6;
        return false;
      }
      var grade := db.lists["S"];
      GradeListRated(lists, 6);
      RateSecondaryKey(lists, grade);
      assert Reached(lists) == 7;
      ok := true;
    }

    /**
      The first loop of `applyRating()`: grades 1..6 get the countdown levels
      10..5, up to the first grade missing from the store.
    */
    method RateSchoolGrades() returns (ok: bool)
      modifies RatedRecords(db.lists)
      ensures ok <==> forall i :: 0 <= i < 6 ==> RatedKeys[i] in db.lists
      ensures forall r: KanjiRecord :: r in Stored(db.lists) ==>
        r.kanken == AfterKeys(db.lists, if Reached(db.lists) < 6 then Reached(db.lists) else 6, r, old(r.kanken))
    {
      ghost var lists: map<string, seq<KanjiRecord>> := db.lists;
      RatedGradeKeys();
      var kanken := 10;
      for kyoiku := 1 to 7
        invariant kanken == 11 - kyoiku
        invariant forall i :: 0 <= i < kyoiku - 1 ==> RatedKeys[i] in lists
        invariant forall r: KanjiRecord :: r in Stored(lists) ==>
          r.kanken == AfterKeys(lists, kyoiku - 1, r, old(r.kanken))
      {
        var key := NatToDecimal(kyoiku);
        assert key == RatedKeys[kyoiku - 1];
        if key !in db.lists {
          assert Reached(lists) == kyoiku - 1;
          return false;
        }
        var grade := db.lists[key];
        GradeListRated(lists, kyoiku - 1);
        RateGradeKey(lists, kyoiku - 1, grade, NatToDecimal(kanken));
        kanken := kanken - 1;
      }
      ok := true;
    }

    /**
      The pass over one school grade, seen from the whole store: the records
      under the rated key at position `n` get the countdown level, and every
      other record keeps its own.
    */
    method RateGradeKey(ghost lists: map<string, seq<KanjiRecord>>, n: nat, grade: seq<KanjiRecord>, level: string)
      requires n < 6 && RatedKeys[n] in lists && grade == lists[RatedKeys[n]]
      requires level == NatToDecimal(10 - n)
      modifies set r | r in grade
      ensures forall r: KanjiRecord :: r in Stored(lists) ==>
        r.kanken == if r in Lookup(lists, RatedKeys[n]) then Some(Rating(n, r)) else old(r.kanken)
    {
      RateAll(grade, level);
    }

    /**
      The pass over the "S" records, seen from the whole store: those records
      get the level their lists give, and every other record keeps its own.
    */
    method RateSecondaryKey(ghost lists: map<string, seq<KanjiRecord>>, grade: seq<KanjiRecord>)
      requires RatedKeys[6] in lists && grade == lists[RatedKeys[6]]
      modifies set r | r in grade
      ensures forall r: KanjiRecord :: r in Stored(lists) ==>
        r.kanken == if r in Lookup(lists, RatedKeys[6]) then Some(Rating(6, r)) else old(r.kanken)
    {
      RateSecondary(grade);
    }

    /** The list under a present rated key is part of the records the rater may overwrite. */
    lemma GradeListRated(lists: map<string, seq<KanjiRecord>>, n: nat)
      requires n < 7 && RatedKeys[n] in lists
      ensures forall r :: r in lists[RatedKeys[n]] ==> r in RatedRecords(lists)
    {
    }

    /** The loop over one school grade: every record of the list gets `level`. */
    method RateAll(grade: seq<KanjiRecord>, level: string)
      modifies set r | r in grade
      ensures forall r :: r in grade ==> r.kanken == Some(level)
    {
      for j := 0 to |grade|
        invariant forall r :: r in grade[..j] ==> r.kanken == Some(level)
      {
        grade[j].kanken := Some(level);
      }
      assert grade[..|grade|] == grade;
    }

    /** The loop over the "S" records: each gets the level its kanji's first list gives. */
    method RateSecondary(grade: seq<KanjiRecord>)
      modifies set r | r in grade
      ensures forall r :: r in grade ==> r.kanken == Some(SRating(r.kanji))
    {
      for j := 0 to |grade|
        invariant forall r :: r in grade[..j] ==> r.kanken == Some(SRating(r.kanji))
      {
        var rec := grade[j];
        if rec.kanji in kk4 {
          rec.kanken := Some("4");
        } else if rec.kanji in kk3 {
          rec.kanken := Some("3");
        } else if rec.kanji in kk2_5 {
          rec.kanken := Some("2.5");
        } else {
          rec.kanken := Some("2");
        }
      }
      assert grade[..|grade|] == grade;
    }
  }

  /** In a store filed by grade, a record sits under no key other than its own grade. */
  lemma NotUnderOtherKey(lists: map<string, seq<KanjiRecord>>, r: KanjiRecord, k1: string, k2: string)
    requires FiledByGrade(lists)
    requires r in Lookup(lists, k1) && k1 != k2
    ensures r !in Lookup(lists, k2)
  {
    var i :| 0 <= i < |lists[k1]| && lists[k1][i] == r;
    assert r.grade == k1;
  }

  /**
    In a store filed by grade, a record under the rated key at position `j`
    keeps the rating of that key once the rater has passed it, whatever
    later keys it visits.
  */
  lemma {:induction false} AfterOwnKey(rater: KanjiRecordKankenRater, lists: map<string, seq<KanjiRecord>>,
                                       n: nat, r: KanjiRecord, before: Option<string>, j: nat)
    requires FiledByGrade(lists)
    requires j < n <= 7 && r in Lookup(lists, RatedKeys[j])
    ensures rater.AfterKeys(lists, n, r, before) == Some(rater.Rating(j, r))
  {
    if n - 1 != j {
      RatedKeysDistinct();
      NotUnderOtherKey(lists, r, RatedKeys[j], RatedKeys[n - 1]);
      AfterOwnKey(rater, lists, n - 1, r, before, j);
    }
  }

  /** A record under none of the rated keys keeps the level it had. */
  lemma {:induction false} AfterUnrated(rater: KanjiRecordKankenRater, lists: map<string, seq<KanjiRecord>>,
                                        n: nat, r: KanjiRecord, before: Option<string>)
    requires n <= 7
    requires forall k :: k in RatedKeys ==> r !in Lookup(lists, k)
    ensures rater.AfterKeys(lists, n, r, before) == before
  {
    if n > 0 {
      assert RatedKeys[n - 1] in RatedKeys;
      AfterUnrated(rater, lists, n - 1, r, before);
    }
  }

  /**
    The outcome of a complete rating of a store filed by grade: a record of
    school grade g (1..6) is rated `str(11 - g)`, i.e. grade 1 is level 10
    down to grade 6 at level 5, and a record of grade "S" gets the level its
    kanji's first list gives.
  */
  lemma RatedByGrade(rater: KanjiRecordKankenRater, lists: map<string, seq<KanjiRecord>>, r: KanjiRecord, before: Option<string>)
    requires FiledByGrade(lists)
    requires forall k :: k in RatedKeys ==> k in lists
    ensures forall g :: 1 <= g <= 6 && r in lists[NatToDecimal(g)] ==>
      rater.AfterKeys(lists, Reached(lists), r, before) == Some(NatToDecimal(11 - g))
    ensures r in lists["S"] ==> rater.AfterKeys(lists, Reached(lists), r, before) == Some(rater.SRating(r.kanji))
  {
    assert RatedKeys[6] in RatedKeys;
    assert Reached(lists) == 7;
    RatedGradeKeys();
    forall g | 1 <= g <= 6 && r in lists[NatToDecimal(g)]
      ensures rater.AfterKeys(lists, 7, r, before) == Some(NatToDecimal(11 - g))
    {
      AfterOwnKey(rater, lists, 7, r, before, g - 1);
    }
    if r in lists["S"] {
      AfterOwnKey(rater, lists, 7, r, before, 6);
    }
  }

  /**
    Every level the rater writes is a key of `REMAP_KK_INT`, so every rated
    record can be reached by a kanken range of the worksheet generator.
  */
  lemma RatingsAreKankenLevels(rater: KanjiRecordKankenRater, n: nat, r: KanjiRecord)
    requires n < 7
    ensures rater.Rating(n, r) in RemapKkInt
  {
    SmallDecimals();
    LevelKeys();
  }

  /** After a rating that reached every key, each record the rater visits holds one of the kanken levels. */
  lemma RatedLevelsAreKankenLevels(rater: KanjiRecordKankenRater, lists: map<string, seq<KanjiRecord>>,
                                   n: nat, r: KanjiRecord, before: Option<string>)
    requires n <= 7
    requires exists j :: 0 <= j < n && r in Lookup(lists, RatedKeys[j])
    ensures rater.AfterKeys(lists, n, r, before).Some?
    ensures rater.AfterKeys(lists, n, r, before).value in RemapKkInt
  {
    if r in Lookup(lists, RatedKeys[n - 1]) {
      RatingsAreKankenLevels(rater, n - 1, r);
    } else {
      var j :| 0 <= j < n && r in Lookup(lists, RatedKeys[j]);
      RatedLevelsAreKankenLevels(rater, lists, n - 1, r, before);
    }
  }

  // ---------------------------------------------------------------------------
  // The string clean-ups of the loader and the exporter

  /** The comma-free pieces of the reading field's first line, split at the ideographic comma. */
  function ReadingPieces(field: string): (pieces: seq<string>)
    ensures |pieces| == Count(Before(field, '\n'), '、') + 1
    ensures Join(pieces, '、') == Before(field, '\n')
    ensures forall i :: 0 <= i < |pieces| ==> '、' !in pieces[i] && '\n' !in pieces[i]
  {
    SplitKeepsAbsent(Before(field, '\n'), '、', '\n');
    JoinSplit(Before(field, '\n'), '、');
    Split(Before(field, '\n'), '、')
  }

  /**
    The readings the loader keeps from a reading field: of the first line,
    each '、'-separated piece up to its first '['. There is one reading per
    piece, at least one in all, and none holds a '[', a '、' or a line break.
  */
  function CleanedReadings(field: string): (readings: seq<string>)
    ensures |readings| == |ReadingPieces(field)| && |readings| >= 1
    ensures forall i :: 0 <= i < |readings| ==>
      readings[i] <= ReadingPieces(field)[i] &&
      ('[' !in ReadingPieces(field)[i] ==> readings[i] == ReadingPieces(field)[i])
    ensures forall i :: 0 <= i < |readings| && |readings[i]| < |ReadingPieces(field)[i]| ==>
      ReadingPieces(field)[i][|readings[i]|] == '['
    ensures forall i :: 0 <= i < |readings| ==>
      '[' !in readings[i] && '、' !in readings[i] && '\n' !in readings[i]
  {
    var pieces := ReadingPieces(field);
    var readings := seq(|pieces|, i requires 0 <= i < |pieces| => Before(pieces[i], '['));
    assert forall i :: 0 <= i < |readings| ==> forall ch :: ch in readings[i] ==> ch in pieces[i];
    readings
  }

  /**
    The reading clean-up of `loadDbFromCsv`: split the field at line breaks,
    split the first line at '、', then cut each reading in place at its
    first '['.
  */
  method CleanReadings(field: string) returns (readings: seq<string>)
    ensures readings == CleanedReadings(field)
  {
    var lines := Split(field, '\n');
    readings := Split(lines[0], '、');
    for i := 0 to |readings|
      invariant |readings| == |ReadingPieces(field)|
      invariant forall j :: 0 <= j < i ==> readings[j] == Before(ReadingPieces(field)[j], '[')
      invariant forall j :: i <= j < |readings| ==> readings[j] == ReadingPieces(field)[j]
    {
      var reading := Split(readings[i], '[')[0];
      readings := readings[i := reading];
    }
  }

  /** The glyph the exporter writes: the kanji text up to its first space, which drops a footnote marker. */
  function StripFootnote(kanji: string): (glyph: string)
    ensures ' ' !in glyph
    ensures glyph <= kanji
    ensures ' ' !in kanji ==> glyph == kanji
    ensures |glyph| < |kanji| ==> kanji[|glyph|] == ' '
  {
    Before(kanji, ' ')
  }

  /** The reading column the exporter writes: the readings joined with ','. */
  function JoinReadings(readings: seq<string>): string
  {
    Join(readings, ',')
  }

  /**
    The generator's loader splits the reading column at ',' (generate.py),
    which gives back the exporter's readings when there is at least one and
    none holds a comma.
  */
  lemma ReadingsRoundTrip(readings: seq<string>)
    requires |readings| >= 1
    requires forall i :: 0 <= i < |readings| ==> ',' !in readings[i]
    ensures Split(JoinReadings(readings), ',') == readings
  {
    SplitJoin(readings, ',');
  }

  /**
    From the builder's reading field to the generator's readings: when the
    field holds no comma, cleaning, exporting and loading again gives the
    cleaned readings back.
  */
  lemma CleanedReadingsSurviveExport(field: string)
    requires ',' !in field
    ensures Split(JoinReadings(CleanedReadings(field)), ',') == CleanedReadings(field)
  {
    var first := Before(field, '\n');
    assert forall ch :: ch in first ==> ch in field;
    SplitKeepsAbsent(first, '、', ',');
    var readings := CleanedReadings(field);
    forall i | 0 <= i < |readings| ensures ',' !in readings[i] {
      assert forall ch :: ch in readings[i] ==> ch in ReadingPieces(field)[i];
    }
    ReadingsRoundTrip(readings);
  }
}
