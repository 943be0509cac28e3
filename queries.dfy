/**
  What a query selects from a store built with `addRecord` (generate.py:204-297):
  grade tokens select the records of that grade, kanken tokens and ranges the
  records of those levels. Also the one place where the code as written
  departs from what its own range syntax and usage line intend: a bare "S".
*/
module QueryLaws {
  import opened Wrappers
  import opened Text
  import opened DictIndex
  import opened Remap
  import opened KanjiStore
  import opened Selection

  predicate NoUpper(t: string)
  {
    forall i :: 0 <= i < |t| ==> !IsUpper(t[i])
  }

  /** Whether `r` belongs under at least one of `keys`. */
  predicate BelongsToSome(r: KanjiRecord, keys: seq<string>)
  {
    exists k :: k in keys && Belongs(r, k)
  }

  /**
    For a store that files exactly the given records under the keys they
    belong to, a record is selected by a key list exactly when it is one of
    those records and belongs under one of the keys.
  */
  lemma SelectedMember(m: map<string, seq<KanjiRecord>>, records: seq<KanjiRecord>, keys: seq<string>, r: KanjiRecord)
    requires forall k :: r in Lookup(m, k) <==> r in records && Belongs(r, k)
    ensures r in Selected(m, keys) <==> r in records && BelongsToSome(r, keys)
  {
    SelectedMembership(m, keys, r);
    if r in Selected(m, keys) {
      var k :| k in keys && r in Lookup(m, k);
      assert Belongs(r, k);
    }
    if r in records && BelongsToSome(r, keys) {
      var k :| k in keys && Belongs(r, k);
      assert r in Lookup(m, k);
    }
  }

  /**
    For a store that files exactly the given records under the keys they
    belong to, the keys select the records that belong under one of them.
  */
  lemma SelectedFromFiling(m: map<string, seq<KanjiRecord>>, records: seq<KanjiRecord>, keys: seq<string>)
    requires forall k, r :: r in Lookup(m, k) <==> r in records && Belongs(r, k)
    ensures Selected(m, keys) == set r | r in records && BelongsToSome(r, keys)
  {
    var found := Selected(m, keys);
    var belonging := set r | r in records && BelongsToSome(r, keys);
    forall r: KanjiRecord ensures r in found <==> r in belonging {
      SelectedMember(m, records, keys, r);
    }
    SameRecords(found, belonging);
  }

  /** The records a list of keys selects from a built store: those added that belong under one of the keys. */
  lemma SelectedFromIndex(records: seq<KanjiRecord>, keys: seq<string>)
    ensures Selected(IndexOf(records), keys) == set r | r in records && BelongsToSome(r, keys)
  {
    var m := IndexOf(records);
    forall k, r ensures r in Lookup(m, k) <==> r in records && Belongs(r, k) {
      IndexOfMembership(records, k, r);
    }
    SelectedFromFiling(m, records, keys);
  }

  /** A record belongs under some key of a one-key list exactly when it belongs under that key. */
  lemma OneKey(r: KanjiRecord, k: string)
    ensures BelongsToSome(r, [k]) <==> Belongs(r, k)
  {
    if Belongs(r, k) {
      assert k in [k];
    }
  }

  /** Filtering by one key of a one-key list is filtering by that key. */
  lemma OneKeySet(records: seq<KanjiRecord>, k: string)
    ensures (set r | r in records && BelongsToSome(r, [k])) == (set r | r in records && Belongs(r, k))
  {
    var some := set r | r in records && BelongsToSome(r, [k]);
    var belonging := set r | r in records && Belongs(r, k);
    forall r: KanjiRecord ensures r in some <==> r in belonging {
      OneKey(r, k);
    }
    SameRecords(some, belonging);
  }

  /** A single key selects from a built store exactly the added records that belong under it. */
  lemma SingleKeySelects(records: seq<KanjiRecord>, k: string)
    ensures Selected(IndexOf(records), [k]) == set r | r in records && Belongs(r, k)
  {
    SelectedFromIndex(records, [k]);
    OneKeySet(records, k);
  }

  /**
    A bare token without dash, comma or capital letter selects exactly the
    records that belong under it.
  */
  lemma BareTokenSelects(records: seq<KanjiRecord>, t: string)
    requires '-' !in t && ',' !in t && NoUpper(t)
    ensures Resolve(IndexOf(records), t) == Ok(set r | r in records && Belongs(r, t))
  {
    SplitNoSep(t, '-');
    LowerOfLower(t);
    assert ClauseKeys(t) == Ok([t]);
    SingleClause(IndexOf(records), t);
    SingleKeySelects(records, t);
  }

  /** A key whose first character is not 'k' is never a kanken key. */
  lemma NotKankenKey(k: string, r: KanjiRecord)
    requires k == [] || k[0] != 'k'
    ensures Belongs(r, k) <==> r.grade == k
  {
    if r.kanken.Some? {
      assert ("k" + r.kanken.value)[0] == 'k';
    }
  }

  /** Under a key not starting with 'k' lie exactly the records of that grade. */
  lemma GradeKeySelection(records: seq<KanjiRecord>, g: string)
    requires g == [] || g[0] != 'k'
    ensures (set r | r in records && Belongs(r, g)) == set r | r in records && r.grade == g
  {
    var belonging := set r | r in records && Belongs(r, g);
    var graded := set r | r in records && r.grade == g;
    forall r: KanjiRecord ensures r in belonging <==> r in graded {
      NotKankenKey(g, r);
    }
    SameRecords(belonging, graded);
  }

  /**
    A grade token ("1" .. "6", or any token of that shape not starting with
    "k") selects exactly the records of that grade, whatever their kanken level.
  */
  lemma GradeTokenSelects(records: seq<KanjiRecord>, g: string)
    requires g != [] && g[0] != 'k' && '-' !in g && ',' !in g && NoUpper(g)
    ensures Resolve(IndexOf(records), g) == Ok(set r | r in records && r.grade == g)
  {
    BareTokenSelects(records, g);
    GradeKeySelection(records, g);
  }

  /** "k" + level belongs to a record with no grade of that spelling exactly when it is rated at that level. */
  lemma KankenKeyBelongs(level: string, r: KanjiRecord)
    requires r.grade != "k" + level
    ensures Belongs(r, "k" + level) <==> r.kanken == Some(level)
  {
    if r.kanken.Some? && "k" + level == "k" + r.kanken.value {
      assert ("k" + level)[1..] == level;
      assert ("k" + r.kanken.value)[1..] == r.kanken.value;
    }
  }

  /** The key "k" + level is a bare token: no dash, comma or capital letter. */
  lemma KankenKeyIsBare(level: string)
    requires level in RemapKkInt
    ensures '-' !in "k" + level && ',' !in "k" + level && NoUpper("k" + level)
  {
    LevelKeys();
  }

  /**
    A kanken token "k" + level selects exactly the records rated at that
    level, provided no grade is itself spelled like that kanken key.
  */
  lemma KankenTokenSelects(records: seq<KanjiRecord>, level: string)
    requires level in RemapKkInt
    requires forall r :: r in records ==> r.grade != "k" + level
    ensures Resolve(IndexOf(records), "k" + level) == Ok(set r | r in records && r.kanken == Some(level))
  {
    KankenKeyIsBare(level);
    BareTokenSelects(records, "k" + level);
    var belonging := set r | r in records && Belongs(r, "k" + level);
    var rated := set r | r in records && r.kanken == Some(level);
    forall r: KanjiRecord ensures r in belonging <==> r in rated {
      if r in records {
        KankenKeyBelongs(level, r);
      }
    }
    SameRecords(belonging, rated);
  }

  /** No grade-scale key looks like a kanken key. */
  lemma GradeKeyNotKanken(x: nat, level: string)
    ensures GradeKey(x) != "k" + level
  {
    assert ("k" + level)[0] == 'k';
    if x != 7 {
      assert IsDigit(GradeKey(x)[0]);
    }
  }

  /** Whether the grade of `r` is the key of some grade-scale integer from `lo` to `hi`. */
  predicate GradeInRange(r: KanjiRecord, lo: nat, hi: nat)
  {
    exists x: nat :: lo <= x <= hi && r.grade == GradeKey(x)
  }

  /** Whether `r` is rated at a kanken level whose index lies from `lo` to `hi`. */
  predicate KankenInRange(r: KanjiRecord, lo: nat, hi: nat)
  {
    r.kanken.Some? && r.kanken.value in RemapKkInt && lo <= KankenIndex(r.kanken.value) <= hi
  }

  /** A record belongs under one of the keys of a grade range exactly when its grade lies in that range. */
  lemma GradeKeysBelong(r: KanjiRecord, keys: seq<string>, lo: nat, hi: nat)
    requires forall x: nat :: GradeKey(x) in keys <==> lo <= x <= hi
    requires forall key :: key in keys ==> exists x: nat :: lo <= x <= hi && key == GradeKey(x)
    ensures BelongsToSome(r, keys) <==> GradeInRange(r, lo, hi)
  {
    if BelongsToSome(r, keys) {
      var k :| k in keys && Belongs(r, k);
      var x: nat :| lo <= x <= hi && k == GradeKey(x);
      if r.kanken.Some? {
        GradeKeyNotKanken(x, r.kanken.value);
      }
    }
    if GradeInRange(r, lo, hi) {
      var x: nat :| lo <= x <= hi && r.grade == GradeKey(x);
      assert GradeKey(x) in keys && Belongs(r, GradeKey(x));
    }
  }

  /** Filtering by the keys of a grade range is filtering by grade. */
  lemma GradeRangeSelection(records: seq<KanjiRecord>, keys: seq<string>, lo: nat, hi: nat)
    requires forall x: nat :: GradeKey(x) in keys <==> lo <= x <= hi
    requires forall key :: key in keys ==> exists x: nat :: lo <= x <= hi && key == GradeKey(x)
    ensures (set r | r in records && BelongsToSome(r, keys)) == set r | r in records && GradeInRange(r, lo, hi)
  {
    var some := set r | r in records && BelongsToSome(r, keys);
    var ranged := set r | r in records && GradeInRange(r, lo, hi);
    forall r: KanjiRecord ensures r in some <==> r in ranged {
      GradeKeysBelong(r, keys, lo, hi);
    }
    SameRecords(some, ranged);
  }

  /**
    A grade range "a-b" selects exactly the records whose grade is the key of
    an integer between the two endpoint values ("s" counting as 7, and 7
    coming back as "S").
  */
  lemma GradeRangeSelects(records: seq<KanjiRecord>, a: string, b: string)
    requires '-' !in a && '-' !in b && ',' !in a && ',' !in b
    requires GradeEndpoint(Lower(a)) && GradeEndpoint(Lower(b))
    ensures var lo, hi := Min(GradeValue(Lower(a)), GradeValue(Lower(b))), Max(GradeValue(Lower(a)), GradeValue(Lower(b)));
      Resolve(IndexOf(records), a + "-" + b) == Ok(set r | r in records && GradeInRange(r, lo, hi))
  {
    var lo, hi := Min(GradeValue(Lower(a)), GradeValue(Lower(b))), Max(GradeValue(Lower(a)), GradeValue(Lower(b)));
    RangeClause(a, b);
    assert ',' !in a + "-" + b;
    SingleClause(IndexOf(records), a + "-" + b);
    GradeRangeKeys(Lower(a), Lower(b));
    var keys := RangeKeys(Lower(a), Lower(b)).value;
    SelectedFromIndex(records, keys);
    GradeRangeSelection(records, keys, lo, hi);
  }

  /**
    A record whose grade does not start with 'k' belongs under one of the
    keys of a kanken range exactly when its level lies in that range.
  */
  lemma KankenKeysBelong(r: KanjiRecord, keys: seq<string>, lo: nat, hi: nat)
    requires r.grade == [] || r.grade[0] != 'k'
    requires forall v :: "k" + v in keys <==> v in RemapKkInt && lo <= KankenIndex(v) <= hi
    requires forall key :: key in keys ==> exists v :: v in RemapKkInt && lo <= KankenIndex(v) <= hi && key == "k" + v
    ensures BelongsToSome(r, keys) <==> KankenInRange(r, lo, hi)
  {
    if BelongsToSome(r, keys) {
      var k :| k in keys && Belongs(r, k);
      var v :| v in RemapKkInt && lo <= KankenIndex(v) <= hi && k == "k" + v;
      assert k[0] == 'k';
      assert r.kanken.Some? && k == "k" + r.kanken.value;
      assert k[1..] == v && k[1..] == r.kanken.value;
    }
    if KankenInRange(r, lo, hi) {
      assert "k" + r.kanken.value in keys && Belongs(r, "k" + r.kanken.value);
    }
  }

  /** The records under the keys of a kanken range are those rated in that range. */
  lemma KankenRangeSelection(records: seq<KanjiRecord>, keys: seq<string>, lo: nat, hi: nat)
    requires forall r :: r in records ==> r.grade == [] || r.grade[0] != 'k'
    requires forall v :: "k" + v in keys <==> v in RemapKkInt && lo <= KankenIndex(v) <= hi
    requires forall key :: key in keys ==> exists v :: v in RemapKkInt && lo <= KankenIndex(v) <= hi && key == "k" + v
    ensures (set r | r in records && BelongsToSome(r, keys)) == set r | r in records && KankenInRange(r, lo, hi)
  {
    var some := set r | r in records && BelongsToSome(r, keys);
    var ranged := set r | r in records && KankenInRange(r, lo, hi);
    forall r: KanjiRecord ensures r in some <==> r in ranged {
      if r in records {
        KankenKeysBelong(r, keys, lo, hi);
      }
    }
    SameRecords(some, ranged);
  }

  /**
    A kanken range "a-b" selects exactly the records rated at a level whose
    index lies between the indices of the two endpoints, provided no grade
    starts with "k".
  */
  lemma KankenRangeSelects(records: seq<KanjiRecord>, a: string, b: string)
    requires '-' !in a && '-' !in b && ',' !in a && ',' !in b
    requires KankenEndpoint(Lower(a)) && KankenEndpoint(Lower(b)) && (StartsWithK(Lower(a)) || StartsWithK(Lower(b)))
    requires forall r :: r in records ==> r.grade == [] || r.grade[0] != 'k'
    ensures var i, j := KankenIndex(StripK(Lower(a))), KankenIndex(StripK(Lower(b)));
      Resolve(IndexOf(records), a + "-" + b) == Ok(set r | r in records && KankenInRange(r, Min(i, j), Max(i, j)))
  {
    var i, j := KankenIndex(StripK(Lower(a))), KankenIndex(StripK(Lower(b)));
    var lo, hi := Min(i, j), Max(i, j);
    RangeClause(a, b);
    assert ',' !in a + "-" + b;
    SingleClause(IndexOf(records), a + "-" + b);
    KankenRangeKeys(Lower(a), Lower(b));
    var keys := RangeKeys(Lower(a), Lower(b)).value;
    SelectedFromIndex(records, keys);
    KankenRangeSelection(records, keys, lo, hi);
  }

  /** The endpoints of "k10-1", lower-cased and stripped, index the two ends of the kanken scale. */
  lemma FullKankenEndpoints()
    ensures "k10" + "-" + "1" == "k10-1"
    ensures '-' !in "k10" && '-' !in "1" && ',' !in "k10" && ',' !in "1"
    ensures KankenEndpoint(Lower("k10")) && KankenEndpoint(Lower("1")) && StartsWithK(Lower("k10"))
    ensures KankenIndex(StripK(Lower("k10"))) == 12 && KankenIndex(StripK(Lower("1"))) == 1
  {
    LowerOfLower("k10");
    LowerOfLower("1");
    assert StripK("k10") == "10" && StripK("1") == "1";
    LevelKeys();
    HalfLevelsInterleave();
  }

  /** Every kanken level has an index from 1 to 12, so that range holds every rated record. */
  lemma WholeKankenScale(records: seq<KanjiRecord>, lo: nat, hi: nat)
    requires lo <= 1 && 12 <= hi
    ensures (set r | r in records && KankenInRange(r, lo, hi)) ==
      set r | r in records && r.kanken.Some? && r.kanken.value in RemapKkInt
  {
    var ranged := set r | r in records && KankenInRange(r, lo, hi);
    var rated := set r | r in records && r.kanken.Some? && r.kanken.value in RemapKkInt;
    SameRecords(ranged, rated);
  }

  /**
    "k10-1" spans the whole kanken scale: it selects every record rated at
    one of the twelve kanken levels.
  */
  lemma FullKankenRangeSelects(records: seq<KanjiRecord>)
    requires forall r :: r in records ==> r.grade == [] || r.grade[0] != 'k'
    ensures Resolve(IndexOf(records), "k10-1") ==
      Ok(set r | r in records && r.kanken.Some? && r.kanken.value in RemapKkInt)
  {
    FullKankenEndpoints();
    KankenRangeSelects(records, "k10", "1");
    var i, j := KankenIndex(StripK(Lower("k10"))), KankenIndex(StripK(Lower("1")));
    WholeKankenScale(records, Min(i, j), Max(i, j));
  }

  // ---------------------------------------------------------------------------
  // The bare "S"

  /** "S" and "s" are single clauses without a dash, and both lower-case to "s". */
  lemma BareSClauses()
    ensures ',' !in "S" && ',' !in "s" && Count("S", '-') == 0 && Count("s", '-') == 0
    ensures Lower("S") == "s" && Lower("s") == "s"
  {
    LowerOfLower("s");
  }

  /**
    As written: a bare "S" or "s" is the key "s", so it selects exactly the
    records whose grade is spelled "s", and not those of grade "S".
  */
  lemma BareSSelectsLowerS(records: seq<KanjiRecord>)
    ensures Resolve(IndexOf(records), "S") == Ok(set r | r in records && r.grade == "s")
    ensures Resolve(IndexOf(records), "s") == Resolve(IndexOf(records), "S")
  {
    var m := IndexOf(records);
    BareSClauses();
    NonRangeClause("S");
    NonRangeClause("s");
    SingleClause(m, "S");
    SingleClause(m, "s");
    SingleKeySelects(records, "s");
    GradeKeySelection(records, "s");
  }

  /** The range "s-s" is the single grade key "S". */
  lemma RangeSSKeys()
    ensures ',' !in "s-s" && ClauseKeys("s-s") == Ok(["S"])
  {
    BareSClauses();
    RangeClause("s", "s");
    assert "s" + "-" + "s" == "s-s";
    assert ParseDecimal("7") == Some(7);
    assert GradeKeys(7, 7) == [GradeKey(7)];
  }

  /** As written, the range "s-s" selects exactly the records graded "S". */
  lemma RangeSSSelectsGradeS(records: seq<KanjiRecord>)
    ensures Resolve(IndexOf(records), "s-s") == Ok(set r | r in records && r.grade == "S")
  {
    RangeSSKeys();
    SingleClause(IndexOf(records), "s-s");
    SingleKeySelects(records, "S");
    GradeKeySelection(records, "S");
  }

  /**
    The discrepancy, as written: with a record of grade "S" and none of
    grade "s", the query "S" selects nothing, while "s-s" finds the record.
  */
  lemma BareSMissesGradeS(records: seq<KanjiRecord>, graded: KanjiRecord)
    requires graded in records && graded.grade == "S"
    requires forall r :: r in records ==> r.grade != "s"
    ensures ClauseKeys("S") == Ok(["s"])
    ensures Resolve(IndexOf(records), "S") == Ok({})
    ensures Resolve(IndexOf(records), "s-s").Ok? && graded in Resolve(IndexOf(records), "s-s").value
  {
    BareSClauses();
    NonRangeClause("S");
    BareSSelectsLowerS(records);
    RangeSSSelectsGradeS(records);
    var lowered := set r | r in records && r.grade == "s";
    assert lowered == {};
  }

  /**
    The keys a clause was evidently meant to give: as written, except that a
    bare "s" or "S" stands for the grade key "S", as "s" does inside a range.
  */
  function IntendedClauseKeys(d: string): (keys: Result<seq<string>, QueryError>)
    ensures Lower(d) != "s" ==> keys == ClauseKeys(d)
  {
    var conjoint := Split(d, '-');
    if |conjoint| == 2 then RangeKeys(Lower(conjoint[0]), Lower(conjoint[1]))
    else if Lower(d) == "s" then Ok(["S"])
    else Ok([Lower(d)])
  }

  /** The intended clause keys differ from the written ones exactly on a bare "s" or "S". */
  lemma IntendedDiffersOnlyOnBareS(d: string)
    ensures IntendedClauseKeys(d) != ClauseKeys(d) <==> Lower(d) == "s"
  {
    if Lower(d) == "s" {
      assert |d| == 1 && d[0] != '-';
      assert '-' !in d;
      SplitNoSep(d, '-');
    }
  }

  /** The intended keys of a list of clauses, in order, or the first error. */
  function IntendedClauseListKeys(clauses: seq<string>): Result<seq<string>, QueryError>
  {
    if clauses == [] then Ok([])
    else Then(IntendedClauseListKeys(clauses[..|clauses| - 1]), IntendedClauseKeys(clauses[|clauses| - 1]))
  }

  /** What `selectRecords` was evidently meant to return: `Resolve` with the intended clause keys. */
  function IntendedResolve(m: map<string, seq<KanjiRecord>>, query: string): Result<set<KanjiRecord>, QueryError>
  {
    match IntendedClauseListKeys(Split(query, ','))
    case Ok(keys) => Ok(Selected(m, keys))
    case Err(e) => Err(e)
  }

  /** Clause lists without a bare "s" expand the same way as written and as intended. */
  lemma {:induction false} IntendedListAgrees(clauses: seq<string>)
    requires forall i :: 0 <= i < |clauses| ==> Lower(clauses[i]) != "s"
    ensures IntendedClauseListKeys(clauses) == ClauseListKeys(clauses)
  {
    if clauses != [] {
      IntendedListAgrees(clauses[..|clauses| - 1]);
    }
  }

  /** A query none of whose clauses is a bare "s" or "S" selects the same as written and as intended. */
  lemma IntendedAgrees(m: map<string, seq<KanjiRecord>>, query: string)
    requires forall i :: 0 <= i < |Split(query, ',')| ==> Lower(Split(query, ',')[i]) != "s"
    ensures IntendedResolve(m, query) == Resolve(m, query)
  {
    IntendedListAgrees(Split(query, ','));
  }

  /** A comma-free query resolves, as intended, through its one clause. */
  lemma IntendedSingleClause(m: map<string, seq<KanjiRecord>>, d: string)
    requires ',' !in d
    ensures IntendedClauseKeys(d).Err? ==> IntendedResolve(m, d) == Err(IntendedClauseKeys(d).error)
    ensures IntendedClauseKeys(d).Ok? ==> IntendedResolve(m, d) == Ok(Selected(m, IntendedClauseKeys(d).value))
  {
    SplitNoSep(d, ',');
    assert [d][..0] == [];
    if IntendedClauseKeys(d).Ok? {
      assert [] + IntendedClauseKeys(d).value == IntendedClauseKeys(d).value;
    }
  }

  /** As intended, "S" and "s" are the grade key "S", and "s-s" is the range it is as written. */
  lemma IntendedBareSKeys()
    ensures IntendedClauseKeys("S") == Ok(["S"]) && IntendedClauseKeys("s") == Ok(["S"])
    ensures IntendedClauseKeys("s-s") == ClauseKeys("s-s")
  {
    BareSClauses();
    SplitNoSep("S", '-');
    SplitNoSep("s", '-');
    LowerOfLower("s-s");
  }

  /**
    As intended: "S" and "s" select exactly the records graded "S", whatever
    their kanken level, just as the range "s-s" does in the code as written.
  */
  lemma BareSSelectsGradeS(records: seq<KanjiRecord>)
    ensures IntendedResolve(IndexOf(records), "S") == Ok(set r | r in records && r.grade == "S")
    ensures IntendedResolve(IndexOf(records), "s") == IntendedResolve(IndexOf(records), "S")
    ensures IntendedResolve(IndexOf(records), "s-s") == Resolve(IndexOf(records), "s-s")
    ensures Resolve(IndexOf(records), "s-s") == IntendedResolve(IndexOf(records), "S")
  {
    var m := IndexOf(records);
    BareSClauses();
    IntendedBareSKeys();
    IntendedSingleClause(m, "S");
    IntendedSingleClause(m, "s");
    RangeSSKeys();
    IntendedSingleClause(m, "s-s");
    SingleClause(m, "s-s");
    RangeSSSelectsGradeS(records);
  }
}
