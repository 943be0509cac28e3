/**
  The selection mini-language of the worksheet generator (generate.py:204-271).
  A query is a comma-separated list of clauses. A clause that splits on "-"
  into exactly two endpoints is a range: a kanken range when either endpoint
  starts with "k", otherwise a grade range in which "s" stands for 7. Any
  other clause is lower-cased and used as a key as it is. Every key is looked
  up in the store and the records found are gathered into one set.
*/
module Selection {
  import opened Wrappers
  import opened Text
  import opened DictIndex
  import opened Remap
  import opened KanjiStore

  /** The exceptions a query can raise; any of them aborts the whole query. */
  datatype QueryError =
    | IndexError  // an empty range endpoint (`lower[0]`, `upper[0]`)
    | KeyError    // a kanken endpoint that is not a key of REMAP_KK_INT
    | ValueError  // a grade endpoint that `int()` rejects

  // ---------------------------------------------------------------------------
  // Keys produced by a range

  /** The key of a grade-scale integer: "S" for 7, otherwise its decimal form. */
  function GradeKey(x: nat): string
  {
    if x == 7 then "S" else NatToDecimal(x)
  }

  /** `["S" if x == 7 else str(x) for x in range(lo, hi + 1)]`. */
  function GradeKeys(lo: nat, hi: nat): (r: seq<string>)
    requires lo <= hi
    ensures |r| == hi - lo + 1
  {
    seq(hi - lo + 1, i requires 0 <= i <= hi - lo => GradeKey(lo + i))
  }

  /** The key of a dense kanken index: "k" + `REMAP_INT_KK[str(x)]`. */
  function KankenKey(x: nat): string
    requires 1 <= x <= 12
  {
    "k" + KankenLevel(x)
  }

  /** `[f"k{REMAP_INT_KK[str(x)]}" for x in range(lo, hi + 1)]`. */
  function KankenKeys(lo: nat, hi: nat): (r: seq<string>)
    requires 1 <= lo <= hi <= 12
    ensures |r| == hi - lo + 1
  {
    seq(hi - lo + 1, i requires 0 <= i <= hi - lo => KankenKey(lo + i))
  }

  /** A kanken endpoint without its "k" marker. */
  function StripK(e: string): string
  {
    if e != [] && e[0] == 'k' then e[1..] else e
  }

  /**
    The keys of a range clause whose endpoints are already lower-cased
    (generate.py:214-259), or the exception it raises.
  */
  function RangeKeys(lower: string, upper: string): Result<seq<string>, QueryError>
  {
    if lower == [] || upper == [] then Err(IndexError)
    else if lower[0] == 'k' || upper[0] == 'k' then
      var lo, up := StripK(lower), StripK(upper);
      if up !in RemapKkInt || lo !in RemapKkInt then Err(KeyError)
      else
        var u, l := KankenIndex(up), KankenIndex(lo);
        if u < l then Ok(KankenKeys(u, l)) else Ok(KankenKeys(l, u))
    else
      var up := if upper == "s" then "7" else upper;
      var lo := if lower == "s" then "7" else lower;
      match (ParseDecimal(up), ParseDecimal(lo))
      case (Some(u), Some(l)) => if u < l then Ok(GradeKeys(u, l)) else Ok(GradeKeys(l, u))
      case _ => Err(ValueError)
  }

  /**
    The keys one clause expands to (generate.py:211-261): a range, or else
    the clause's own lower-cased text as a single key.
  */
  function ClauseKeys(d: string): Result<seq<string>, QueryError>
  {
    var conjoint := Split(d, '-');
    if |conjoint| == 2 then RangeKeys(Lower(conjoint[0]), Lower(conjoint[1]))
    else Ok([Lower(d)])
  }

  /** The keys of `a` followed by those of `b`, or the first error of the two. */
  function Then(a: Result<seq<string>, QueryError>, b: Result<seq<string>, QueryError>): Result<seq<string>, QueryError>
  {
    match a
    case Err(e) => Err(e)
    case Ok(front) =>
      match b
      case Err(e) => Err(e)
      case Ok(back) => Ok(front + back)
  }

  /** The keys of a list of clauses, in order; the first clause that raises decides the error. */
  function ClauseListKeys(clauses: seq<string>): Result<seq<string>, QueryError>
  {
    if clauses == [] then Ok([])
    else Then(ClauseListKeys(clauses[..|clauses| - 1]), ClauseKeys(clauses[|clauses| - 1]))
  }

  /** The list `expanded` that selectRecords builds from a query. */
  function QueryKeys(query: string): Result<seq<string>, QueryError>
  {
    ClauseListKeys(Split(query, ','))
  }

  /** The union of the record lists under `keys`; an absent key contributes nothing. */
  function Selected(m: map<string, seq<KanjiRecord>>, keys: seq<string>): set<KanjiRecord>
  {
    if keys == [] then {} else Selected(m, keys[..|keys| - 1]) + Elements(Lookup(m, keys[|keys| - 1]))
  }

  /** What `selectRecords(db, query)` returns, or the exception it raises. */
  function Resolve(m: map<string, seq<KanjiRecord>>, query: string): Result<set<KanjiRecord>, QueryError>
  {
    match QueryKeys(query)
    case Ok(keys) => Ok(Selected(m, keys))
    case Err(e) => Err(e)
  }

  // ---------------------------------------------------------------------------
  // The operation

  /**
    `selectRecords(db, query)`: splits the query into clauses, expands each
    into keys, then gathers the records under all keys into one set. The
    result is a set, since the order of `list(result)` is that of a Python set.
  */
  method SelectRecords(db: KanjiDb, query: string) returns (result: Result<set<KanjiRecord>, QueryError>)
    ensures result == Resolve(db.lists, query)
  {
    var expanded := ExpandClauses(Split(query, ','));
    if expanded.Err? {
      return Err(expanded.error);
    }
    var selected := GatherRecords(db.lists, expanded.value);
    result := Ok(selected);
  }

  /** The first loop of `selectRecords`: the keys of every clause in order, or the first clause's exception. */
  method ExpandClauses(disjoint: seq<string>) returns (result: Result<seq<string>, QueryError>)
    ensures result == ClauseListKeys(disjoint)
  {
    var expanded: seq<string> := [];
    for i := 0 to |disjoint|
      invariant ClauseListKeys(disjoint[..i]) == Ok(expanded)
    {
      assert disjoint[..i + 1][..i] == disjoint[..i];
      var keys := ClauseKeys(disjoint[i]);
      if keys.Err? {
        ErrorPropagates(disjoint, i + 1);
        return Err(keys.error);
      }
      expanded := expanded + keys.value;
    }
    assert disjoint[..|disjoint|] == disjoint;
    result := Ok(expanded);
  }

  /** The second loop of `selectRecords`: the union of the lists under the keys, an absent key adding nothing. */
  method GatherRecords(m: map<string, seq<KanjiRecord>>, keys: seq<string>) returns (selected: set<KanjiRecord>)
    ensures selected == Selected(m, keys)
  {
    selected := {};
    for j := 0 to |keys|
      invariant selected == Selected(m, keys[..j])
    {
      assert keys[..j + 1][..j] == keys[..j];
      selected := selected + Elements(Lookup(m, keys[j]));
    }
    assert keys[..|keys|] == keys;
  }

  /** Once a prefix of the clauses raises, the whole list raises the same error. */
  lemma {:induction false} ErrorPropagates(clauses: seq<string>, n: nat)
    requires n <= |clauses|
    requires ClauseListKeys(clauses[..n]).Err?
    ensures ClauseListKeys(clauses) == ClauseListKeys(clauses[..n])
    decreases |clauses| - n
  {
    if n < |clauses| {
      assert clauses[..n + 1][..n] == clauses[..n];
      ErrorPropagates(clauses, n + 1);
    } else {
      assert clauses[..n] == clauses;
    }
  }

  // ---------------------------------------------------------------------------
  // Lookup and union

  /** A record is selected by a list of keys exactly when it is filed under one of them. */
  lemma {:induction false} SelectedMembership(m: map<string, seq<KanjiRecord>>, keys: seq<string>, r: KanjiRecord)
    ensures r in Selected(m, keys) <==> exists k :: k in keys && r in Lookup(m, k)
  {
    if keys != [] {
      var init, last := keys[..|keys| - 1], keys[|keys| - 1];
      SelectedMembership(m, init, r);
      assert keys == init + [last];
      if r in Lookup(m, last) {
        assert last in keys;
      }
      if exists k :: k in keys && r in Lookup(m, k) {
        var k :| k in keys && r in Lookup(m, k);
        if k != last {
          assert k in init;
        }
      }
    }
  }

  /** Selecting by two key lists one after the other gives the union of their selections. */
  lemma {:induction false} SelectedAppend(m: map<string, seq<KanjiRecord>>, k1: seq<string>, k2: seq<string>)
    ensures Selected(m, k1 + k2) == Selected(m, k1) + Selected(m, k2)
    decreases |k2|
  {
    if k2 == [] {
      assert k1 + k2 == k1;
    } else {
      var init := k2[..|k2| - 1];
      assert (k1 + k2)[..|k1 + k2| - 1] == k1 + init;
      SelectedAppend(m, k1, init);
    }
  }

  lemma ThenAssociative(a: Result<seq<string>, QueryError>, b: Result<seq<string>, QueryError>, c: Result<seq<string>, QueryError>)
    ensures Then(Then(a, b), c) == Then(a, Then(b, c))
  {
    if a.Ok? && b.Ok? && c.Ok? {
      assert a.value + b.value + c.value == a.value + (b.value + c.value);
    }
  }

  /** The keys of two clause lists one after the other: both lists' keys, or the first error. */
  lemma {:induction false} ClauseListAppend(c1: seq<string>, c2: seq<string>)
    ensures ClauseListKeys(c1 + c2) == Then(ClauseListKeys(c1), ClauseListKeys(c2))
    decreases |c2|
  {
    if c2 == [] {
      assert c1 + c2 == c1;
      if ClauseListKeys(c1).Ok? {
        assert ClauseListKeys(c1).value + [] == ClauseListKeys(c1).value;
      }
    } else {
      var init, last := c2[..|c2| - 1], c2[|c2| - 1];
      assert (c1 + c2)[..|c1 + c2| - 1] == c1 + init;
      assert (c1 + c2)[|c1 + c2| - 1] == last;
      ClauseListAppend(c1, init);
      ThenAssociative(ClauseListKeys(c1), ClauseListKeys(init), ClauseKeys(last));
    }
  }

  /**
    Union law: the query "x,y" raises the first error of "x" and "y", and
    otherwise selects the union of what "x" and "y" select.
  */
  lemma ResolveUnion(m: map<string, seq<KanjiRecord>>, x: string, y: string)
    ensures Resolve(m, x).Err? ==> Resolve(m, x + "," + y) == Resolve(m, x)
    ensures Resolve(m, x).Ok? && Resolve(m, y).Err? ==> Resolve(m, x + "," + y) == Resolve(m, y)
    ensures Resolve(m, x).Ok? && Resolve(m, y).Ok? ==>
      Resolve(m, x + "," + y) == Ok(Resolve(m, x).value + Resolve(m, y).value)
  {
    SplitConcat(x, y, ',');
    assert x + "," + y == x + [','] + y;
    ClauseListAppend(Split(x, ','), Split(y, ','));
    if QueryKeys(x).Ok? && QueryKeys(y).Ok? {
      SelectedAppend(m, QueryKeys(x).value, QueryKeys(y).value);
    }
  }

  // ---------------------------------------------------------------------------
  // Ranges

  /** Whether `e` is an endpoint of a grade range: "s" or a decimal number. */
  predicate GradeEndpoint(e: string)
  {
    e == "s" || (e != [] && AllDigits(e))
  }

  /** The grade-scale integer of a grade endpoint: 7 for "s". */
  function GradeValue(e: string): nat
    requires GradeEndpoint(e)
  {
    if e == "s" then 7 else DigitsValue(e)
  }

  /** Whether `e`, less an optional "k" marker, is a kanken level. */
  predicate KankenEndpoint(e: string)
  {
    StripK(e) in RemapKkInt
  }

  predicate StartsWithK(e: string)
  {
    e != [] && e[0] == 'k'
  }

  /** Distinct grade-scale integers have distinct keys. */
  lemma GradeKeyInjective(x: nat, y: nat)
    requires GradeKey(x) == GradeKey(y)
    ensures x == y
  {
    if x != 7 && y != 7 {
      DecimalInjective(x, y);
    }
  }

  /** A grade range holds the key of every integer between its bounds, and no other integer's key. */
  lemma GradeKeysMembership(lo: nat, hi: nat, x: nat)
    requires lo <= hi
    ensures GradeKey(x) in GradeKeys(lo, hi) <==> lo <= x <= hi
  {
    var keys := GradeKeys(lo, hi);
    if lo <= x <= hi {
      assert keys[x - lo] == GradeKey(x);
    }
    if GradeKey(x) in keys {
      var i :| 0 <= i < |keys| && keys[i] == GradeKey(x);
      GradeKeyInjective(lo + i, x);
    }
  }

  /** Every level whose index lies between the bounds has its key in the kanken range. */
  lemma KankenKeysHold(lo: nat, hi: nat, level: string)
    requires 1 <= lo <= hi <= 12
    requires level in RemapKkInt && lo <= KankenIndex(level) <= hi
    ensures "k" + level in KankenKeys(lo, hi)
  {
    var i := KankenIndex(level) - lo;
    assert KankenKeys(lo, hi)[i] == KankenKey(lo + i);
    LevelOfIndex(level);
  }

  /** A key "k" + level in the kanken range names a level whose index lies between the bounds. */
  lemma KankenKeysOnly(lo: nat, hi: nat, level: string)
    requires 1 <= lo <= hi <= 12
    requires "k" + level in KankenKeys(lo, hi)
    ensures level in RemapKkInt && lo <= KankenIndex(level) <= hi
  {
    var keys := KankenKeys(lo, hi);
    var i :| 0 <= i < |keys| && keys[i] == "k" + level;
    assert keys[i] == KankenKey(lo + i);
    var v := KankenLevel(lo + i);
    assert ("k" + v)[1..] == v;
    assert ("k" + level)[1..] == level;
    assert level == v;
  }

  /** Every key of a kanken range is "k" + a level whose index lies between the bounds. */
  lemma KankenKeysForm(lo: nat, hi: nat)
    requires 1 <= lo <= hi <= 12
    ensures forall key :: key in KankenKeys(lo, hi) ==>
      exists v :: v in RemapKkInt && lo <= KankenIndex(v) <= hi && key == "k" + v
  {
    var keys := KankenKeys(lo, hi);
    forall key | key in keys
      ensures exists v :: v in RemapKkInt && lo <= KankenIndex(v) <= hi && key == "k" + v
    {
      var i :| 0 <= i < |keys| && keys[i] == key;
      var v := KankenLevel(lo + i);
      assert key == "k" + v;
    }
  }

  /**
    A kanken range holds "k" + every level whose index lies between its
    bounds, and every key in it is of that form.
  */
  lemma KankenKeysMembership(lo: nat, hi: nat, level: string)
    requires 1 <= lo <= hi <= 12
    ensures "k" + level in KankenKeys(lo, hi) <==> level in RemapKkInt && lo <= KankenIndex(level) <= hi
    ensures forall key :: key in KankenKeys(lo, hi) ==>
      exists v :: v in RemapKkInt && lo <= KankenIndex(v) <= hi && key == "k" + v
  {
    if level in RemapKkInt && lo <= KankenIndex(level) <= hi {
      KankenKeysHold(lo, hi, level);
    }
    if "k" + level in KankenKeys(lo, hi) {
      KankenKeysOnly(lo, hi, level);
    }
    KankenKeysForm(lo, hi);
  }

  /**
    A range clause succeeds exactly when both endpoints are grade endpoints,
    or both are kanken endpoints and at least one carries the "k" marker.
    Otherwise an empty endpoint raises IndexError, a kanken range with an
    endpoint outside the table KeyError, and a grade range with an endpoint
    that is not "s" or a decimal number ValueError.
  */
  lemma RangeSucceedsExactlyWhen(lower: string, upper: string)
    ensures RangeKeys(lower, upper).Ok? <==>
      (GradeEndpoint(lower) && GradeEndpoint(upper)) ||
      (KankenEndpoint(lower) && KankenEndpoint(upper) && (StartsWithK(lower) || StartsWithK(upper)))
    ensures lower == [] || upper == [] ==> RangeKeys(lower, upper) == Err(IndexError)
    ensures (lower != [] && upper != [] && (StartsWithK(lower) || StartsWithK(upper)) &&
             !(KankenEndpoint(lower) && KankenEndpoint(upper))) ==> RangeKeys(lower, upper) == Err(KeyError)
    ensures (lower != [] && upper != [] && !StartsWithK(lower) && !StartsWithK(upper) &&
             !(GradeEndpoint(lower) && GradeEndpoint(upper))) ==> RangeKeys(lower, upper) == Err(ValueError)
  {
    if lower != [] && upper != [] && !(lower[0] == 'k' || upper[0] == 'k') {
      var up := if upper == "s" then "7" else upper;
      var lo := if lower == "s" then "7" else lower;
      assert ParseDecimal(up).Some? <==> GradeEndpoint(upper);
      assert ParseDecimal(lo).Some? <==> GradeEndpoint(lower);
      assert !KankenEndpoint(lower) || !KankenEndpoint(upper) || !(StartsWithK(lower) || StartsWithK(upper));
    }
    if GradeEndpoint(lower) && GradeEndpoint(upper) {
      assert lower[0] != 'k' && upper[0] != 'k';
    }
  }

  function Min(a: nat, b: nat): nat { if a < b then a else b }

  function Max(a: nat, b: nat): nat { if a < b then b else a }

  /** A grade range is the grade keys from the smaller to the larger endpoint value. */
  lemma GradeRangeIsGradeKeys(lower: string, upper: string)
    requires GradeEndpoint(lower) && GradeEndpoint(upper)
    ensures RangeKeys(lower, upper) ==
      Ok(GradeKeys(Min(GradeValue(lower), GradeValue(upper)), Max(GradeValue(lower), GradeValue(upper))))
  {
    assert lower[0] != 'k' && upper[0] != 'k';
    assert ParseDecimal("7") == Some(7);
  }

  /** The grade keys from lo to hi are exactly the keys of the integers from lo to hi. */
  lemma GradeKeysCover(lo: nat, hi: nat)
    requires lo <= hi
    ensures forall x: nat :: GradeKey(x) in GradeKeys(lo, hi) <==> lo <= x <= hi
    ensures forall key :: key in GradeKeys(lo, hi) ==> exists x: nat :: lo <= x <= hi && key == GradeKey(x)
  {
    forall x: nat ensures GradeKey(x) in GradeKeys(lo, hi) <==> lo <= x <= hi {
      GradeKeysMembership(lo, hi, x);
    }
    forall key | key in GradeKeys(lo, hi) ensures exists x: nat :: lo <= x <= hi && key == GradeKey(x) {
      var i :| 0 <= i < |GradeKeys(lo, hi)| && GradeKeys(lo, hi)[i] == key;
      assert key == GradeKey(lo + i);
    }
  }

  /**
    A grade range yields the key of every integer from the smaller to the
    larger endpoint value, "s" counting as 7, and nothing else.
  */
  lemma GradeRangeKeys(lower: string, upper: string)
    requires GradeEndpoint(lower) && GradeEndpoint(upper)
    ensures var lo, hi := Min(GradeValue(lower), GradeValue(upper)), Max(GradeValue(lower), GradeValue(upper));
      RangeKeys(lower, upper).Ok? &&
      |RangeKeys(lower, upper).value| == hi - lo + 1 &&
      (forall x: nat :: GradeKey(x) in RangeKeys(lower, upper).value <==> lo <= x <= hi) &&
      (forall key :: key in RangeKeys(lower, upper).value ==> exists x: nat :: lo <= x <= hi && key == GradeKey(x))
  {
    GradeRangeIsGradeKeys(lower, upper);
    GradeKeysCover(Min(GradeValue(lower), GradeValue(upper)), Max(GradeValue(lower), GradeValue(upper)));
  }

  /** The keys of a kanken index range are exactly "k" + each level whose index lies in it. */
  lemma KankenKeysCover(lo: nat, hi: nat)
    requires 1 <= lo <= hi <= 12
    ensures forall v :: "k" + v in KankenKeys(lo, hi) <==> v in RemapKkInt && lo <= KankenIndex(v) <= hi
    ensures forall key :: key in KankenKeys(lo, hi) ==>
      exists v :: v in RemapKkInt && lo <= KankenIndex(v) <= hi && key == "k" + v
  {
    forall v ensures "k" + v in KankenKeys(lo, hi) <==> v in RemapKkInt && lo <= KankenIndex(v) <= hi {
      KankenKeysMembership(lo, hi, v);
    }
    KankenKeysMembership(lo, hi, "");
  }

  /**
    A kanken range yields "k" + every level whose index lies between the
    indices of its two endpoints (after the "k" markers are stripped), and
    nothing else.
  */
  lemma KankenRangeKeys(lower: string, upper: string)
    requires KankenEndpoint(lower) && KankenEndpoint(upper) && (StartsWithK(lower) || StartsWithK(upper))
    ensures var a, b := KankenIndex(StripK(lower)), KankenIndex(StripK(upper));
      var lo, hi := Min(a, b), Max(a, b);
      RangeKeys(lower, upper).Ok? &&
      |RangeKeys(lower, upper).value| == hi - lo + 1 &&
      (forall v :: "k" + v in RangeKeys(lower, upper).value <==> v in RemapKkInt && lo <= KankenIndex(v) <= hi) &&
      (forall key :: key in RangeKeys(lower, upper).value ==>
        exists v :: v in RemapKkInt && lo <= KankenIndex(v) <= hi && key == "k" + v)
  {
    var a, b := KankenIndex(StripK(lower)), KankenIndex(StripK(upper));
    var lo, hi := Min(a, b), Max(a, b);
    assert RangeKeys(lower, upper) == Ok(KankenKeys(lo, hi));
    KankenKeysCover(lo, hi);
  }

  /** Range symmetry: the endpoints of a range may be written in either order, errors included. */
  lemma RangeSymmetric(a: string, b: string)
    ensures RangeKeys(a, b) == RangeKeys(b, a)
  {
  }

  /** A clause "a-b" whose endpoints hold no dash is the range of the lower-cased endpoints. */
  lemma RangeClause(a: string, b: string)
    requires '-' !in a && '-' !in b
    ensures ClauseKeys(a + "-" + b) == RangeKeys(Lower(a), Lower(b))
  {
    SplitConcat(a, b, '-');
    SplitNoSep(a, '-');
    SplitNoSep(b, '-');
    assert a + "-" + b == a + ['-'] + b;
  }

  /** A query that is a single clause selects what that clause's keys select. */
  lemma SingleClause(m: map<string, seq<KanjiRecord>>, d: string)
    requires ',' !in d
    ensures ClauseKeys(d).Err? ==> Resolve(m, d) == Err(ClauseKeys(d).error)
    ensures ClauseKeys(d).Ok? ==> Resolve(m, d) == Ok(Selected(m, ClauseKeys(d).value))
  {
    SplitNoSep(d, ',');
    assert [d][..0] == [];
    if ClauseKeys(d).Ok? {
      assert [] + ClauseKeys(d).value == ClauseKeys(d).value;
    }
  }

  /** Range symmetry for whole queries: "a-b" and "b-a" select the same records or raise the same error. */
  lemma ResolveSymmetric(m: map<string, seq<KanjiRecord>>, a: string, b: string)
    requires '-' !in a && '-' !in b && ',' !in a && ',' !in b
    ensures Resolve(m, a + "-" + b) == Resolve(m, b + "-" + a)
  {
    RangeClause(a, b);
    RangeClause(b, a);
    RangeSymmetric(Lower(a), Lower(b));
    assert ',' !in a + "-" + b;
    assert ',' !in b + "-" + a;
    SingleClause(m, a + "-" + b);
    SingleClause(m, b + "-" + a);
  }

  /**
    A clause that does not split into exactly two endpoints is one key, its
    lower-cased text; it raises nothing, however many dashes it has.
  */
  lemma NonRangeClause(d: string)
    requires Count(d, '-') != 1
    ensures ClauseKeys(d) == Ok([Lower(d)])
  {
  }

  // ---------------------------------------------------------------------------
  // Worked queries

  lemma ExampleRange13()
    ensures RangeKeys("1", "3") == Ok(["1", "2", "3"])
  {
    SmallDecimals();
    DecimalRoundTrip(1);
    DecimalRoundTrip(3);
    assert GradeKeys(1, 3) == [GradeKey(1), GradeKey(2), GradeKey(3)];
  }

  lemma ExampleRange5S()
    ensures RangeKeys("5", "s") == Ok(["5", "6", "S"])
  {
    SmallDecimals();
    DecimalRoundTrip(5);
    DecimalRoundTrip(7);
    assert GradeKeys(5, 7) == [GradeKey(5), GradeKey(6), GradeKey(7)];
  }

  lemma ExampleClause13()
    ensures ClauseKeys("1-3") == Ok(["1", "2", "3"])
  {
    RangeClause("1", "3");
    assert "1" + "-" + "3" == "1-3";
    LowerOfLower("1");
    LowerOfLower("3");
    ExampleRange13();
  }

  lemma ExampleClause5S()
    ensures ClauseKeys("5-s") == Ok(["5", "6", "S"])
  {
    RangeClause("5", "s");
    assert "5" + "-" + "s" == "5-s";
    LowerOfLower("5");
    LowerOfLower("s");
    ExampleRange5S();
  }

  /** "1-3" is grades 1, 2 and 3; in "5-s" the "s" counts as 7 and comes back as "S". */
  lemma ExampleGradeRanges()
    ensures ClauseKeys("1-3") == Ok(["1", "2", "3"])
    ensures ClauseKeys("5-s") == Ok(["5", "6", "S"])
  {
    ExampleClause13();
    ExampleClause5S();
  }

  lemma IndexOfLevelFour()
    ensures KankenIndex("4") == 6
  {
    SmallDecimals();
    DecimalInjective(KankenIndex("4"), 6);
  }

  lemma LevelsThreeToSix()
    ensures KankenLevel(3) == "2" && KankenLevel(4) == "2.5" && KankenLevel(5) == "3" && KankenLevel(6) == "4"
  {
    HalfLevelsInterleave();
    IndexOfLevelFour();
    LevelOfIndex("2");
    LevelOfIndex("2.5");
    LevelOfIndex("3");
    LevelOfIndex("4");
  }

  lemma KankenKeysThreeToSix()
    ensures KankenKeys(3, 6) == ["k2", "k2.5", "k3", "k4"]
  {
    LevelsThreeToSix();
    assert KankenKey(3) == "k2" && KankenKey(4) == "k2.5" && KankenKey(5) == "k3" && KankenKey(6) == "k4";
    assert KankenKeys(3, 6) == [KankenKey(3), KankenKey(4), KankenKey(5), KankenKey(6)];
  }

  lemma ExampleRangeK4To2()
    ensures RangeKeys("k4", "2") == Ok(["k2", "k2.5", "k3", "k4"])
  {
    assert StripK("k4") == "4" && StripK("2") == "2";
    HalfLevelsInterleave();
    IndexOfLevelFour();
    assert RangeKeys("k4", "2") == Ok(KankenKeys(3, 6));
    KankenKeysThreeToSix();
  }

  /** "k4-2" is the kanken levels from 2 up to 4, the half level 2.5 included. */
  lemma ExampleKankenRange()
    ensures ClauseKeys("k4-2") == Ok(["k2", "k2.5", "k3", "k4"])
  {
    RangeClause("k4", "2");
    assert "k4" + "-" + "2" == "k4-2";
    LowerOfLower("k4");
    LowerOfLower("2");
    ExampleRangeK4To2();
  }

  /** "1-2-3" is not an error but the key "1-2-3"; a bare "S" or "s" is the key "s". */
  lemma ExampleBareClauses()
    ensures ClauseKeys("1-2-3") == Ok(["1-2-3"])
    ensures ClauseKeys("S") == Ok(["s"]) && ClauseKeys("s") == Ok(["s"])
  {
    assert "1-2-3" == "1" + ['-'] + ("2" + ['-'] + "3");
    SplitConcat("1", "2" + ['-'] + "3", '-');
    SplitConcat("2", "3", '-');
    SplitNoSep("1", '-');
    SplitNoSep("2", '-');
    SplitNoSep("3", '-');
    LowerOfLower("1-2-3");
    SplitNoSep("S", '-');
    SplitNoSep("s", '-');
    assert Lower("S") == "s";
    LowerOfLower("s");
  }

  lemma ExampleEmptyEndpoint()
    ensures ClauseKeys("-3") == Err(IndexError)
  {
    RangeClause("", "3");
    assert "" + "-" + "3" == "-3";
  }

  lemma ExampleRangeK4ToX()
    ensures RangeKeys("k4", "x") == Err(KeyError)
  {
    LevelKeys();
    assert "x" !in RemapKkInt;
    assert StripK("x") == "x";
  }

  lemma ExampleUnknownKanken()
    ensures ClauseKeys("k4-x") == Err(KeyError)
  {
    RangeClause("k4", "x");
    assert "k4" + "-" + "x" == "k4-x";
    LowerOfLower("k4");
    LowerOfLower("x");
    ExampleRangeK4ToX();
  }

  lemma ExampleNotANumber()
    ensures ClauseKeys("1-x") == Err(ValueError)
  {
    RangeClause("1", "x");
    assert "1" + "-" + "x" == "1-x";
    LowerOfLower("1");
    LowerOfLower("x");
    assert !IsDigit('x');
    assert ParseDecimal("x") == None;
  }
}
