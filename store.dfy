/**
  The record store of the worksheet generator (generate.py): every record is
  filed in one dictionary under its grade key ("1".."6", "S", or whatever the
  data says) and, when it has a kanken level, also under "k" + that level.
  Records are objects, so the same record reached through two keys is one
  record, as with Python's references.
*/
module KanjiStore {
  import opened Wrappers
  import opened DictIndex

  /** One kanji entry of generate.py; nothing changes it after construction. */
  class KanjiRecord {
    const kanji: string
    const grade: string
    const kanken: Option<string>
    const english: string
    const readings: seq<string>

    constructor (kanji: string, grade: string, kanken: Option<string>, english: string, readings: seq<string>)
      ensures this.kanji == kanji && this.grade == grade && this.kanken == kanken
      ensures this.english == english && this.readings == readings
    {
      this.kanji := kanji;
      this.grade := grade;
      this.kanken := kanken;
      this.english := english;
      this.readings := readings;
    }
  }

  /** Two sets of records are equal when they hold the same records. */
  lemma SameRecords(x: set<KanjiRecord>, y: set<KanjiRecord>)
    requires forall r: KanjiRecord :: r in x <==> r in y
    ensures x == y
  {
  }

  /** The store: key string to the list of records filed under it. */
  type KanjiDb = ListDict<KanjiRecord>

  /** Whether `r` belongs under key `k`: its grade is `k`, or `k` is "k" + its kanken level. */
  predicate Belongs(r: KanjiRecord, k: string)
  {
    k == r.grade || (r.kanken.Some? && k == "k" + r.kanken.value)
  }

  /**
    The copies of `r` that adding it puts under `k`: one for the grade key and
    one for the kanken key (two when both keys are the same string).
  */
  function FiledUnder(r: KanjiRecord, k: string): (copies: seq<KanjiRecord>)
    ensures r in copies <==> Belongs(r, k)
    ensures forall x :: x in copies ==> x == r
  {
    (if k == r.grade then [r] else []) + (if r.kanken.Some? && k == "k" + r.kanken.value then [r] else [])
  }

  /**
    The store after `addRecord(db, r)`: the list under every key grows by the
    copies of `r` that belong there, at its end, and the keys gained are the
    grade key and, for a rated record, its kanken key.
  */
  function AddToIndex(m: map<string, seq<KanjiRecord>>, r: KanjiRecord): (m': map<string, seq<KanjiRecord>>)
    ensures forall k :: Lookup(m', k) == Lookup(m, k) + FiledUnder(r, k)
    ensures m'.Keys == m.Keys + {r.grade} + (if r.kanken.Some? then {"k" + r.kanken.value} else {})
  {
    var m1 := Appended(m, r.grade, r);
    if r.kanken.Some? then Appended(m1, "k" + r.kanken.value, r) else m1
  }

  /** `newEmptyDb()`. */
  method NewEmptyDb() returns (db: KanjiDb)
    ensures fresh(db) && db.lists == map[]
  {
    db := new ListDict();
  }

  /** `addRecord(db, record)`: files the record under its grade key and, when rated, its kanken key. */
  method AddRecord(db: KanjiDb, record: KanjiRecord)
    modifies db
    ensures db.lists == AddToIndex(old(db.lists), record)
  {
    db.AppendUnder(record.grade, record);
    if record.kanken.Some? {
      db.AppendUnder("k" + record.kanken.value, record);
    }
  }

  /** Every record in the store sits under a key it belongs to. */
  ghost predicate WellFiled(m: map<string, seq<KanjiRecord>>)
  {
    forall k, i :: k in m && 0 <= i < |m[k]| ==> Belongs(m[k][i], k)
  }

  /** Adding a record keeps every record under a key it belongs to. */
  lemma AddKeepsWellFiled(m: map<string, seq<KanjiRecord>>, r: KanjiRecord)
    requires WellFiled(m)
    ensures WellFiled(AddToIndex(m, r))
  {
    var m' := AddToIndex(m, r);
    forall k, i | k in m' && 0 <= i < |m'[k]| ensures Belongs(m'[k][i], k) {
      assert m'[k] == Lookup(m, k) + FiledUnder(r, k);
      if i >= |Lookup(m, k)| {
        assert m'[k][i] in FiledUnder(r, k);
      }
    }
  }

  /** The store built by adding `records` one after another to an empty store. */
  function IndexOf(records: seq<KanjiRecord>): map<string, seq<KanjiRecord>>
  {
    if records == [] then map[] else AddToIndex(IndexOf(records[..|records| - 1]), records[|records| - 1])
  }

  /** The records of `records` that belong under `k`, in order, one copy per key that matches. */
  function FilteredUnder(records: seq<KanjiRecord>, k: string): seq<KanjiRecord>
  {
    if records == [] then [] else FilteredUnder(records[..|records| - 1], k) + FiledUnder(records[|records| - 1], k)
  }

  /**
    The list under each key of a built store is exactly the input records that
    belong there, in input order.
  */
  lemma {:induction false} IndexOfLookup(records: seq<KanjiRecord>, k: string)
    ensures Lookup(IndexOf(records), k) == FilteredUnder(records, k)
  {
    if records != [] {
      IndexOfLookup(records[..|records| - 1], k);
    }
  }

  /** A record is found under key `k` of a built store exactly when it was added and belongs under `k`. */
  lemma {:induction false} IndexOfMembership(records: seq<KanjiRecord>, k: string, r: KanjiRecord)
    ensures r in Lookup(IndexOf(records), k) <==> r in records && Belongs(r, k)
  {
    IndexOfLookup(records, k);
    FilteredMembership(records, k, r);
  }

  lemma {:induction false} FilteredMembership(records: seq<KanjiRecord>, k: string, r: KanjiRecord)
    ensures r in FilteredUnder(records, k) <==> r in records && Belongs(r, k)
  {
    if records != [] {
      var init, last := records[..|records| - 1], records[|records| - 1];
      FilteredMembership(init, k, r);
      assert records == init + [last];
    }
  }

  /** `loadDbFromCleanCsv` without the file: every record, in order, goes through `addRecord`. */
  method LoadDb(records: seq<KanjiRecord>) returns (db: KanjiDb)
    ensures fresh(db) && db.lists == IndexOf(records)
  {
    db := NewEmptyDb();
    for i := 0 to |records|
      invariant db.lists == IndexOf(records[..i])
    {
      assert records[..i + 1][..i] == records[..i];
      AddRecord(db, records[i]);
    }
    assert records[..|records|] == records;
  }
}
