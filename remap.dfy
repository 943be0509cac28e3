/**
  The two literal tables that bridge the kanken levels and a dense integer
  scale (generate.py:198-202). Kanken levels run 1, 1.5, 2, 2.5, 3, ..., 10;
  the half levels sit between the whole ones, so the table numbers them
  1..12 in that order. Both tables map strings to strings, as in the source;
  the integer side is read with `int()` and written with `str()`.
*/
module Remap {
  import opened Wrappers
  import opened Text

  /** `REMAP_KK_INT`: kanken level to its dense index. */
  const RemapKkInt: map<string, string> :=
    map["1" := "1", "1.5" := "2", "2" := "3", "2.5" := "4", "3" := "5", "4" := "6",
        "5" := "7", "6" := "8", "7" := "9", "8" := "10", "9" := "11", "10" := "12"]

  /** `REMAP_INT_KK`: dense index back to its kanken level. */
  const RemapIntKk: map<string, string> :=
    map["1" := "1", "2" := "1.5", "3" := "2", "4" := "2.5", "5" := "3", "6" := "4",
        "7" := "5", "8" := "6", "9" := "7", "10" := "8", "11" := "9", "12" := "10"]

  /** The decimal forms of 1..12 spelled out, so that the solver can match them against the table literals. */
  lemma SmallDecimals()
    ensures NatToDecimal(1) == "1" && NatToDecimal(2) == "2" && NatToDecimal(3) == "3"
    ensures NatToDecimal(4) == "4" && NatToDecimal(5) == "5" && NatToDecimal(6) == "6"
    ensures NatToDecimal(7) == "7" && NatToDecimal(8) == "8" && NatToDecimal(9) == "9"
    ensures NatToDecimal(10) == "10" && NatToDecimal(11) == "11" && NatToDecimal(12) == "12"
  {
    assert NatToDecimal(1) == [DigitChar(1)];
    assert NatToDecimal(10) == NatToDecimal(1) + [DigitChar(0)];
    assert NatToDecimal(11) == NatToDecimal(1) + [DigitChar(1)];
    assert NatToDecimal(12) == NatToDecimal(1) + [DigitChar(2)];
  }

  /** The keys of `REMAP_KK_INT` are the twelve kanken levels. */
  lemma LevelKeys()
    ensures RemapKkInt.Keys == {"1", "1.5", "2", "2.5", "3", "4", "5", "6", "7", "8", "9", "10"}
  {
  }

  /** The nine one-character kanken levels of `REMAP_KK_INT`, without 1.5, 2.5 and 10. */
  function WholeLevels(): map<string, string>
  {
    map["1" := "1", "2" := "3", "3" := "5", "4" := "6", "5" := "7", "6" := "8", "7" := "9", "8" := "10", "9" := "11"]
  }

  lemma OneCharacterLevels()
    ensures |WholeLevels()| == 9
    ensures forall v :: v in WholeLevels() ==> |v| == 1
  {
  }

  lemma LevelTableParts()
    ensures WholeLevels()["1.5" := "2"]["2.5" := "4"]["10" := "12"] == RemapKkInt
  {
  }

  lemma LevelTableSize()
    ensures |RemapKkInt| == 12
  {
    OneCharacterLevels();
    LevelTableParts();
  }

  /** The nine one-digit indices of `REMAP_INT_KK`, without 10, 11 and 12. */
  function OneDigitIndexTable(): map<string, string>
  {
    map["1" := "1", "2" := "1.5", "3" := "2", "4" := "2.5", "5" := "3", "6" := "4", "7" := "5", "8" := "6", "9" := "7"]
  }

  lemma OneDigitIndices()
    ensures |OneDigitIndexTable()| == 9
    ensures forall i :: i in OneDigitIndexTable() ==> |i| == 1
  {
  }

  lemma IndexTableParts()
    ensures OneDigitIndexTable()["10" := "8"]["11" := "9"]["12" := "10"] == RemapIntKk
  {
  }

  lemma IndexTableSize()
    ensures |RemapIntKk| == 12
  {
    OneDigitIndices();
    IndexTableParts();
  }

  lemma LevelRoundTrip()
    ensures forall v :: v in RemapKkInt ==> RemapKkInt[v] in RemapIntKk && RemapIntKk[RemapKkInt[v]] == v
  {
  }

  lemma IndexRoundTrip()
    ensures forall i :: i in RemapIntKk ==> RemapIntKk[i] in RemapKkInt && RemapKkInt[RemapIntKk[i]] == i
  {
  }

  /**
    The two tables are inverse to each other, entry by entry, over exactly
    twelve kanken levels.
  */
  lemma TablesAreInverse()
    ensures |RemapKkInt| == 12 && |RemapIntKk| == 12
    ensures forall v :: v in RemapKkInt ==> RemapKkInt[v] in RemapIntKk && RemapIntKk[RemapKkInt[v]] == v
    ensures forall i :: i in RemapIntKk ==> RemapIntKk[i] in RemapKkInt && RemapKkInt[RemapIntKk[i]] == i
    ensures RemapIntKk.Keys == RemapKkInt.Values
  {
    LevelTableSize();
    IndexTableSize();
    LevelRoundTrip();
    IndexRoundTrip();
    forall i | i in RemapIntKk ensures i in RemapKkInt.Values {
      assert RemapKkInt[RemapIntKk[i]] == i;
    }
    forall i | i in RemapKkInt.Values ensures i in RemapIntKk {
      var v :| v in RemapKkInt && RemapKkInt[v] == i;
    }
  }

  /** Every index 1..12, written with `str()`, is a key of `REMAP_INT_KK`. */
  lemma DecimalsAreIndices()
    ensures forall n :: 1 <= n <= 12 ==> NatToDecimal(n) in RemapIntKk
  {
    SmallDecimals();
  }

  /** The first nine indices are the one-digit decimals. */
  lemma LowIndices(i: string)
    requires i in RemapIntKk && |i| == 1
    ensures exists n: nat :: 1 <= n <= 12 && i == NatToDecimal(n)
  {
    SmallDecimals();
    if i == "1" { assert i == NatToDecimal(1); }
    else if i == "2" { assert i == NatToDecimal(2); }
    else if i == "3" { assert i == NatToDecimal(3); }
    else if i == "4" { assert i == NatToDecimal(4); }
    else if i == "5" { assert i == NatToDecimal(5); }
    else if i == "6" { assert i == NatToDecimal(6); }
    else if i == "7" { assert i == NatToDecimal(7); }
    else if i == "8" { assert i == NatToDecimal(8); }
    else { assert i == NatToDecimal(9); }
  }

  /** The last three indices are the two-digit decimals 10, 11 and 12. */
  lemma HighIndices(i: string)
    requires i in RemapIntKk && |i| != 1
    ensures exists n: nat :: 1 <= n <= 12 && i == NatToDecimal(n)
  {
    SmallDecimals();
    if i == "10" { assert i == NatToDecimal(10); }
    else if i == "11" { assert i == NatToDecimal(11); }
    else { assert i == NatToDecimal(12); }
  }

  /** Each index reads as an integer 1..12 that `str()` writes back unchanged. */
  lemma IndexIsDecimal(i: string)
    requires i in RemapIntKk
    ensures ParseDecimal(i).Some? && 1 <= ParseDecimal(i).value <= 12 && NatToDecimal(ParseDecimal(i).value) == i
  {
    if |i| == 1 {
      LowIndices(i);
    } else {
      HighIndices(i);
    }
    var n: nat :| 1 <= n <= 12 && i == NatToDecimal(n);
    DecimalRoundTrip(n);
  }

  /**
    The indices the tables use are exactly `str(n)` for n in 1..12: each
    reads back with `int()` as a number in that range and is its canonical
    decimal form.
  */
  lemma IndicesAreDecimals()
    ensures forall n :: 1 <= n <= 12 ==> NatToDecimal(n) in RemapIntKk
    ensures forall i :: i in RemapIntKk ==>
      ParseDecimal(i).Some? && 1 <= ParseDecimal(i).value <= 12 && NatToDecimal(ParseDecimal(i).value) == i
  {
    DecimalsAreIndices();
    forall i | i in RemapIntKk {
      IndexIsDecimal(i);
    }
  }

  /** The dense index of a kanken level: `int(REMAP_KK_INT[level])`. */
  function KankenIndex(level: string): (n: nat)
    requires level in RemapKkInt
    ensures 1 <= n <= 12
    ensures ParseDecimal(RemapKkInt[level]) == Some(n)
    ensures NatToDecimal(n) == RemapKkInt[level]
  {
    TablesAreInverse();
    IndicesAreDecimals();
    ParseDecimal(RemapKkInt[level]).value
  }

  /** The kanken level at a dense index: `REMAP_INT_KK[str(n)]`. */
  function KankenLevel(n: nat): (level: string)
    requires 1 <= n <= 12
    ensures level in RemapKkInt && KankenIndex(level) == n
  {
    TablesAreInverse();
    IndicesAreDecimals();
    var level := RemapIntKk[NatToDecimal(n)];
    DecimalInjective(KankenIndex(level), n);
    level
  }

  /** Every kanken level is the level at its own index. */
  lemma LevelOfIndex(level: string)
    requires level in RemapKkInt
    ensures KankenLevel(KankenIndex(level)) == level
  {
    TablesAreInverse();
  }

  /**
    The order of the dense scale: whole levels 1..2 take indices 1 and 3 with
    1.5 between them, 2.5 sits between 2 and 3, and level 10 is the last index.
  */
  lemma HalfLevelsInterleave()
    ensures KankenIndex("1") == 1 && KankenIndex("1.5") == 2 && KankenIndex("2") == 3
    ensures KankenIndex("2.5") == 4 && KankenIndex("3") == 5 && KankenIndex("10") == 12
  {
    SmallDecimals();
    DecimalInjective(KankenIndex("1"), 1);
    DecimalInjective(KankenIndex("1.5"), 2);
    DecimalInjective(KankenIndex("2"), 3);
    DecimalInjective(KankenIndex("2.5"), 4);
    DecimalInjective(KankenIndex("3"), 5);
    DecimalInjective(KankenIndex("10"), 12);
  }
}
