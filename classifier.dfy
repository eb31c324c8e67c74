/**
  The threshold classifiers of MatterAirQualitySensor (and of its earlier copy
  MatterAirQuality): CO2 on the latest reading, PM2.5 and PM10 on the windowed
  averages, each truncated to uint16 before it is compared.
 */
module Classifier {
  import opened AirQualityLevels

  /** A uint16 value. */
  type UInt16 = x: int | 0 <= x < 0x1_0000

  /** Reals a float-to-uint16 conversion is defined on. */
  predicate InUInt16Range(x: real)
  {
    0.0 <= x < 65536.0
  }

  /** The implicit float-to-uint16 conversion: truncation toward zero. */
  function TruncateToUInt16(x: real): (r: UInt16)
    requires InUInt16Range(x)
    ensures r as real <= x < r as real + 1.0
  {
    x.Floor
  }

  /** `ClassifyAirQualityByCO2`, given the truncated latest CO2 reading (ppm). */
  function ClassifyByCO2(ppm: UInt16): (r: Level)
    ensures r != Unknown
    ensures r == Good <==> 400 <= ppm <= 600
    ensures r == Fair <==> ppm < 400 || 600 < ppm <= 700
    ensures r == Moderate <==> 700 < ppm <= 800
    ensures r == Poor <==> 800 < ppm <= 950
    ensures r == VeryPoor <==> 950 < ppm <= 1200
    ensures r == ExtremelyPoor <==> 1200 < ppm
  {
    if 400 <= ppm && ppm <= 600 then Good
    else if ppm <= 700 then Fair
    else if ppm <= 800 then Moderate
    else if ppm <= 950 then Poor
    else if ppm <= 1200 then VeryPoor
    else if ppm > 1200 then ExtremelyPoor
    else Unknown // the fall-through return; no ppm reaches it
  }

  /** `ClassifyAirQualityByPM25`, given the truncated PM2.5 average (ug/m3). */
  function ClassifyByPM25(pm25: UInt16): (r: Level)
    ensures r != Unknown
  {
    if pm25 <= 15 then Good
    else if pm25 <= 30 then Fair
    else if pm25 <= 50 then Moderate
    else if pm25 <= 100 then Poor
    else if pm25 <= 150 then VeryPoor
    else ExtremelyPoor
  }

  /** `ClassifyAirQualityByPM10`, given the truncated PM10 average (ug/m3). */
  function ClassifyByPM10(pm10: UInt16): (r: Level)
    ensures r != Unknown
  {
    if pm10 <= 30 then Good
    else if pm10 <= 60 then Fair
    else if pm10 <= 120 then Moderate
    else if pm10 <= 260 then Poor
    else if pm10 <= 400 then VeryPoor
    else ExtremelyPoor
  }

  /**
    The overall level of one publication: the worst of the three
    classifications, all three always consulted.
   */
  function OverallLevel(co2Latest: real, pm25Average: real, pm10Average: real): (r: Level)
    requires InUInt16Range(co2Latest) && InUInt16Range(pm25Average) && InUInt16Range(pm10Average)
    ensures r != Unknown
    ensures Rank(ClassifyByCO2(TruncateToUInt16(co2Latest))) <= Rank(r)
    ensures Rank(ClassifyByPM25(TruncateToUInt16(pm25Average))) <= Rank(r)
    ensures Rank(ClassifyByPM10(TruncateToUInt16(pm10Average))) <= Rank(r)
    ensures r == ClassifyByCO2(TruncateToUInt16(co2Latest))
         || r == ClassifyByPM25(TruncateToUInt16(pm25Average))
         || r == ClassifyByPM10(TruncateToUInt16(pm10Average))
  {
    Worst3(ClassifyByCO2(TruncateToUInt16(co2Latest)),
           ClassifyByPM25(TruncateToUInt16(pm25Average)),
           ClassifyByPM10(TruncateToUInt16(pm10Average)))
  }

  // ---------------------------------------------------------------------
  // Reference definition: an ascending table of (upper bound, level) pairs.
  // ---------------------------------------------------------------------

  datatype Threshold = Threshold(upper: int, level: Level)

  /**
    The first row whose inclusive upper bound the value does not exceed
    decides the level; a value above every bound is ExtremelyPoor.
   */
  function ClassifyByTable(table: seq<Threshold>, v: int): (r: Level)
    ensures r == ExtremelyPoor || exists i :: 0 <= i < |table| && table[i].level == r
  {
    if table == [] then ExtremelyPoor
    else if v <= table[0].upper then table[0].level
    else
      var r := ClassifyByTable(table[1..], v);
      assert r != ExtremelyPoor ==> exists i :: 0 <= i < |table[1..]| && table[1..][i].level == r;
      assert forall i :: 0 <= i < |table[1..]| ==> table[1..][i] == table[i + 1];
      r
  }

  /** Bounds strictly ascending and levels ascending by rank. */
  ghost predicate AscendingTable(table: seq<Threshold>)
  {
    forall i, j :: 0 <= i < j < |table| ==> table[i].upper < table[j].upper && Rank(table[i].level) <= Rank(table[j].level)
  }

  const Pm25Table: seq<Threshold> :=
    [Threshold(15, Good), Threshold(30, Fair), Threshold(50, Moderate), Threshold(100, Poor), Threshold(150, VeryPoor)]

  const Pm10Table: seq<Threshold> :=
    [Threshold(30, Good), Threshold(60, Fair), Threshold(120, Moderate), Threshold(260, Poor), Threshold(400, VeryPoor)]

  /** The CO2 table as the design describes it, with readings below 400 ppm as Unknown. */
  const Co2DescribedTable: seq<Threshold> :=
    [Threshold(399, Unknown), Threshold(600, Good), Threshold(700, Fair), Threshold(800, Moderate),
     Threshold(950, Poor), Threshold(1200, VeryPoor)]

  /** Every result of a table lookup is at least as bad as the table's first row. */
  lemma {:induction false} TableResultAtLeastFirst(table: seq<Threshold>, v: int)
    requires AscendingTable(table) && table != []
    ensures Rank(table[0].level) <= Rank(ClassifyByTable(table, v))
  {
    var r := ClassifyByTable(table, v);
    if r != ExtremelyPoor {
      var i :| 0 <= i < |table| && table[i].level == r;
      assert i == 0 || Rank(table[0].level) <= Rank(table[i].level);
    }
  }

  /** A lookup in an ascending table is monotone: a larger value never gives a better level. */
  lemma {:induction false} TableMonotone(table: seq<Threshold>, a: int, b: int)
    requires AscendingTable(table)
    requires a <= b
    ensures Rank(ClassifyByTable(table, a)) <= Rank(ClassifyByTable(table, b))
  {
    if table == [] {
    } else if b <= table[0].upper {
    } else if a <= table[0].upper {
      assert AscendingTable(table[1..]);
      if table[1..] != [] {
        TableResultAtLeastFirst(table[1..], b);
      }
    } else {
      assert AscendingTable(table[1..]);
      TableMonotone(table[1..], a, b);
    }
  }

  /** The PM2.5 classifier is the lookup in its table. */
  lemma Pm25MatchesTable(v: UInt16)
    ensures ClassifyByPM25(v) == ClassifyByTable(Pm25Table, v)
  {
    var t4 := [Threshold(150, VeryPoor)];
    var t3 := [Threshold(100, Poor)] + t4;
    var t2 := [Threshold(50, Moderate)] + t3;
    var t1 := [Threshold(30, Fair)] + t2;
    assert Pm25Table == [Threshold(15, Good)] + t1;
    assert t4[1..] == [] && t3[1..] == t4 && t2[1..] == t3 && t1[1..] == t2 && Pm25Table[1..] == t1;
    assert ClassifyByTable(t4, v) == if v <= 150 then VeryPoor else ExtremelyPoor;
    assert ClassifyByTable(t3, v) == if v <= 100 then Poor else ClassifyByTable(t4, v);
    assert ClassifyByTable(t2, v) == if v <= 50 then Moderate else ClassifyByTable(t3, v);
    assert ClassifyByTable(t1, v) == if v <= 30 then Fair else ClassifyByTable(t2, v);
  }

  /** The PM10 classifier is the lookup in its table. */
  lemma Pm10MatchesTable(v: UInt16)
    ensures ClassifyByPM10(v) == ClassifyByTable(Pm10Table, v)
  {
    var t4 := [Threshold(400, VeryPoor)];
    var t3 := [Threshold(260, Poor)] + t4;
    var t2 := [Threshold(120, Moderate)] + t3;
    var t1 := [Threshold(60, Fair)] + t2;
    assert Pm10Table == [Threshold(30, Good)] + t1;
    assert t4[1..] == [] && t3[1..] == t4 && t2[1..] == t3 && t1[1..] == t2 && Pm10Table[1..] == t1;
    assert ClassifyByTable(t4, v) == if v <= 400 then VeryPoor else ExtremelyPoor;
    assert ClassifyByTable(t3, v) == if v <= 260 then Poor else ClassifyByTable(t4, v);
    assert ClassifyByTable(t2, v) == if v <= 120 then Moderate else ClassifyByTable(t3, v);
    assert ClassifyByTable(t1, v) == if v <= 60 then Fair else ClassifyByTable(t2, v);
  }

  lemma Pm25TableAscending()
    ensures AscendingTable(Pm25Table)
  {
    forall i, j | 0 <= i < j < |Pm25Table|
      ensures Pm25Table[i].upper < Pm25Table[j].upper && Rank(Pm25Table[i].level) <= Rank(Pm25Table[j].level)
    {
      assert Rank(Pm25Table[i].level) == i + 1 && Rank(Pm25Table[j].level) == j + 1;
    }
  }

  lemma Pm10TableAscending()
    ensures AscendingTable(Pm10Table)
  {
    forall i, j | 0 <= i < j < |Pm10Table|
      ensures Pm10Table[i].upper < Pm10Table[j].upper && Rank(Pm10Table[i].level) <= Rank(Pm10Table[j].level)
    {
      assert Rank(Pm10Table[i].level) == i + 1 && Rank(Pm10Table[j].level) == j + 1;
    }
  }

  /** PM2.5 bands: ascending bounds 15/30/50/100/150, each inclusive, and monotone. */
  lemma Pm25Monotone(a: UInt16, b: UInt16)
    requires a <= b
    ensures Rank(ClassifyByPM25(a)) <= Rank(ClassifyByPM25(b))
  {
    Pm25MatchesTable(a);
    Pm25MatchesTable(b);
    Pm25TableAscending();
    TableMonotone(Pm25Table, a, b);
  }

  /** PM10 bands: ascending bounds 30/60/120/260/400, each inclusive, and monotone. */
  lemma Pm10Monotone(a: UInt16, b: UInt16)
    requires a <= b
    ensures Rank(ClassifyByPM10(a)) <= Rank(ClassifyByPM10(b))
  {
    Pm10MatchesTable(a);
    Pm10MatchesTable(b);
    Pm10TableAscending();
    TableMonotone(Pm10Table, a, b);
  }

  /**
    From 400 ppm up the CO2 classifier is the described table; below 400 ppm
    the code answers Fair where the table answers Unknown.
   */
  lemma Co2AgainstDescribedTable(ppm: UInt16)
    ensures 400 <= ppm ==> ClassifyByCO2(ppm) == ClassifyByTable(Co2DescribedTable, ppm)
    ensures ppm < 400 ==> ClassifyByCO2(ppm) == Fair && ClassifyByTable(Co2DescribedTable, ppm) == Unknown
  {
    var t5 := [Threshold(1200, VeryPoor)];
    var t4 := [Threshold(950, Poor)] + t5;
    var t3 := [Threshold(800, Moderate)] + t4;
    var t2 := [Threshold(700, Fair)] + t3;
    var t1 := [Threshold(600, Good)] + t2;
    assert Co2DescribedTable == [Threshold(399, Unknown)] + t1;
    assert t5[1..] == [] && t4[1..] == t5 && t3[1..] == t4 && t2[1..] == t3 && t1[1..] == t2;
    assert Co2DescribedTable[1..] == t1;
    assert ClassifyByTable(t5, ppm) == if ppm <= 1200 then VeryPoor else ExtremelyPoor;
    assert ClassifyByTable(t4, ppm) == if ppm <= 950 then Poor else ClassifyByTable(t5, ppm);
    assert ClassifyByTable(t3, ppm) == if ppm <= 800 then Moderate else ClassifyByTable(t4, ppm);
    assert ClassifyByTable(t2, ppm) == if ppm <= 700 then Fair else ClassifyByTable(t3, ppm);
    assert ClassifyByTable(t1, ppm) == if ppm <= 600 then Good else ClassifyByTable(t2, ppm);
  }

  /** The CO2 classifier is not monotone: 399 ppm is Fair but 400 ppm is Good. */
  lemma Co2NotMonotone()
    ensures exists a: UInt16, b: UInt16 :: a < b && Rank(ClassifyByCO2(b)) < Rank(ClassifyByCO2(a))
  {
    assert Rank(ClassifyByCO2(400)) < Rank(ClassifyByCO2(399));
  }

  lemma Co2DescribedTableAscending()
    ensures AscendingTable(Co2DescribedTable)
  {
    forall i, j | 0 <= i < j < |Co2DescribedTable|
      ensures Co2DescribedTable[i].upper < Co2DescribedTable[j].upper &&
              Rank(Co2DescribedTable[i].level) <= Rank(Co2DescribedTable[j].level)
    {
      assert Rank(Co2DescribedTable[i].level) == i && Rank(Co2DescribedTable[j].level) == j;
    }
  }

  /** From 400 ppm up the CO2 classifier is monotone. */
  lemma Co2MonotoneFromAmbient(a: UInt16, b: UInt16)
    requires 400 <= a <= b
    ensures Rank(ClassifyByCO2(a)) <= Rank(ClassifyByCO2(b))
  {
    Co2AgainstDescribedTable(a);
    Co2AgainstDescribedTable(b);
    Co2DescribedTableAscending();
    TableMonotone(Co2DescribedTable, a, b);
  }

  /** Truncation decides the band: a reading just below a bound's successor stays in the lower band. */
  lemma TruncationDecidesBand(x: real)
    requires 15.0 <= x < 16.0
    ensures ClassifyByPM25(TruncateToUInt16(x)) == Good
  {
  }
}
