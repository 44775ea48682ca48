// types.DataType (types/data-type.go): the set of observation types a
// station records, as a uint32 bitmask with one bit per type, the name of
// its lowest type, and the Parse variants that read a list of names.
module DataTypes {
  import opened Common
  import opened BitFlags

  /** A uint32 bitmask, as the set of its bit positions. */
  type DataType = Flags

  // The flags, by bit position: Precipitation is the value 1 << 0, and so on.
  const Precipitation: nat := 0
  const AirTemperature: nat := 1
  const ExtremeTemperature: nat := 2
  const ExtremeWind: nat := 3
  const Solar: nat := 4
  const Wind: nat := 5
  const MorePrecipitation: nat := 6
  const MorePhenomena: nat := 7
  const SoilTemperature: nat := 8
  const WaterEquivalent: nat := 9
  const WeatherPhenomena: nat := 10
  const CloudType: nat := 11
  const Cloudiness: nat := 12
  const DewPoint: nat := 13
  const Moisture: nat := 14
  const Pressure: nat := 15
  const Sun: nat := 16
  const Visibility: nat := 17
  const WindSynopsis: nat := 18
  const ClimateIndices: nat := 19
  const StationObservations: nat := 20
  const StandardFormat: nat := 21
  const WindTest: nat := 22
  const Soil: nat := 23
  const MoreWeatherPhenomena: nat := 24

  /** The name of each flag, in flag order (the cases of String and of the Parse switch). */
  const Names: Table := [
    "precipitation", "air_temperature", "extreme_temperature", "extreme_wind", "solar", "wind",
    "more_precip", "more_phenomena", "soil_temperature", "water_equiv", "weather_phenomena",
    "cloud_type", "cloudiness", "dew_point", "moisture", "pressure", "sun", "visibility",
    "wind_synop", "climate_indices", "kl", "standard_format", "wind_test", "soil",
    "more_weather_phenomena"]

  /** The 25 names are pairwise distinct, non-empty and free of commas. */
  lemma NamesWellFormed()
    ensures |Names| == 25 && Distinct(Names) && Plain(Names)
  {
    NamesPlain();
    NamesDistinct();
  }

  lemma NamesPlain()
    ensures Plain(Names)
  {
    NamesPlainFrom(0, 9);
    NamesPlainFrom(9, 17);
    NamesPlainFrom(17, 25);
  }

  lemma NamesPlainFrom(lo: nat, hi: nat)
    requires lo <= hi <= 25 && hi - lo <= 9
    ensures forall i :: lo <= i < hi ==> Names[i] != "" && ',' !in Names[i]
  {
  }

  lemma NamesDistinct()
    ensures Distinct(Names)
  {
    forall i | 0 <= i < 25
      ensures Names[i] !in Names[i + 1..]
    {
      if i == 0 {
        NameNotRepeated0();
      } else if i == 1 {
        NameNotRepeated1();
      } else if i == 2 {
        NameNotRepeated2();
      } else if i == 3 {
        NameNotRepeated3();
      } else if i == 4 {
        NameNotRepeated4();
      } else if i == 5 {
        NameNotRepeated5();
      } else if i == 6 {
        NameNotRepeated6();
      } else if i == 7 {
        NameNotRepeated7();
      } else if i == 8 {
        NameNotRepeated8();
      } else if i == 9 {
        NameNotRepeated9();
      } else if i == 10 {
        NameNotRepeated10();
      } else if i == 11 {
        NameNotRepeated11();
      } else if i == 12 {
        NameNotRepeated12();
      } else if i == 13 {
        NameNotRepeated13();
      } else if i == 14 {
        NameNotRepeated14();
      } else if i == 15 {
        NameNotRepeated15();
      } else if i == 16 {
        NameNotRepeated16();
      } else if i == 17 {
        NameNotRepeated17();
      } else if i == 18 {
        NameNotRepeated18();
      } else if i == 19 {
        NameNotRepeated19();
      } else if i == 20 {
        NameNotRepeated20();
      } else if i == 21 {
        NameNotRepeated21();
      } else if i == 22 {
        NameNotRepeated22();
      } else if i == 23 {
        NameNotRepeated23();
      } else if i == 24 {
        NameNotRepeated24();
      }
    }
    DistinctByRows(Names);
  }

  // Each name differs from every later one. One lemma per index keeps each
  // proof to the comparison of one literal name with the literals after it;
  // a single lemma over all indices makes the solver compare every pair of
  // the 25 names at once.
  lemma NameNotRepeated0()
    ensures Names[0] !in Names[1..]
  {
  }

  lemma NameNotRepeated1()
    ensures Names[1] !in Names[2..]
  {
  }

  lemma NameNotRepeated2()
    ensures Names[2] !in Names[3..]
  {
  }

  lemma NameNotRepeated3()
    ensures Names[3] !in Names[4..]
  {
  }

  lemma NameNotRepeated4()
    ensures Names[4] !in Names[5..]
  {
  }

  lemma NameNotRepeated5()
    ensures Names[5] !in Names[6..]
  {
  }

  lemma NameNotRepeated6()
    ensures Names[6] !in Names[7..]
  {
  }

  lemma NameNotRepeated7()
    ensures Names[7] !in Names[8..]
  {
  }

  lemma NameNotRepeated8()
    ensures Names[8] !in Names[9..]
  {
  }

  lemma NameNotRepeated9()
    ensures Names[9] !in Names[10..]
  {
  }

  lemma NameNotRepeated10()
    ensures Names[10] !in Names[11..]
  {
  }

  lemma NameNotRepeated11()
    ensures Names[11] !in Names[12..]
  {
  }

  lemma NameNotRepeated12()
    ensures Names[12] !in Names[13..]
  {
  }

  lemma NameNotRepeated13()
    ensures Names[13] !in Names[14..]
  {
  }

  lemma NameNotRepeated14()
    ensures Names[14] !in Names[15..]
  {
  }

  lemma NameNotRepeated15()
    ensures Names[15] !in Names[16..]
  {
  }

  lemma NameNotRepeated16()
    ensures Names[16] !in Names[17..]
  {
  }

  lemma NameNotRepeated17()
    ensures Names[17] !in Names[18..]
  {
  }

  lemma NameNotRepeated18()
    ensures Names[18] !in Names[19..]
  {
  }

  lemma NameNotRepeated19()
    ensures Names[19] !in Names[20..]
  {
  }

  lemma NameNotRepeated20()
    ensures Names[20] !in Names[21..]
  {
  }

  lemma NameNotRepeated21()
    ensures Names[21] !in Names[22..]
  {
  }

  lemma NameNotRepeated22()
    ensures Names[22] !in Names[23..]
  {
  }

  lemma NameNotRepeated23()
    ensures Names[23] !in Names[24..]
  {
  }

  lemma NameNotRepeated24()
    ensures Names[24] !in Names[25..]
  {
  }

  /**
   * String: the switch tries the flags in declaration order and returns the
   * name of the first one set, so only the lowest set flag is named.
   */
  function String(dt: DataType): (name: string)
    ensures (forall j :: j in dt ==> j >= 25) <==> name == ""
    ensures name != "" ==>
      exists j :: 0 <= j < 25 && j in dt && Names[j] == name && (forall k :: 0 <= k < j ==> k !in dt)
  {
    NamesWellFormed();
    Lowest(Names, dt, 0)
  }

  /** What ParseStringWithSeperator stores for the given parts. */
  function Parsed(parts: seq<string>): DataType
  {
    PartsValue(Names, parts)
  }

  /** A variable of type DataType: the receiver of the Parse methods. */
  class DataTypeVar {
    var value: DataType

    constructor (v: DataType)
      ensures value == v
    {
      value := v;
    }

    /** ParseString: ParseStringWithSeperator with ",". */
    method ParseString(s: string)
      modifies this
      ensures value == Parsed(Split(s, ","))
    {
      ParseStringWithSeperator(s, ",");
    }

    /** ParseStringWithSeperator: the old value is overwritten with the parsed flags. */
    method ParseStringWithSeperator(s: string, sep: string)
      modifies this
      ensures value == Parsed(Split(s, sep))
    {
      value := ParseParts(Names, Split(s, sep));
    }
  }

  // ---------------------------------------------------------------- lemmas

  /** ParseString(String(f)) == f for each of the 25 single flags. */
  lemma StringRoundTrip(i: nat)
    requires i < 25
    ensures String({i}) == Names[i]
    ensures Parsed(Split(String({i}), ",")) == {i}
  {
    NamesWellFormed();
    LowestOfOne(Names, i, 0);
    ParseOneLabel(Names, i);
  }

  /**
   * A parse stores exactly the flags whose name occurs among the parts:
   * unknown parts are ignored, and order and repeats do not matter.
   */
  lemma ParsedFlags(parts: seq<string>)
    ensures Parsed(parts) == set j | 0 <= j < 25 && Names[j] in parts
  {
    NamesWellFormed();
    PartsValueRecognised(Names, parts);
  }
}
