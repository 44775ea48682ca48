// AvailableClimateObservationProducts (internal/dwd/v2/product-mapping.go):
// the climate-observation products the open-data server offers at each
// granularity. Station discovery, discovery of all stations and the
// time-series route consult it before they fetch anything.
module ProductMapping {
  import opened Granularities
  import opened Products

  /** The map literal, one entry per granularity in the order written. */
  const AvailableClimateObservationProducts: map<Granularity, seq<Product>> := map[
    EveryMinute := [Precipitation],
    Every5Mins := [Precipitation],
    Every10Mins := [AirTemperature, ExtremeTemperature, ExtremeWind, Precipitation, SolarRadiation, WindSpeeds],
    Hourly := [AirTemperature, CloudType, Cloudiness, DewPoint, ExtremeWind, Moisture, Precipitation,
               Pressure, SoilTemperature, SolarRadiation, Sun, Visibility, WeatherPhenomena,
               WindSpeeds, WindSynopsis],
    SubDaily := [AirTemperature, Cloudiness, ExtremeWind, Moisture, Pressure, Soil, Visibility, WindSpeeds],
    Daily := [MorePrecipitation, MoreWeatherPhenomena, SoilTemperature, SolarRadiation, WaterEquivalent,
              WeatherPhenomena],
    Monthly := [ClimateIndices, MorePrecipitation, WeatherPhenomena],
    Annual := [ClimateIndices, MorePrecipitation, WeatherPhenomena]
  ]

  /** The products listed for g; indexing a Go map at a missing key gives a nil slice. */
  function Offered(g: Granularity): (ps: seq<Product>)
    ensures g !in AvailableClimateObservationProducts ==> ps == []
    ensures g in AvailableClimateObservationProducts ==> ps == AvailableClimateObservationProducts[g]
  {
    if g in AvailableClimateObservationProducts then AvailableClimateObservationProducts[g] else []
  }

  /** slices.Contains(AvailableClimateObservationProducts[g], p): the pre-check of the callers. */
  predicate Supports(g: Granularity, p: Product)
  {
    p in Offered(g)
  }

  /** No product appears twice in a list. */
  predicate NoDuplicates(ps: seq<Product>)
  {
    forall i, j :: 0 <= i < j < |ps| ==> ps[i] != ps[j]
  }

  /** The table has an entry for exactly the eight granularities and lists only real products. */
  lemma TableDomain(g: Granularity)
    ensures g in AvailableClimateObservationProducts <==> IsGranularity(g)
    ensures forall p :: p in Offered(g) ==> IsProduct(p)
  {
  }

  /** The two finest granularities offer nothing but precipitation. */
  lemma {:induction false} FinestOnlyPrecipitation(p: Product)
    ensures Supports(EveryMinute, p) <==> p == Precipitation
    ensures Supports(Every5Mins, p) <==> p == Precipitation
  {
    assert Offered(EveryMinute) == [Precipitation];
    assert Offered(Every5Mins) == [Precipitation];
  }

  /** Monthly and annual data come with the same three products. */
  lemma MonthlyIsAnnual()
    ensures Offered(Monthly) == Offered(Annual)
    ensures |Offered(Annual)| == 3
  {
  }

  /** Granularity None has no entry, so no product is supported at it. */
  lemma NothingAtNone(p: Product)
    ensures Offered(None_) == []
    ensures !Supports(None_, p)
  {
  }

  /** No granularity lists a product twice. */
  lemma {:induction false} TableHasNoDuplicates(g: Granularity)
    ensures NoDuplicates(Offered(g))
  {
    if g in AvailableClimateObservationProducts {
      var ps := Offered(g);
      if g == Hourly {
        // CloudType is listed before Cloudiness; the rest ascends.
        assert ps == [AirTemperature, CloudType] + ps[2..];
        Ascending(ps[2..]);
        assert forall k :: 2 <= k < |ps| ==> ps[k] == ps[2..][k - 2];
      } else {
        Ascending(ps);
      }
    }
  }

  /** A list in strictly ascending order at each step has no duplicates. */
  lemma Ascending(ps: seq<Product>)
    requires forall k :: 1 <= k < |ps| ==> ps[k - 1] < ps[k]
    ensures NoDuplicates(ps)
    ensures forall k :: 0 <= k < |ps| ==> ps[0] <= ps[k]
  {
    forall i, j | 0 <= i < j < |ps|
      ensures ps[i] < ps[j]
    {
      AscendingFrom(ps, i, j);
    }
  }

  lemma {:induction false} AscendingFrom(ps: seq<Product>, i: nat, j: nat)
    requires i < j < |ps|
    requires forall k :: 1 <= k < |ps| ==> ps[k - 1] < ps[k]
    ensures ps[i] < ps[j]
    decreases j - i
  {
    if j > i + 1 {
      AscendingFrom(ps, i, j - 1);
    }
  }

  /** MorePhenomena is listed at no granularity, so every support check rejects it. */
  lemma {:induction false} MorePhenomenaNeverOffered(g: Granularity)
    ensures !Supports(g, MorePhenomena)
  {
    if g in AvailableClimateObservationProducts {
      assert MorePhenomena !in AvailableClimateObservationProducts[g];
    }
  }

  /** Precipitation is offered only at the minute granularities and hourly. */
  lemma {:induction false} PrecipitationGranularities(g: Granularity)
    ensures Supports(g, Precipitation) <==> g in {EveryMinute, Every5Mins, Every10Mins, Hourly}
  {
    if g in AvailableClimateObservationProducts {
      assert Offered(g) == AvailableClimateObservationProducts[g];
    }
  }
}
