// dwdTypes.Product (internal/dwd/v2/dwdTypes/product.go): the data
// products of the climate observations, their display names, the folder
// names on the open-data server, and Parse, which accepts either spelling
// or a raw unsigned value.
module Products {
  import opened Common

  type Product = Uint64

  const AirTemperature: Product := 0
  const ClimateIndices: Product := 1
  const Cloudiness: Product := 2
  const CloudType: Product := 3
  const DewPoint: Product := 4
  const ExtremeTemperature: Product := 5
  const ExtremeWind: Product := 6
  const Moisture: Product := 7
  const MorePhenomena: Product := 8
  const MorePrecipitation: Product := 9
  const MoreWeatherPhenomena: Product := 10
  const Precipitation: Product := 11
  const Pressure: Product := 12
  const Soil: Product := 13
  const SoilTemperature: Product := 14
  const SolarRadiation: Product := 15
  const Sun: Product := 16
  const Visibility: Product := 17
  const WaterEquivalent: Product := 18
  const WeatherPhenomena: Product := 19
  const WindSpeeds: Product := 20
  const WindSynopsis: Product := 21

  /** The number of declared products; they are 0 up to Count - 1. */
  const Count: nat := 22

  predicate IsProduct(p: Product) { p < Count }

  /** String() */
  function Name(p: Product): string
  {
    if p == AirTemperature then "airTemperature"
    else if p == ClimateIndices then "climateIndices"
    else if p == Cloudiness then "cloudiness"
    else if p == CloudType then "cloudType"
    else if p == DewPoint then "dewPoint"
    else if p == ExtremeTemperature then "extremeTemperatures"
    else if p == ExtremeWind then "extremeWinds"
    else if p == Moisture then "moisture"
    else if p == MorePhenomena then "morePhenomena"
    else if p == MorePrecipitation then "morePrecipitation"
    else if p == MoreWeatherPhenomena then "moreWeatherPhenomena"
    else if p == Precipitation then "precipitation"
    else if p == Pressure then "pressure"
    else if p == Soil then "soil"
    else if p == SoilTemperature then "soilTemperature"
    else if p == SolarRadiation then "solarRadiation"
    else if p == Sun then "sun"
    else if p == Visibility then "visibility"
    else if p == WaterEquivalent then "waterEquivalent"
    else if p == WeatherPhenomena then "weatherPhenomena"
    else if p == WindSpeeds then "windSpeeds"
    else if p == WindSynopsis then "windSynopsis"
    else ""
  }

  /** UrlPart(): the folder name; products without their own spelling use String(). */
  function UrlPart(p: Product): string
  {
    if p == AirTemperature then "air_temperature"
    else if p == ClimateIndices then "climate_indices"
    else if p == CloudType then "cloud_type"
    else if p == DewPoint then "dew_point"
    else if p == ExtremeTemperature then "extreme_temperature"
    else if p == ExtremeWind then "extreme_wind"
    else if p == MorePhenomena then "more_phenomena"
    else if p == MorePrecipitation then "more_precip"
    else if p == MoreWeatherPhenomena then "more_weather_phenomena"
    else if p == SoilTemperature then "soil_temperature"
    else if p == SolarRadiation then "solar"
    else if p == WaterEquivalent then "water_equiv"
    else if p == WeatherPhenomena then "weather_phenomena"
    else if p == WindSpeeds then "wind"
    else if p == WindSynopsis then "wind_synop"
    else Name(p)
  }

  /** One case of the switch in Parse: either spelling of p. */
  predicate Spells(p: Product, t: string) { t == Name(p) || t == UrlPart(p) }

  /**
   * The switch of Parse from the case of product k on: the cases are tried
   * in declaration order and the first one whose spellings contain t wins.
   */
  function FirstSpelled(t: string, k: nat): (r: Option<Product>)
    ensures r.Some? ==> k <= r.value < Count && Spells(r.value, t)
    ensures r.Some? ==> forall j: Product :: k <= j < r.value ==> !Spells(j, t)
    ensures r.None? ==> forall j: Product :: k <= j < Count ==> !Spells(j, t)
    decreases Count - k
  {
    if k >= Count then None
    else if Spells(k, t) then Some(k)
    else FirstSpelled(t, k + 1)
  }

  /** The whole switch. */
  function Spelled(t: string): Option<Product>
  {
    FirstSpelled(t, 0)
  }

  /** Parse's switch applied to a receiver holding prior. */
  function ParseName(prior: Product, s: string): Effect<Product>
  {
    match Spelled(s)
    case Some(p) => Effect(p, Ok)
    case None => Effect(prior, Err("unsupported product"))
  }

  /** The effect of Parse(src) on a receiver holding prior. */
  function ParseEffect(prior: Product, src: Any): Effect<Product>
  {
    match src
    case Bytes(b) => ParseName(prior, b)
    case NilBytes => ParseName(prior, "")
    case Str(s) => ParseName(prior, s)
    case Uint(u) => Effect(u, Ok)
    case _ => Effect(prior, Err("unsupported input type"))
  }

  /** MarshalJSON: the JSON string of the name. */
  function MarshalJSON(p: Product): (json: string)
    ensures json == JsonString(Name(p))
  {
    JsonString(Name(p))
  }

  /** A variable of type Product. */
  class ProductVar {
    var value: Product

    constructor (v: Product)
      ensures value == v
    {
      value := v;
    }

    /** Parse */
    method Parse(src: Any) returns (status: Status)
      modifies this
      ensures Effect(value, status) == ParseEffect(old(value), src)
    {
      var productString: string;
      match src {
        case Bytes(b) => productString := b;
        case NilBytes => productString := "";
        case Str(s) => productString := s;
        case Uint(u) =>
          value := u;
          return Ok;
        case _ => return Err("unsupported input type");
      }
      var p := Spelled(productString);
      if p.None? {
        return Err("unsupported product");
      }
      value := p.value;
      return Ok;
    }

    /** UnmarshalJSON: Parse of the raw JSON bytes. */
    method UnmarshalJSON(src: string) returns (status: Status)
      modifies this
      ensures Effect(value, status) == ParseEffect(old(value), Bytes(src))
    {
      status := Parse(Bytes(src));
    }
  }

  /** The search reaches the case of p when no earlier case has t. */
  lemma {:induction false} FirstSpelledReaches(t: string, k: nat, p: Product)
    requires k <= p < Count && Spells(p, t)
    requires forall j: Product :: k <= j < p ==> !Spells(j, t)
    ensures FirstSpelled(t, k) == Some(p)
    decreases p - k
  {
    if k < p {
      FirstSpelledReaches(t, k + 1, p);
    }
  }

  /**
   * Tells the spellings of the declared products apart by their length and
   * their first and last characters; -1 for any other string of that shape.
   */
  function Classify(s: string): int
  {
    if s == [] then -1
    else if |s| == 14 && s[0] == 'a' && s[|s| - 1] == 'e' then 0
    else if |s| == 15 && s[0] == 'a' && s[|s| - 1] == 'e' then 0
    else if |s| == 14 && s[0] == 'c' && s[|s| - 1] == 's' then 1
    else if |s| == 15 && s[0] == 'c' && s[|s| - 1] == 's' then 1
    else if |s| == 10 && s[0] == 'c' && s[|s| - 1] == 's' then 2
    else if |s| == 9 && s[0] == 'c' && s[|s| - 1] == 'e' then 3
    else if |s| == 10 && s[0] == 'c' && s[|s| - 1] == 'e' then 3
    else if |s| == 8 && s[0] == 'd' && s[|s| - 1] == 't' then 4
    else if |s| == 9 && s[0] == 'd' && s[|s| - 1] == 't' then 4
    else if |s| == 19 && s[0] == 'e' && s[|s| - 1] == 's' then 5
    else if |s| == 19 && s[0] == 'e' && s[|s| - 1] == 'e' then 5
    else if |s| == 12 && s[0] == 'e' && s[|s| - 1] == 's' then 6
    else if |s| == 12 && s[0] == 'e' && s[|s| - 1] == 'd' then 6
    else if |s| == 8 && s[0] == 'm' && s[|s| - 1] == 'e' then 7
    else if |s| == 13 && s[0] == 'm' && s[|s| - 1] == 'a' then 8
    else if |s| == 14 && s[0] == 'm' && s[|s| - 1] == 'a' then 8
    else if |s| == 17 && s[0] == 'm' && s[|s| - 1] == 'n' then 9
    else if |s| == 11 && s[0] == 'm' && s[|s| - 1] == 'p' then 9
    else if |s| == 20 && s[0] == 'm' && s[|s| - 1] == 'a' then 10
    else if |s| == 22 && s[0] == 'm' && s[|s| - 1] == 'a' then 10
    else if |s| == 13 && s[0] == 'p' && s[|s| - 1] == 'n' then 11
    else if |s| == 8 && s[0] == 'p' && s[|s| - 1] == 'e' then 12
    else if |s| == 4 && s[0] == 's' && s[|s| - 1] == 'l' then 13
    else if |s| == 15 && s[0] == 's' && s[|s| - 1] == 'e' then 14
    else if |s| == 16 && s[0] == 's' && s[|s| - 1] == 'e' then 14
    else if |s| == 14 && s[0] == 's' && s[|s| - 1] == 'n' then 15
    else if |s| == 5 && s[0] == 's' && s[|s| - 1] == 'r' then 15
    else if |s| == 3 && s[0] == 's' && s[|s| - 1] == 'n' then 16
    else if |s| == 10 && s[0] == 'v' && s[|s| - 1] == 'y' then 17
    else if |s| == 15 && s[0] == 'w' && s[|s| - 1] == 't' then 18
    else if |s| == 11 && s[0] == 'w' && s[|s| - 1] == 'v' then 18
    else if |s| == 16 && s[0] == 'w' && s[|s| - 1] == 'a' then 19
    else if |s| == 17 && s[0] == 'w' && s[|s| - 1] == 'a' then 19
    else if |s| == 10 && s[0] == 'w' && s[|s| - 1] == 's' then 20
    else if |s| == 4 && s[0] == 'w' && s[|s| - 1] == 'd' then 20
    else if |s| == 12 && s[0] == 'w' && s[|s| - 1] == 's' then 21
    else if |s| == 10 && s[0] == 'w' && s[|s| - 1] == 'p' then 21
    else -1
  }
  lemma ClassifyName(p: Product)
    requires IsProduct(p)
    ensures Classify(Name(p)) == p
  {
  }

  lemma ClassifyUrlPart(p: Product)
    requires IsProduct(p)
    ensures Classify(UrlPart(p)) == p
  {
  }

  lemma ClassifySpelling(p: Product, t: string)
    requires IsProduct(p) && Spells(p, t)
    ensures Classify(t) == p
  {
    ClassifyName(p);
    ClassifyUrlPart(p);
  }

  /** A quoted text is not the spelling of any product. */
  lemma ClassifyQuoted(s: string)
    requires |s| > 0 && s[0] == '"'
    ensures Classify(s) == -1
  {
  }

  /** No text spells two different declared products. */
  lemma SpellingsDistinct(j: Product, p: Product, t: string)
    requires IsProduct(j) && IsProduct(p)
    requires Spells(j, t) && Spells(p, t)
    ensures j == p
  {
    ClassifySpelling(j, t);
    ClassifySpelling(p, t);
  }

  /** Parse accepts both spellings of every product and yields that product. */
  lemma {:induction false} SpelledSpelling(p: Product)
    requires IsProduct(p)
    ensures Spelled(Name(p)) == Some(p) && Spelled(UrlPart(p)) == Some(p)
  {
    forall j: Product | 0 <= j < p
      ensures !Spells(j, Name(p)) && !Spells(j, UrlPart(p))
    {
      if Spells(j, Name(p)) { SpellingsDistinct(j, p, Name(p)); }
      if Spells(j, UrlPart(p)) { SpellingsDistinct(j, p, UrlPart(p)); }
    }
    FirstSpelledReaches(Name(p), 0, p);
    FirstSpelledReaches(UrlPart(p), 0, p);
  }

  /** Parse of text yields p exactly when the text is one of p's spellings. */
  lemma {:induction false} ParseNameExact(prior: Product, s: string, p: Product)
    requires IsProduct(p)
    ensures ParseName(prior, s) == Effect(p, Ok) <==> Spells(p, s)
    ensures ParseName(prior, s).status.Err? <==> forall q: Product :: IsProduct(q) ==> !Spells(q, s)
    ensures ParseName(prior, s).status.Err? ==> ParseName(prior, s).receiver == prior
  {
    SpelledSpelling(p);
  }

  /** A raw uint is stored as it is, declared product or not. */
  lemma UintStoredUnchecked(prior: Product, u: Uint64)
    ensures ParseEffect(prior, Uint(u)) == Effect(u, Ok)
    ensures u >= Count ==> Name(ParseEffect(prior, Uint(u)).receiver) == ""
  {
  }

  /**
   * UnmarshalJSON hands the quoted JSON text to the switch, so decoding
   * what MarshalJSON produced fails and keeps the receiver.
   */
  lemma {:induction false} UnmarshalAfterMarshal(prior: Product, p: Product)
    ensures ParseEffect(prior, Bytes(MarshalJSON(p))) == Effect(prior, Err("unsupported product"))
  {
    var json := MarshalJSON(p);
    forall j: Product | j < Count
      ensures !Spells(j, json)
    {
      if Spells(j, json) {
        ClassifySpelling(j, json);
        ClassifyQuoted(json);
      }
    }
  }

  /** UrlPart falls back to String for exactly the seven products without a folder spelling of their own. */
  lemma UrlPartFallback(p: Product)
    requires IsProduct(p)
    ensures UrlPart(p) == Name(p) <==>
      p in {Cloudiness, Moisture, Precipitation, Pressure, Soil, Sun, Visibility}
  {
    ClassifyName(p);
    ClassifyUrlPart(p);
  }

  /** String and UrlPart are "" outside the enum. */
  lemma SpellingsOutside(p: Product)
    requires !IsProduct(p)
    ensures Name(p) == "" && UrlPart(p) == ""
  {
  }

  /** Any input other than a string, []byte or uint is refused, nil included, keeping the receiver. */
  lemma ParseRefused(prior: Product, n: Int64)
    ensures ParseEffect(prior, NilInterface) == Effect(prior, Err("unsupported input type"))
    ensures ParseEffect(prior, Int(n)) == Effect(prior, Err("unsupported input type"))
  {
  }
}
