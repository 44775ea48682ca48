// dwdTypes.Granularity (internal/dwd/v2/dwdTypes/granularity.go): the time
// resolution of a DWD product, its display name, the spelling used in the
// open-data folder paths, and Parse, which accepts either spelling.
module Granularities {
  import opened Common

  type Granularity = x: int | 0 <= x < 256

  const None_: Granularity := 0
  const Annual: Granularity := 1
  const Monthly: Granularity := 2
  const Daily: Granularity := 3
  const SubDaily: Granularity := 4
  const Hourly: Granularity := 5
  const Every10Mins: Granularity := 6
  const Every5Mins: Granularity := 7
  const EveryMinute: Granularity := 8

  /** The eight granularities a product can have (None excluded). */
  predicate IsGranularity(g: Granularity) { 1 <= g <= 8 }

  /** String() */
  function Name(g: Granularity): string
  {
    if g == Annual then "annual"
    else if g == Monthly then "monthly"
    else if g == Daily then "daily"
    else if g == SubDaily then "subDaily"
    else if g == Hourly then "hourly"
    else if g == Every10Mins then "every10Minutes"
    else if g == Every5Mins then "every5Minutes"
    else if g == EveryMinute then "everyMinute"
    else ""
  }

  /** UrlPart(): the folder name on the open-data server. */
  function UrlPart(g: Granularity): string
  {
    if g == Annual || g == Monthly || g == Daily || g == Hourly then Name(g)
    else if g == SubDaily then "subdaily"
    else if g == Every10Mins then "10_minutes"
    else if g == Every5Mins then "5_minutes"
    else if g == EveryMinute then "1_minute"
    else ""
  }

  /** One case of the switch in parseString: either spelling of g. */
  predicate Spells(g: Granularity, t: string) { t == Name(g) || t == UrlPart(g) }

  /** The switch of parseString on the trimmed text: the first case that matches. */
  function Spelled(t: string): Option<Granularity>
  {
    if Spells(Annual, t) then Some(Annual)
    else if Spells(Monthly, t) then Some(Monthly)
    else if Spells(Daily, t) then Some(Daily)
    else if Spells(SubDaily, t) then Some(SubDaily)
    else if Spells(Hourly, t) then Some(Hourly)
    else if Spells(Every10Mins, t) then Some(Every10Mins)
    else if Spells(Every5Mins, t) then Some(Every5Mins)
    else if Spells(EveryMinute, t) then Some(EveryMinute)
    else None
  }

  /** parseString: a miss resets the receiver to None and fails. */
  function ParseStringEffect(s: string): Effect<Granularity>
  {
    match Spelled(TrimSpace(s))
    case Some(g) => Effect(g, Ok)
    case None => Effect(None_, Err("unsupported granularity"))
  }

  /** The effect of Parse(src) on a receiver holding prior. */
  function ParseEffect(prior: Granularity, src: Any): Effect<Granularity>
  {
    match src
    case NilInterface => Effect(prior, Err("granularity may not be <nil>"))
    case Str(s) => ParseStringEffect(s)
    case Bytes(b) => ParseStringEffect(b)
    case NilBytes => ParseStringEffect("")
    case _ => Effect(prior, Err("unsupported input type"))
  }

  /** MarshalJSON: the JSON string of the name. */
  function MarshalJSON(g: Granularity): (json: string)
    ensures json == JsonString(Name(g))
  {
    JsonString(Name(g))
  }

  /** A variable of type Granularity. */
  class GranularityVar {
    var value: Granularity

    constructor (v: Granularity)
      ensures value == v
    {
      value := v;
    }

    /** Parse */
    method Parse(src: Any) returns (status: Status)
      modifies this
      ensures Effect(value, status) == ParseEffect(old(value), src)
    {
      if src.NilInterface? {
        return Err("granularity may not be <nil>");
      }
      ghost var prior := value;
      match src {
        case Str(s) =>
          assert ParseEffect(prior, src) == ParseStringEffect(s);
          status := ParseString(s);
        case Bytes(b) =>
          assert ParseEffect(prior, src) == ParseStringEffect(b);
          status := ParseString(b);
        case NilBytes =>
          assert ParseEffect(prior, src) == ParseStringEffect("");
          status := ParseString("");
        case _ => status := Err("unsupported input type");
      }
    }

    /** parseString */
    method ParseString(s: string) returns (status: Status)
      modifies this
      ensures Effect(value, status) == ParseStringEffect(s)
    {
      var g := Spelled(TrimSpace(s));
      if g.None? {
        value := None_;
        return Err("unsupported granularity");
      }
      value := g.value;
      return Ok;
    }
  }

  /** The two spellings of distinct granularities never coincide. */
  lemma SpellingsDistinct(g: Granularity, h: Granularity, t: string)
    requires IsGranularity(g) && IsGranularity(h)
    requires Spells(g, t) && Spells(h, t)
    ensures g == h
  {
  }

  /** Each granularity's spellings hit its own case of the switch. */
  lemma SpelledSpelling(g: Granularity)
    requires IsGranularity(g)
    ensures Spelled(Name(g)) == Some(g) && Spelled(UrlPart(g)) == Some(g)
  {
    NameSpelled(g);
    UrlPartSpelled(g);
  }

  lemma NameSpelled(g: Granularity)
    requires IsGranularity(g)
    ensures Spelled(Name(g)) == Some(g)
  {
    if g == Annual {
    } else if g == Monthly {
    } else if g == Daily {
    } else if g == SubDaily {
    } else if g == Hourly {
    } else if g == Every10Mins {
    } else if g == Every5Mins {
    } else {
      assert g == EveryMinute;
    }
  }

  lemma UrlPartSpelled(g: Granularity)
    requires IsGranularity(g)
    ensures Spelled(UrlPart(g)) == Some(g)
  {
    if g == Annual {
    } else if g == Monthly {
    } else if g == Daily {
    } else if g == SubDaily {
    } else if g == Hourly {
    } else if g == Every10Mins {
    } else if g == Every5Mins {
    } else {
      assert g == EveryMinute;
    }
  }

  /** The switch matches g exactly when t is one of g's spellings. */
  lemma SpelledExact(t: string, g: Granularity)
    requires IsGranularity(g)
    ensures Spelled(t) == Some(g) <==> Spells(g, t)
  {
    SpelledSpelling(g);
  }

  /** Parse accepts both the display name and the URL part of every granularity. */
  lemma ParseBothSpellings(g: Granularity)
    requires IsGranularity(g)
    ensures ParseStringEffect(Name(g)) == Effect(g, Ok)
    ensures ParseStringEffect(UrlPart(g)) == Effect(g, Ok)
  {
    TrimSpaceOfName(g);
    SpelledSpelling(g);
  }

  /** The spellings carry no surrounding white space. */
  lemma TrimSpaceOfName(g: Granularity)
    requires IsGranularity(g)
    ensures TrimSpace(Name(g)) == Name(g) && TrimSpace(UrlPart(g)) == UrlPart(g)
  {
    assert Trimmed(Name(g)) && Trimmed(UrlPart(g));
    TrimSpaceOfTrimmed(Name(g));
    TrimSpaceOfTrimmed(UrlPart(g));
  }

  /**
   * Parse yields g exactly when the trimmed text is one of g's spellings;
   * everything else fails and leaves None behind.
   */
  lemma ParseStringExact(s: string, g: Granularity)
    requires IsGranularity(g)
    ensures ParseStringEffect(s) == Effect(g, Ok) <==> Spells(g, TrimSpace(s))
    ensures ParseStringEffect(s).status.Err? ==> ParseStringEffect(s).receiver == None_ && !Spells(g, TrimSpace(s))
  {
    SpelledExact(TrimSpace(s), g);
  }

  /** None prints as the empty string, which Parse refuses. */
  lemma NoneDoesNotRoundTrip()
    ensures Name(None_) == "" && UrlPart(None_) == ""
    ensures ParseStringEffect(Name(None_)).status.Err?
  {
    assert TrimSpace("") == "";
  }

  /** UrlPart repeats String for the coarse granularities and has its own folder names for the others. */
  lemma UrlPartSpelling(g: Granularity)
    ensures g in {Annual, Monthly, Daily, Hourly} ==> UrlPart(g) == Name(g)
    ensures UrlPart(SubDaily) == "subdaily" && UrlPart(Every10Mins) == "10_minutes"
    ensures UrlPart(Every5Mins) == "5_minutes" && UrlPart(EveryMinute) == "1_minute"
    ensures !IsGranularity(g) ==> Name(g) == "" && UrlPart(g) == ""
  {
  }

  /** A nil input and any type other than string or []byte are refused, keeping the receiver. */
  lemma ParseRefused(prior: Granularity, n: Int64)
    ensures ParseEffect(prior, NilInterface) == Effect(prior, Err("granularity may not be <nil>"))
    ensures ParseEffect(prior, Int(n)) == Effect(prior, Err("unsupported input type"))
    ensures ParseEffect(prior, OtherValue) == Effect(prior, Err("unsupported input type"))
  {
  }
}
