// types.Resolution (types/data-resolution.go): the set of time resolutions
// a station offers, as a uint16 bitmask with one bit per resolution, its
// comma-separated text form, and the Parse variants that read it back.
module Resolutions {
  import opened Common
  import opened BitFlags

  /** A uint16 bitmask, as the set of its bit positions. */
  type Resolution = Flags

  // The flags, by bit position: OneMinute is the value 1 << 0, and so on.

  const OneMinute: nat := 0
  const FiveMinutes: nat := 1
  const TenMinutes: nat := 2
  const Hourly: nat := 3
  const SubDaily: nat := 4
  const Daily: nat := 5
  const Monthly: nat := 6
  const Annually: nat := 7
  const MultiAnnually: nat := 8

  /** The label of each flag, in flag order (the strings of String and of the Parse switches). */
  const Labels: Table := ["1_minute", "5_minutes", "10_minutes", "hourly", "subdaily", "daily", "monthly",
                          "annual", "multi_annual"]

  /** The error json.Unmarshal reports for a source that is not what the target expects. */
  const JsonError := "json: cannot unmarshal"

  lemma LabelsWellFormed()
    ensures |Labels| == 9 && Distinct(Labels) && Plain(Labels)
  {
  }

  /** The text String returns: the labels of the set flags in flag order, joined by commas. */
  function Listing(r: Resolution): string
  {
    Join(SetLabels(Labels, r, 0), ",")
  }

  /** String: append each set flag's label and a comma, then trim the commas at both ends. */
  method String(r: Resolution) returns (s: string)
    ensures s == Listing(r)
  {
    var result := "";
    if OneMinute in r {
      result := result + Labels[0] + ",";
    }
    assert result == Listed(Labels, r, 1);
    if FiveMinutes in r {
      result := result + Labels[1] + ",";
    }
    assert result == Listed(Labels, r, 2);
    if TenMinutes in r {
      result := result + Labels[2] + ",";
    }
    assert result == Listed(Labels, r, 3);
    if Hourly in r {
      result := result + Labels[3] + ",";
    }
    assert result == Listed(Labels, r, 4);
    if SubDaily in r {
      result := result + Labels[4] + ",";
    }
    assert result == Listed(Labels, r, 5);
    if Daily in r {
      result := result + Labels[5] + ",";
    }
    assert result == Listed(Labels, r, 6);
    if Monthly in r {
      result := result + Labels[6] + ",";
    }
    assert result == Listed(Labels, r, 7);
    if Annually in r {
      result := result + Labels[7] + ",";
    }
    assert result == Listed(Labels, r, 8);
    if MultiAnnually in r {
      result := result + Labels[8] + ",";
    }
    assert result == Listed(Labels, r, 9);
    LabelsWellFormed();
    ListedTrimmed(Labels, r);
    return TrimChar(result, ',');
  }

  /** What every Parse variant stores for the given parts. */
  function Parsed(parts: seq<string>): Resolution
  {
    PartsValue(Labels, parts)
  }

  /** The values stored under key in a url.Values; a missing key gives a nil slice. */
  function QueryValues(q: map<string, seq<string>>, key: string): seq<string>
  {
    if key in q then q[key] else []
  }

  /** A variable of type Resolution: the receiver of the Parse methods. */
  class ResolutionVar {
    var value: Resolution

    constructor (v: Resolution)
      ensures value == v
    {
      value := v;
    }

    /** ParseString: the parts between commas; the old value is overwritten. */
    method ParseString(s: string)
      modifies this
      ensures value == Parsed(Split(s, ","))
    {
      value := ParseParts(Labels, Split(s, ","));
    }

    /** ParseStringWithSeparator */
    method ParseStringWithSeparator(s: string, sep: string)
      modifies this
      ensures value == Parsed(Split(s, sep))
    {
      value := ParseParts(Labels, Split(s, sep));
    }

    /** ParseUrlValues: the list of values under key. */
    method ParseUrlValues(q: map<string, seq<string>>, key: string)
      modifies this
      ensures value == Parsed(QueryValues(q, key))
    {
      value := ParseParts(Labels, QueryValues(q, key));
    }

    /**
     * UnmarshalJSON: the source decodes to a list of strings (None when it
     * does not) and ParseString runs on each element in turn, every call
     * overwriting the last, so only the final element counts; an empty list
     * (or JSON null) leaves the receiver as it was.
     */
    method UnmarshalJSON(decoded: Option<seq<string>>) returns (status: Status)
      modifies this
      ensures decoded.None? ==> status == Err(JsonError) && value == old(value)
      ensures decoded.Some? ==> status == Ok
      ensures decoded.Some? && decoded.value == [] ==> value == old(value)
      ensures decoded.Some? && decoded.value != [] ==>
        value == Parsed(Split(decoded.value[|decoded.value| - 1], ","))
    {
      if decoded.None? {
        return Err(JsonError);
      }
      var elements := decoded.value;
      for k := 0 to |elements|
        invariant k == 0 ==> value == old(value)
        invariant k > 0 ==> value == Parsed(Split(elements[k - 1], ","))
      {
        ParseString(elements[k]);
      }
      return Ok;
    }
  }

  // ---------------------------------------------------------------- lemmas

  /** String(0) is "", and more generally String is "" exactly when no defined flag is set. */
  lemma ListingEmpty(r: Resolution)
    ensures Listing(r) == "" <==> forall j :: j in r ==> j >= 9
  {
    LabelsWellFormed();
    JoinedLabelsEmpty(Labels, r);
  }

  /** ParseString(String(r)) == r for every r that uses only the nine defined flags. */
  lemma StringRoundTrip(r: Resolution)
    requires forall j :: j in r ==> j < 9
    ensures Parsed(Split(Listing(r), ",")) == r
  {
    LabelsWellFormed();
    ParseListing(Labels, r);
  }

  /**
   * A parse stores exactly the flags whose label occurs among the parts:
   * unknown parts are ignored, and order and repeats do not matter.
   */
  lemma ParsedFlags(parts: seq<string>)
    ensures Parsed(parts) == set j | 0 <= j < 9 && Labels[j] in parts
  {
    LabelsWellFormed();
    PartsValueRecognised(Labels, parts);
  }
}
