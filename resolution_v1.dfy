// v1.Resolution (types/v1/resolution.go): the v1 copy of types.Resolution.
// Its flags, labels, String and Parse variants are those of Resolutions; it
// differs in UnmarshalJSON, which decodes a single string instead of a list.
module ResolutionsV1 {
  import opened Common
  import opened BitFlags
  import opened Resolutions

  /** A variable of type v1.Resolution. */
  class ResolutionVar {
    var value: Resolution

    constructor (v: Resolution)
      ensures value == v
    {
      value := v;
    }

    /** ParseString */
    method ParseString(s: string)
      modifies this
      ensures value == Parsed(Split(s, ","))
    {
      value := ParseParts(Labels, Split(s, ","));
    }

    /** ParseStringWithSeparator */
    method ParseStringWithSeparator(s: string, sep: string)
      modifies this
      ensures value == Parsed(Split(s, sep))
    {
      value := ParseParts(Labels, Split(s, sep));
    }

    /** ParseUrlValues */
    method ParseUrlValues(q: map<string, seq<string>>, key: string)
      modifies this
      ensures value == Parsed(QueryValues(q, key))
    {
      value := ParseParts(Labels, QueryValues(q, key));
    }

    /** UnmarshalJSON: a source that decodes to one string (None when it does not) is parsed by ParseString. */
    method UnmarshalJSON(decoded: Option<string>) returns (status: Status)
      modifies this
      ensures decoded.None? ==> status == Err(JsonError) && value == old(value)
      ensures decoded.Some? ==> status == Ok && value == Parsed(Split(decoded.value, ","))
    {
      if decoded.None? {
        return Err(JsonError);
      }
      ParseString(decoded.value);
      return Ok;
    }
  }
}
