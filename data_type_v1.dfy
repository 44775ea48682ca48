// v1.DataType (types/v1/datapoint.go): the v1 copy of types.DataType. Its
// flags, names, String and Parse variants are those of DataTypes; the copy
// adds UnmarshalJSON, which parses one decoded string.
module DataTypesV1 {
  import opened Common
  import opened BitFlags
  import opened DataTypes

  /** The error json.Unmarshal reports for a source that is not a JSON string. */
  const JsonError := "json: cannot unmarshal"

  /** A variable of type v1.DataType. */
  class DataTypeVar {
    var value: DataType

    constructor (v: DataType)
      ensures value == v
    {
      value := v;
    }

    /** ParseString: ParseStringWithSeperator with ",". */
    method ParseString(s: string)
      modifies this
      ensures value == Parsed(Split(s, ","))
    {
      ParseStringWithSeperator(s, ",");
    }

    /** ParseStringWithSeperator */
    method ParseStringWithSeperator(s: string, sep: string)
      modifies this
      ensures value == Parsed(Split(s, sep))
    {
      value := ParseParts(Names, Split(s, sep));
    }

    /** UnmarshalJSON: a source that decodes to one string (None when it does not) is parsed by ParseString. */
    method UnmarshalJSON(decoded: Option<string>) returns (status: Status)
      modifies this
      ensures decoded.None? ==> status == Err(JsonError) && value == old(value)
      ensures decoded.Some? ==> status == Ok && value == Parsed(Split(decoded.value, ","))
    {
      if decoded.None? {
        return Err(JsonError);
      }
      ParseString(decoded.value);
      return Ok;
    }
  }
}
