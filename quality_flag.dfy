// dwdTypes.QualityFlag (internal/dwd/v2/dwdTypes/quality-flag.go): the
// quality level of a measurement, its names, and Parse, which writes the
// decoded flag through its pointer receiver.
module QualityFlags {
  import opened Common

  type QualityFlag = Int64

  const Unflagged: QualityFlag := 0
  const NoObjections: QualityFlag := 1
  const Corrected: QualityFlag := 2
  const ConfirmedWithRejectedObjection: QualityFlag := 3
  const AddedOrCalculated: QualityFlag := 4
  const Objected: QualityFlag := 5
  const OnlyFormalCheck: QualityFlag := 6
  const FormalObjection: QualityFlag := 7
  const NonExistent: QualityFlag := -999

  /** The nine declared flags. */
  predicate Declared(f: QualityFlag) { 0 <= f <= 7 || f == NonExistent }

  /** String() */
  function Name(f: QualityFlag): string
  {
    if f == Unflagged then "unflagged"
    else if f == NoObjections then "noObjections"
    else if f == Corrected then "corrected"
    else if f == ConfirmedWithRejectedObjection then "confirmedAfterObjection"
    else if f == AddedOrCalculated then "addedOrCalculated"
    else if f == Objected then "objected"
    else if f == OnlyFormalCheck then "onlyFormalCheck"
    else if f == FormalObjection then "formalObjection"
    else if f == NonExistent then "flagNonExistent"
    else ""
  }

  /** The string switch of Parse: the flag with that name, NonExistent for any other string. */
  function Named(s: string): QualityFlag
  {
    if s == Name(Unflagged) then Unflagged
    else if s == Name(NoObjections) then NoObjections
    else if s == Name(Corrected) then Corrected
    else if s == Name(ConfirmedWithRejectedObjection) then ConfirmedWithRejectedObjection
    else if s == Name(AddedOrCalculated) then AddedOrCalculated
    else if s == Name(Objected) then Objected
    else if s == Name(OnlyFormalCheck) then OnlyFormalCheck
    else if s == Name(FormalObjection) then FormalObjection
    else NonExistent
  }

  const IsNilPanic := "reflect: call of reflect.Value.IsNil on a value that cannot be nil"

  /**
   * The effect of Parse(src) on a receiver holding prior. The guard calls
   * reflect.Value.IsNil, which panics for every kind that has no nil
   * (strings and integers included), so only []byte and nillable values
   * reach the type switch.
   */
  function ParseEffect(prior: QualityFlag, src: Any): Effect<QualityFlag>
  {
    match src
    case NilInterface => Effect(NonExistent, Ok)
    case NilBytes => Effect(NonExistent, Ok)
    case OtherNillable(isNil) =>
      if isNil then Effect(NonExistent, Ok) else Effect(prior, Err("unsupported input type"))
    case Bytes(b) => Effect(Named(b), Ok)
    case _ => Effect(prior, Panic(IsNilPanic))
  }

  /** MarshalJSON: nothing for NonExistent, the JSON string of the name otherwise. */
  function MarshalJSON(f: QualityFlag): (json: Option<string>)
    ensures json.None? <==> f == NonExistent
    ensures json.Some? ==> json.value == JsonString(Name(f))
  {
    if f == NonExistent then None else Some(JsonString(Name(f)))
  }

  /** A variable of type QualityFlag, written through by its pointer methods. */
  class QualityFlagVar {
    var value: QualityFlag

    constructor (v: QualityFlag)
      ensures value == v
    {
      value := v;
    }

    /** Parse */
    method Parse(src: Any) returns (status: Status)
      modifies this
      ensures Effect(value, status) == ParseEffect(old(value), src)
    {
      if src.NilInterface? {
        value := NonExistent;
        return Ok;
      }
      if !(src.NilBytes? || src.Bytes? || src.OtherNillable?) {
        return Panic(IsNilPanic);
      }
      if src.NilBytes? || (src.OtherNillable? && src.isNil) {
        value := NonExistent;
        return Ok;
      }
      var flag: string;
      match src {
        case Bytes(b) => flag := b;
        case _ => return Err("unsupported input type");
      }
      value := Named(flag);
      return Ok;
    }

    /** UnmarshalJSON: Parse of the raw JSON bytes. */
    method UnmarshalJSON(src: string) returns (status: Status)
      modifies this
      ensures Effect(value, status) == ParseEffect(old(value), Bytes(src))
    {
      status := Parse(Bytes(src));
    }
  }

  /** The string switch inverts String for the eight flags and for NonExistent. */
  lemma NamedName(f: QualityFlag)
    requires Declared(f)
    ensures Named(Name(f)) == f
  {
    if f == NonExistent {
      assert Named("flagNonExistent") == NonExistent;
    }
  }

  /** Any string that is not one of the eight names decodes to NonExistent, and only those do not. */
  lemma {:induction false} NamedIsName(s: string)
    ensures Named(s) != NonExistent ==> 0 <= Named(s) <= 7 && Name(Named(s)) == s
    ensures (forall f: QualityFlag :: 0 <= f <= 7 ==> Name(f) != s) ==> Named(s) == NonExistent
  {
    if forall f: QualityFlag :: 0 <= f <= 7 ==> Name(f) != s {
      assert Name(0) != s && Name(1) != s && Name(2) != s && Name(3) != s;
      assert Name(4) != s && Name(5) != s && Name(6) != s && Name(7) != s;
    }
  }

  /** Parse accepts text only as []byte: a Go string argument makes the IsNil guard panic. */
  lemma ParseOfStringPanics(prior: QualityFlag, s: string, n: Int64)
    ensures ParseEffect(prior, Str(s)).status.Panic?
    ensures ParseEffect(prior, Int(n)).status.Panic? && ParseEffect(prior, Int64Val(n)).status.Panic?
    ensures ParseEffect(prior, Str(s)).receiver == prior
  {
  }

  /** Parse never fails on bytes and always leaves a declared flag. */
  lemma {:induction false} ParseBytesTotal(prior: QualityFlag, b: string)
    ensures ParseEffect(prior, Bytes(b)).status == Ok
    ensures Declared(ParseEffect(prior, Bytes(b)).receiver)
  {
    NamedIsName(b);
  }

  /**
   * UnmarshalJSON receives the raw JSON text, quotes included, so decoding
   * what MarshalJSON produced yields NonExistent rather than the flag.
   */
  lemma {:induction false} UnmarshalAfterMarshal(prior: QualityFlag, f: QualityFlag)
    requires 0 <= f <= 7
    ensures MarshalJSON(f).Some?
    ensures ParseEffect(prior, Bytes(MarshalJSON(f).value)) == Effect(NonExistent, Ok)
  {
    QuotedIsNoName(MarshalJSON(f).value);
  }

  /** No flag name starts with a quote, so quoted text decodes to NonExistent. */
  lemma QuotedIsNoName(s: string)
    requires |s| > 0 && s[0] == '"'
    ensures Named(s) == NonExistent
  {
    assert s != Name(Unflagged) && s != Name(NoObjections) && s != Name(Corrected);
    assert s != Name(ConfirmedWithRejectedObjection) && s != Name(AddedOrCalculated);
    assert s != Name(Objected) && s != Name(OnlyFormalCheck) && s != Name(FormalObjection);
  }

  /** String is "" outside the nine declared flags. */
  lemma NameUndeclared(f: QualityFlag)
    requires !Declared(f)
    ensures Name(f) == ""
  {
  }

  /** Parse of a flag's name, passed as []byte, yields that flag. */
  lemma ParseNameBytes(prior: QualityFlag, f: QualityFlag)
    requires 0 <= f <= 7
    ensures ParseEffect(prior, Bytes(Name(f))) == Effect(f, Ok)
  {
    NamedName(f);
  }

  /** A nil input, a nil []byte or a nil pointer resets the receiver to NonExistent without error. */
  lemma ParseNil(prior: QualityFlag)
    ensures ParseEffect(prior, NilInterface) == Effect(NonExistent, Ok)
    ensures ParseEffect(prior, NilBytes) == Effect(NonExistent, Ok)
    ensures ParseEffect(prior, OtherNillable(true)) == Effect(NonExistent, Ok)
  {
  }
}
