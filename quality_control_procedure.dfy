// dwdTypes.QualityControlProcedure
// (internal/dwd/v2/dwdTypes/quality-control-procedure.go): the procedure a
// measurement's quality was checked with, its names, and Parse.
module QualityControlProcedures {
  import opened Common

  type Procedure = Int64

  const FormalControl: Procedure := 1
  const IndividualCriteria: Procedure := 2
  const Automatic: Procedure := 3
  const HistoricSubjective: Procedure := 5
  const SecondaryControl: Procedure := 7
  const OutOfRoutine: Procedure := 8
  const SingleParameterCorrection: Procedure := 9
  const Finished: Procedure := 10

  /** The eight declared procedures. */
  predicate Declared(q: Procedure)
  {
    q == FormalControl || q == IndividualCriteria || q == Automatic || q == HistoricSubjective
    || q == SecondaryControl || q == OutOfRoutine || q == SingleParameterCorrection || q == Finished
  }

  /** String() */
  function Name(q: Procedure): string
  {
    if q == FormalControl then "formalControl"
    else if q == IndividualCriteria then "individualCriteria"
    else if q == Automatic then "automatic"
    else if q == HistoricSubjective then "historic"
    else if q == SecondaryControl then "secondaryControl"
    else if q == OutOfRoutine then "outOfRoutine"
    else if q == SingleParameterCorrection then "singleParameterCorrection"
    else if q == Finished then "finished"
    else ""
  }

  /** The string switch of Parse: the procedure with that name, if any. */
  function Named(s: string): Option<Procedure>
  {
    if s == Name(FormalControl) then Some(FormalControl)
    else if s == Name(IndividualCriteria) then Some(IndividualCriteria)
    else if s == Name(Automatic) then Some(Automatic)
    else if s == Name(HistoricSubjective) then Some(HistoricSubjective)
    else if s == Name(SecondaryControl) then Some(SecondaryControl)
    else if s == Name(OutOfRoutine) then Some(OutOfRoutine)
    else if s == Name(SingleParameterCorrection) then Some(SingleParameterCorrection)
    else if s == Name(Finished) then Some(Finished)
    else None
  }

  /**
   * The guard of the int case as written: `(0 < v && v <= 3) || v == 5 ||
   * (v <= 7 && v <= 10)`.
   */
  predicate IntAccepted(v: Int64)
  {
    (0 < v && v <= 3) || v == 5 || (v <= 7 && v <= 10)
  }

  /** The effect of Parse(src) on a receiver holding prior. */
  function ParseEffect(prior: Procedure, src: Any): Effect<Procedure>
  {
    match src
    case NilInterface => Effect(prior, Err("quality control procedure may not be <nil>"))
    case Str(s) => ParseName(prior, s)
    case Bytes(b) => ParseName(prior, b)
    case NilBytes => ParseName(prior, "")
    case Int(v) =>
      if IntAccepted(v) then Effect(v, Ok) else Effect(prior, Err("int not mapped to control procedure"))
    case _ => Effect(prior, Err("unsupported input type"))
  }

  /** The string switch applied to a receiver holding prior. */
  function ParseName(prior: Procedure, s: string): Effect<Procedure>
  {
    match Named(s)
    case Some(q) => Effect(q, Ok)
    case None => Effect(prior, Err("unknown quality control procedure"))
  }

  /** MarshalJSON: the JSON string of the name. */
  function MarshalJSON(q: Procedure): (json: string)
    ensures json == JsonString(Name(q))
  {
    JsonString(Name(q))
  }

  /** A variable of type QualityControlProcedure. */
  class ProcedureVar {
    var value: Procedure

    constructor (v: Procedure)
      ensures value == v
    {
      value := v;
    }

    /** Parse */
    method Parse(src: Any) returns (status: Status)
      modifies this
      ensures Effect(value, status) == ParseEffect(old(value), src)
    {
      if src.NilInterface? {
        return Err("quality control procedure may not be <nil>");
      }
      var procedure: string;
      match src {
        case Str(s) => procedure := s;
        case Bytes(b) => procedure := b;
        case NilBytes => procedure := "";
        case Int(v) =>
          if (0 < v && v <= 3) || v == 5 || (v <= 7 && v <= 10) {
            value := v;
            return Ok;
          }
          return Err("int not mapped to control procedure");
        case _ => return Err("unsupported input type");
      }
      var q := Named(procedure);
      if q.None? {
        return Err("unknown quality control procedure");
      }
      value := q.value;
      return Ok;
    }

    /** UnmarshalJSON: Parse of the raw JSON bytes. */
    method UnmarshalJSON(src: string) returns (status: Status)
      modifies this
      ensures Effect(value, status) == ParseEffect(old(value), Bytes(src))
    {
      status := Parse(Bytes(src));
    }
  }

  /** The string switch inverts String on the declared procedures. */
  lemma NamedName(q: Procedure)
    requires Declared(q)
    ensures Named(Name(q)) == Some(q)
  {
  }

  /** Only the eight names are accepted, and each maps back to its name. */
  lemma {:induction false} NamedIsName(s: string)
    ensures Named(s).Some? ==> Declared(Named(s).value) && Name(Named(s).value) == s
    ensures Named(s).None? <==> forall q: Procedure :: Declared(q) ==> Name(q) != s
  {
    if Named(s).Some? {
      var q := Named(s).value;
      assert Declared(q) && Name(q) == s;
    }
  }

  /**
   * The int guard accepts exactly the integers up to 7: the last disjunct
   * subsumes the others, so 0, 4, 6 and every negative value are stored
   * although no procedure has them, while the declared 8, 9 and 10 are
   * refused.
   */
  lemma IntAcceptedIffAtMostSeven(prior: Procedure, v: Int64)
    ensures ParseEffect(prior, Int(v)).status == Ok <==> v <= 7
    ensures v <= 7 ==> ParseEffect(prior, Int(v)).receiver == v
    ensures v > 7 ==> ParseEffect(prior, Int(v)).receiver == prior
  {
  }

  /** Integers arrive only as Go int: an int64 argument is an unsupported input type. */
  lemma Int64Unsupported(prior: Procedure, v: Int64)
    ensures ParseEffect(prior, Int64Val(v)) == Effect(prior, Err("unsupported input type"))
  {
  }

  /**
   * The raw JSON text reaches the string switch with its quotes, so
   * UnmarshalJSON refuses what MarshalJSON produced and keeps the receiver.
   */
  lemma {:induction false} UnmarshalAfterMarshal(prior: Procedure, q: Procedure)
    ensures ParseEffect(prior, Bytes(MarshalJSON(q))) == Effect(prior, Err("unknown quality control procedure"))
  {
    var json := MarshalJSON(q);
    NamedIsName(json);
    forall p: Procedure | Declared(p)
      ensures Name(p) != json
    {
      assert |Name(p)| > 0 && Name(p)[0] != '"';
    }
  }

  /** String is "" for every value that names no procedure. */
  lemma NameUndeclared(q: Procedure)
    requires !Declared(q)
    ensures Name(q) == ""
  {
  }

  /** Parse of a procedure's name yields it, from a string or from []byte. */
  lemma ParseNameRoundTrip(prior: Procedure, q: Procedure)
    requires Declared(q)
    ensures ParseEffect(prior, Str(Name(q))) == Effect(q, Ok)
    ensures ParseEffect(prior, Bytes(Name(q))) == Effect(q, Ok)
  {
    NamedName(q);
  }

  /** A nil input is refused and the receiver is kept. */
  lemma ParseNil(prior: Procedure)
    ensures ParseEffect(prior, NilInterface) == Effect(prior, Err("quality control procedure may not be <nil>"))
  {
  }
}
