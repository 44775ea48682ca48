// Shared vocabulary: Go's outcomes (value, error, panic), the dynamic `any`
// argument of the Parse methods, integer widths, and the few functions of
// Go's `strings` and `slices` packages the service relies on.
module Common {

  datatype Option<T> = None | Some(value: T)

  /** What a Go call ends with: a value, a returned error, or a run-time panic. */
  datatype Outcome<T> = Done(value: T) | Failed(error: string) | Panicked(reason: string)

  /** A failed outcome handed on unchanged: the callers' `if err != nil { return nil, err }`. */
  function Forward<T, U>(o: Outcome<T>): (r: Outcome<U>)
    requires !o.Done?
    ensures o.Failed? ==> r == Failed(o.error)
    ensures o.Panicked? ==> r == Panicked(o.reason)
  {
    if o.Failed? then Failed(o.error) else Panicked(o.reason)
  }

  /** What a method with a pointer receiver returns: nil, an error, or a panic. */
  datatype Status = Ok | Err(error: string) | Panic(reason: string)

  /** The receiver's value after such a call, and what the call returned. */
  datatype Effect<T> = Effect(receiver: T, status: Status)

  /** json.Marshal of a string none of whose characters needs escaping. */
  function JsonString(s: string): (json: string)
    ensures |json| == |s| + 2 && json[0] == '"' && json[|json| - 1] == '"'
  {
    "\"" + s + "\""
  }

  const MinInt64: int := -0x8000_0000_0000_0000
  const MaxInt64: int := 0x7fff_ffff_ffff_ffff
  type Int64 = x: int | MinInt64 <= x <= MaxInt64
  type Uint64 = x: int | 0 <= x < 0x1_0000_0000_0000_0000

  /** Two's-complement wrap-around of a Go int64 operation. */
  function Wrap64(x: int): (r: Int64)
    ensures MinInt64 <= x <= MaxInt64 ==> r == x
    ensures (r - x) % 0x1_0000_0000_0000_0000 == 0
  {
    (x - MinInt64) % 0x1_0000_0000_0000_0000 + MinInt64
  }

  function Abs(x: int): nat { if x < 0 then -x else x }

  /** Go's integer division truncates toward zero; Dafny's is Euclidean. */
  function TruncDiv(a: int, b: int): (q: int)
    requires b != 0
    ensures Abs(q) == Abs(a) / Abs(b)
    ensures (a >= 0) == (b > 0) ==> q >= 0
    ensures (a >= 0) != (b > 0) ==> q <= 0
  {
    var m: int := NatDiv(Abs(a), Abs(b));
    if (a >= 0) == (b > 0) then m else -m
  }

  function NatDiv(x: nat, y: nat): (m: nat)
    requires y != 0
    ensures m == x / y
  {
    x / y
  }

  /**
   * The dynamic value handed to a Parse method through a Go `any`
   * parameter, classified by the reflect kinds the methods look at.
   */
  datatype Any =
    | NilInterface                  // untyped nil: reflect.ValueOf(nil) is not valid
    | Str(s: string)
    | Bytes(b: string)              // a non-nil []byte, read through string(v)
    | NilBytes                      // a nil []byte
    | Int(i: Int64)
    | Int64Val(i: Int64)
    | Uint(u: Uint64)
    | OtherNillable(isNil: bool)    // another pointer, map, slice, chan or func
    | OtherValue                    // any other value (bool, float64, struct, ...)

  // ---------------------------------------------------------------- strings

  predicate HasPrefix(s: string, p: string) { |p| <= |s| && s[..|p|] == p }

  predicate HasSuffix(s: string, p: string) { |p| <= |s| && s[|s| - |p|..] == p }

  /** strings.Contains */
  predicate Contains(s: string, sub: string)
    decreases |s|
  {
    HasPrefix(s, sub) || (|s| > 0 && Contains(s[1..], sub))
  }

  /** slices.Index: the first position of x in xs, or -1. */
  function IndexOf(xs: seq<string>, x: string): (r: int)
    ensures -1 <= r < |xs|
    ensures r == -1 <==> x !in xs
    ensures r >= 0 ==> xs[r] == x && x !in xs[..r]
  {
    if |xs| == 0 then -1
    else if xs[0] == x then 0
    else
      var k := IndexOf(xs[1..], x);
      if k == -1 then -1
      else
        assert xs[..k + 1] == [xs[0]] + xs[1..][..k];
        k + 1
  }

  /** unicode.IsSpace, the set strings.TrimSpace removes. */
  predicate IsSpace(c: char)
  {
    c == ' ' || c == '\t' || c == '\n' || c == '\U{B}' || c == '\U{C}' || c == '\r'
    || c == '\U{85}' || c == '\U{A0}' || c == '\U{1680}'
    || ('\U{2000}' <= c <= '\U{200A}') || c == '\U{2028}' || c == '\U{2029}'
    || c == '\U{202F}' || c == '\U{205F}' || c == '\U{3000}'
  }

  function TrimLeftSpace(s: string): (r: string)
    ensures |r| <= |s| && r == s[|s| - |r|..]
    ensures r == [] || !IsSpace(r[0])
    ensures forall i :: 0 <= i < |s| - |r| ==> IsSpace(s[i])
  {
    if |s| > 0 && IsSpace(s[0]) then TrimLeftSpace(s[1..]) else s
  }

  function TrimRightSpace(s: string): (r: string)
    ensures |r| <= |s| && r == s[..|r|]
    ensures r == [] || !IsSpace(r[|r| - 1])
    ensures forall i :: |r| <= i < |s| ==> IsSpace(s[i])
  {
    if |s| > 0 && IsSpace(s[|s| - 1]) then TrimRightSpace(s[..|s| - 1]) else s
  }

  /** Concatenation is associative. */
  lemma AppendAssoc<T>(a: seq<T>, b: seq<T>, c: seq<T>)
    ensures (a + b) + c == a + (b + c)
  {
  }

  /** strings.TrimSpace */
  function TrimSpace(s: string): string
  {
    TrimRightSpace(TrimLeftSpace(s))
  }

  /** A string TrimSpace leaves alone. */
  predicate Trimmed(s: string) { s == [] || (!IsSpace(s[0]) && !IsSpace(s[|s| - 1])) }

  lemma TrimSpaceTrims(s: string)
    ensures Trimmed(TrimSpace(s))
    ensures |TrimSpace(s)| <= |s|
  {
    var l := TrimLeftSpace(s);
    var r := TrimRightSpace(l);
    if r != [] {
      assert r[0] == l[0];
    }
  }

  lemma TrimSpaceOfTrimmed(s: string)
    requires Trimmed(s)
    ensures TrimSpace(s) == s
  {
  }

  /** TrimSpace is idempotent: a trimmed link is unchanged by a second trim. */
  lemma {:induction false} TrimSpaceIdempotent(s: string)
    ensures TrimSpace(TrimSpace(s)) == TrimSpace(s)
  {
    TrimSpaceTrims(s);
    TrimSpaceOfTrimmed(TrimSpace(s));
  }

  /** strings.Trim(s, cutset) for a one-character cutset. */
  function TrimChar(s: string, c: char): (r: string)
    ensures |r| <= |s|
    ensures r == [] || (r[0] != c && r[|r| - 1] != c)
    decreases |s|
  {
    if |s| > 0 && s[0] == c then TrimChar(s[1..], c)
    else if |s| > 0 && s[|s| - 1] == c then TrimChar(s[..|s| - 1], c)
    else s
  }

  /** strings.Join */
  function Join(parts: seq<string>, sep: string): string
  {
    if |parts| == 0 then ""
    else if |parts| == 1 then parts[0]
    else parts[0] + sep + Join(parts[1..], sep)
  }

  /** The first position of c in s, or |s| when it is absent. */
  function FindChar(s: string, c: char): (i: nat)
    ensures i <= |s|
    ensures i < |s| ==> s[i] == c
    ensures forall j :: 0 <= j < i ==> s[j] != c
  {
    if |s| == 0 then 0 else if s[0] == c then 0 else 1 + FindChar(s[1..], c)
  }

  /** The first position of sep (non-empty) in s, or -1 (strings.Index). */
  function Find(s: string, sep: string): (i: int)
    requires |sep| > 0
    ensures -1 <= i
    ensures i >= 0 ==> i <= |s| - |sep| && s[i..i + |sep|] == sep
    decreases |s|
  {
    if |s| < |sep| then -1
    else if s[..|sep|] == sep then 0
    else
      var k := Find(s[1..], sep);
      if k < 0 then -1 else k + 1
  }

  /**
   * strings.Split: with an empty separator the string falls apart into its
   * characters (no part at all for ""); otherwise the pieces between
   * successive non-overlapping occurrences, always at least one.
   */
  function Split(s: string, sep: string): (parts: seq<string>)
    ensures sep != "" ==> |parts| >= 1
    ensures sep == "" ==> |parts| == |s|
    decreases |s|
  {
    if sep == "" then
      if s == "" then [] else [s[..1]] + Split(s[1..], sep)
    else
      var i := Find(s, sep);
      if i < 0 then [s] else [s[..i]] + Split(s[i + |sep|..], sep)
  }

  lemma FindCharAsFind(s: string, c: char)
    ensures Find(s, [c]) == if FindChar(s, c) < |s| then FindChar(s, c) else -1
  {
    if |s| > 0 && s[0] != c {
      FindCharAsFind(s[1..], c);
    }
  }

  /**
   * Splitting a joined list at a one-character separator that occurs in none
   * of the parts gives the parts back.
   */
  lemma {:induction false} SplitJoin(parts: seq<string>, c: char)
    requires |parts| >= 1
    requires forall i :: 0 <= i < |parts| ==> c !in parts[i]
    ensures Split(Join(parts, [c]), [c]) == parts
  {
    if |parts| == 1 {
      SplitWithoutSeparator(parts[0], c);
    } else {
      var p := parts[0];
      var rest := Join(parts[1..], [c]);
      var s := p + [c] + rest;
      assert Join(parts, [c]) == s;
      SeparatorAfterFirst(p, rest, c);
      FindCharAsFind(s, c);
      SplitJoin(parts[1..], c);
      assert Split(s, [c]) == [p] + Split(rest, [c]);
    }
  }

  /** The first separator of p + [c] + rest is the one after p, when p holds none. */
  lemma SeparatorAfterFirst(p: string, rest: string, c: char)
    requires c !in p
    ensures FindChar(p + [c] + rest, c) == |p|
    ensures (p + [c] + rest)[..|p|] == p && (p + [c] + rest)[|p| + 1..] == rest
  {
    var s := p + [c] + rest;
    assert forall j :: 0 <= j < |p| ==> s[j] == p[j];
    assert s[|p|] == c;
    assert s[..|p|] == p;
    assert s[|p| + 1..] == rest;
  }

  /** A string with no occurrence of the separator splits into itself alone. */
  lemma SplitWithoutSeparator(s: string, c: char)
    requires c !in s
    ensures Split(s, [c]) == [s]
  {
    FindCharAsFind(s, c);
    assert FindChar(s, c) == |s|;
  }

  /** strings.SplitAfterN(s, sep, 2)[0] for a one-character sep: s up to and including the first sep. */
  function UpToFirst(s: string, c: char): (r: string)
    ensures HasPrefix(s, r)
    ensures c !in s ==> r == s
    ensures c in s ==> |r| > 0 && r[|r| - 1] == c && c !in r[..|r| - 1]
  {
    var i := FindChar(s, c);
    if i < |s| then
      assert s[..i + 1][..i] == s[..i];
      s[..i + 1]
    else s
  }
}
