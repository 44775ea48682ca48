// What the two bitmask types (types.Resolution, types.DataType and their v1
// copies) have in common: flag i is bit i (the constant 1 << i) and is
// spelled table[i]; parsing ORs the bits of the recognised parts and skips
// every other part.
//
// A bitmask is modelled by the set of its bit positions: `r | s` is the
// union, `r & (1 << i) != 0` is `i in r`, and 0 is the empty set.
module BitFlags {
  import opened Common

  /** The positions of the set bits of a Go unsigned integer. */
  type Flags = set<nat>

  /** A label table, one label per flag in declaration order. */
  type Table = seq<string>

  /** No two flags share a label. */
  predicate Distinct(t: Table)
  {
    forall i, j :: 0 <= i < j < |t| ==> t[i] != t[j]
  }

  /** Every label is non-empty and free of ','. */
  predicate Plain(t: Table)
  {
    forall i :: 0 <= i < |t| ==> t[i] != "" && ',' !in t[i]
  }

  /**
   * The switch on one part, from case i on: the bit of the first label the
   * part equals, or nothing when no case matches (the part is skipped).
   */
  function Match(t: Table, part: string, i: nat): (b: Flags)
    requires i <= |t|
    ensures (forall j :: i <= j < |t| ==> t[j] != part) ==> b == {}
    ensures Distinct(t) ==> forall j :: i <= j < |t| && t[j] == part ==> b == {j}
    decreases |t| - i
  {
    if i == |t| then {} else if t[i] == part then {i} else Match(t, part, i + 1)
  }

  /** The accumulator after the loop over the parts, left to right. */
  function PartsValue(t: Table, parts: seq<string>): Flags
  {
    if parts == [] then {} else PartsValue(t, parts[..|parts| - 1]) + Match(t, parts[|parts| - 1], 0)
  }

  /** The loop every Parse variant runs: OR the bit of each recognised part into an accumulator. */
  method ParseParts(t: Table, parts: seq<string>) returns (v: Flags)
    ensures v == PartsValue(t, parts)
  {
    v := {};
    for k := 0 to |parts|
      invariant v == PartsValue(t, parts[..k])
    {
      assert parts[..k + 1][..k] == parts[..k];
      v := v + Match(t, parts[k], 0);
    }
    assert parts[..|parts|] == parts;
  }

  /** The flags whose label occurs among the parts: the order-free reading of a parse. */
  function Recognised(t: Table, parts: seq<string>): Flags
  {
    set j | 0 <= j < |t| && t[j] in parts
  }

  /** The labels of the set flags i.. in table order. */
  function SetLabels(t: Table, r: Flags, i: nat): (ls: seq<string>)
    requires i <= |t|
    ensures forall x :: x in ls ==> exists j :: i <= j < |t| && j in r && t[j] == x
    ensures forall j :: i <= j < |t| && j in r ==> t[j] in ls
    ensures Distinct(t) ==> forall j :: i <= j < |t| && t[j] in ls ==> j in r
    decreases |t| - i
  {
    if i == |t| then []
    else (if i in r then [t[i]] else []) + SetLabels(t, r, i + 1)
  }

  /** Each label followed by a comma, as String's successive `+=` build it. */
  function Commas(ls: seq<string>): string
  {
    if ls == [] then "" else ls[0] + "," + Commas(ls[1..])
  }

  /** String's buffer after the checks of flags 0..n-1: each set flag's label followed by a comma. */
  function Listed(t: Table, r: Flags, n: nat): string
    requires n <= |t|
  {
    if n == 0 then "" else if n - 1 in r then Listed(t, r, n - 1) + t[n - 1] + "," else Listed(t, r, n - 1)
  }

  /** The name of the lowest set flag from i on, or "" when none is set. */
  function Lowest(t: Table, r: Flags, i: nat): (name: string)
    requires i <= |t|
    ensures (forall j :: i <= j < |t| ==> j !in r) ==> name == ""
    ensures Plain(t) && name == "" ==> forall j :: i <= j < |t| ==> j !in r
    ensures name != "" ==> exists j :: i <= j < |t| && j in r && t[j] == name && (forall k :: i <= k < j ==> k !in r)
    decreases |t| - i
  {
    if i == |t| then "" else if i in r then t[i] else Lowest(t, r, i + 1)
  }

  // ---------------------------------------------------------------- lemmas

  /** A table each of whose labels is absent from the rest of the table after it is Distinct. */
  lemma DistinctByRows(t: Table)
    requires forall i :: 0 <= i < |t| ==> t[i] !in t[i + 1..]
    ensures Distinct(t)
  {
    forall i, j | 0 <= i < j < |t|
      ensures t[i] != t[j]
    {
      assert t[j] == t[i + 1..][j - i - 1];
    }
  }

  /**
   * The loop's result depends only on which labels occur among the parts:
   * it is exactly the set of their flags.
   */
  lemma {:induction false} PartsValueRecognised(t: Table, parts: seq<string>)
    requires Distinct(t)
    ensures PartsValue(t, parts) == Recognised(t, parts)
    decreases |parts|
  {
    if parts != [] {
      var init := parts[..|parts| - 1];
      var x := parts[|parts| - 1];
      PartsValueRecognised(t, init);
      assert init + [x] == parts;
      forall j | 0 <= j < |t|
        ensures j in PartsValue(t, parts) <==> t[j] in parts
      {
        assert t[j] in parts <==> t[j] in init || t[j] == x;
      }
    }
  }

  /** Part lists with the same labels among their members parse to the same flags: order and repeats do not matter. */
  lemma SameLabelsSameValue(t: Table, a: seq<string>, b: seq<string>)
    requires Distinct(t)
    requires forall x :: x in t ==> (x in a <==> x in b)
    ensures PartsValue(t, a) == PartsValue(t, b)
  {
    PartsValueRecognised(t, a);
    PartsValueRecognised(t, b);
    assert forall j :: 0 <= j < |t| ==> t[j] in t;
  }

  /** Commas distributes over concatenation. */
  lemma {:induction false} CommasAppend(a: seq<string>, b: seq<string>)
    ensures Commas(a + b) == Commas(a) + Commas(b)
    decreases |a|
  {
    if a != [] {
      CommasAppend(a[1..], b);
      assert (a + b)[1..] == a[1..] + b;
      assert Commas(a + b) == a[0] + "," + Commas(a[1..] + b);
    } else {
      assert a + b == b;
    }
  }

  /** The buffer so far followed by the labels still to come is the whole comma-terminated list. */
  lemma {:induction false} ListedCommas(t: Table, r: Flags, n: nat)
    requires n <= |t|
    ensures Listed(t, r, n) + Commas(SetLabels(t, r, n)) == Commas(SetLabels(t, r, 0))
    decreases n
  {
    if n > 0 {
      var head := if n - 1 in r then [t[n - 1]] else [];
      CommasAppend(head, SetLabels(t, r, n));
      assert Commas(head) == if n - 1 in r then t[n - 1] + "," else "";
      ListedCommas(t, r, n - 1);
    }
  }

  /** A non-empty comma-terminated list is the joined list plus one comma. */
  lemma {:induction false} CommasJoin(ls: seq<string>)
    requires ls != []
    ensures Commas(ls) == Join(ls, ",") + ","
    decreases |ls|
  {
    if |ls| > 1 {
      CommasJoin(ls[1..]);
    }
  }

  /** Join of non-empty parts starts with the first part's first character and ends with the last part's last one. */
  lemma {:induction false} JoinEnds(ls: seq<string>, sep: string)
    requires ls != [] && forall k :: 0 <= k < |ls| ==> ls[k] != ""
    ensures var s := Join(ls, sep); s != [] && s[0] == ls[0][0] && s[|s| - 1] == ls[|ls| - 1][|ls[|ls| - 1]| - 1]
    decreases |ls|
  {
    if |ls| > 1 {
      JoinEnds(ls[1..], sep);
    }
  }

  /** Trimming the commas off String's buffer leaves the comma-joined labels. */
  lemma TrimCommas(t: Table, ls: seq<string>)
    requires Plain(t) && forall x :: x in ls ==> x in t
    ensures TrimChar(Commas(ls), ',') == Join(ls, ",")
  {
    if ls != [] {
      CommasJoin(ls);
      forall k | 0 <= k < |ls|
        ensures ls[k] != "" && ',' !in ls[k]
      {
        assert ls[k] in t;
      }
      var j := Join(ls, ",");
      JoinEnds(ls, ",");
      var s := j + ",";
      assert s[0] == j[0] && s[|s| - 1] == ',';
      assert s[..|s| - 1] == j;
    }
  }

  /** String's whole buffer with the commas trimmed off is the comma-joined labels. */
  lemma ListedTrimmed(t: Table, r: Flags)
    requires Plain(t)
    ensures TrimChar(Listed(t, r, |t|), ',') == Join(SetLabels(t, r, 0), ",")
  {
    var ls := SetLabels(t, r, 0);
    ListedCommas(t, r, |t|);
    assert SetLabels(t, r, |t|) == [];
    assert Listed(t, r, |t|) == Commas(ls);
    forall x | x in ls
      ensures x in t
    {
      var j :| 0 <= j < |t| && j in r && t[j] == x;
    }
    TrimCommas(t, ls);
  }

  /** The joined labels are empty exactly when no flag of the table is set. */
  lemma JoinedLabelsEmpty(t: Table, r: Flags)
    requires Plain(t)
    ensures Join(SetLabels(t, r, 0), ",") == "" <==> forall j :: j in r ==> j >= |t|
  {
    var ls := SetLabels(t, r, 0);
    if ls != [] {
      forall k | 0 <= k < |ls|
        ensures ls[k] != ""
      {
          assert ls[k] in ls;
        var j :| 0 <= j < |t| && j in r && t[j] == ls[k];
      }
      JoinEnds(ls, ",");
      assert ls[0] in ls;
      var j :| 0 <= j < |t| && j in r && t[j] == ls[0];
    }
  }

  /**
   * Parsing the comma-joined labels of r gives back exactly the flags of r
   * that the table defines.
   */
  lemma ParseListing(t: Table, r: Flags)
    requires Distinct(t) && Plain(t)
    ensures PartsValue(t, Split(Join(SetLabels(t, r, 0), ","), ",")) == set j | j in r && j < |t|
  {
    var ls := SetLabels(t, r, 0);
    var parts := Split(Join(ls, ","), ",");
    if ls == [] {
      assert Join(ls, ",") == "";
      assert parts == [""];
    } else {
      forall k | 0 <= k < |ls|
        ensures ',' !in ls[k]
      {
        assert ls[k] in ls;
        var j :| 0 <= j < |t| && j in r && t[j] == ls[k];
      }
      SplitJoin(ls, ',');
    }
    assert forall j :: 0 <= j < |t| ==> (t[j] in parts <==> j in r);
    PartsValueRecognised(t, parts);
  }

  /** A single label parses to its own flag. */
  lemma ParseOneLabel(t: Table, i: nat)
    requires Distinct(t) && Plain(t) && i < |t|
    ensures PartsValue(t, Split(t[i], ",")) == {i}
  {
    SplitWithoutSeparator(t[i], ',');
    assert [t[i]][..0] == [];
  }

  /** The lowest set flag of a single flag is that flag. */
  lemma {:induction false} LowestOfOne(t: Table, i: nat, k: nat)
    requires k <= i < |t|
    ensures Lowest(t, {i}, k) == t[i]
    decreases i - k
  {
    if k < i {
      LowestOfOne(t, i, k + 1);
    }
  }
}
