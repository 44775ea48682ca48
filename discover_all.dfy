// DiscoverAllStations (routes/v2/discover-all.go): station discovery for
// every supported (granularity, product) pair, then one GeoJSON feature per
// location, the stations found at the same location merged into one.
module DiscoverAll {
  import opened Common
  import opened Granularities
  import Products
  import ProductMapping
  import opened V2Types

  const IndexPanic := "runtime error: index out of range"

  // ============================================================ discovery

  /** One discovery task: the pair one goroutine asks DiscoverStations for. */
  datatype Task = Task(granularity: Granularity, product: Products.Product)

  /** The tasks of the products listed for g, in table order. */
  function TaskRow(g: Granularity): (ts: seq<Task>)
    ensures |ts| == |ProductMapping.Offered(g)|
    ensures forall i :: 0 <= i < |ts| ==> ts[i] == Task(g, ProductMapping.Offered(g)[i])
  {
    seq(|ProductMapping.Offered(g)|, i requires 0 <= i < |ProductMapping.Offered(g)| => Task(g, ProductMapping.Offered(g)[i]))
  }

  /**
   * The tasks the nested loops of lines 26-47 start, for the order in which
   * the range over the map visits the granularities.
   */
  function Tasks(order: seq<Granularity>): seq<Task>
    decreases |order|
  {
    if order == [] then [] else TaskRow(order[0]) + Tasks(order[1..])
  }

  /** Whatever the map's visiting order, the tasks are exactly the supported pairs. */
  lemma {:induction false} TasksAreSupportedPairs(order: seq<Granularity>, t: Task)
    requires forall g :: g in ProductMapping.AvailableClimateObservationProducts ==> g in order
    ensures t in Tasks(order) <==> ProductMapping.Supports(t.granularity, t.product)
  {
    TasksIn(order, t);
    if ProductMapping.Supports(t.granularity, t.product) {
      assert t.granularity in ProductMapping.AvailableClimateObservationProducts;
    }
  }

  lemma {:induction false} TasksIn(order: seq<Granularity>, t: Task)
    ensures t in Tasks(order) <==> t.granularity in order && ProductMapping.Supports(t.granularity, t.product)
    decreases |order|
  {
    if order != [] {
      TasksIn(order[1..], t);
      var row := TaskRow(order[0]);
      if t.granularity == order[0] && ProductMapping.Supports(t.granularity, t.product) {
        var i :| 0 <= i < |ProductMapping.Offered(order[0])| && ProductMapping.Offered(order[0])[i] == t.product;
        assert row[i] == t;
      }
      assert t in row ==> t.granularity == order[0] && ProductMapping.Supports(t.granularity, t.product);
      assert order == [order[0]] + order[1..];
    }
  }

  /** A discovered station as it is collected: it supports the task's product at the task's granularity only. */
  function Tag(s: Station, t: Task): (r: Station)
    ensures r.id == s.id && r.name == s.name && r.height == s.height && r.location == s.location
    ensures r.supportedProducts == map[Products.Name(t.product) := [t.granularity]]
  {
    s.(supportedProducts := map[Products.Name(t.product) := [t.granularity]])
  }

  function TagAll(ss: seq<Station>, t: Task): (r: seq<Station>)
    ensures |r| == |ss|
    ensures forall i :: 0 <= i < |ss| ==> r[i] == Tag(ss[i], t)
  {
    seq(|ss|, i requires 0 <= i < |ss| => Tag(ss[i], t))
  }

  /**
   * All stations of all tasks, or the error of the first task that fails
   * (lines 28-54). The tasks run concurrently; the model takes the schedule
   * in which they finish in the order they were started.
   */
  function Collect(discover: Task -> Outcome<seq<Station>>, tasks: seq<Task>): Outcome<seq<Station>>
    decreases |tasks|
  {
    if tasks == [] then Done([])
    else
      var found := discover(tasks[0]);
      if !found.Done? then Forward(found)
      else
        var rest := Collect(discover, tasks[1..]);
        if !rest.Done? then rest else Done(TagAll(found.value, tasks[0]) + rest.value)
  }

  /** Discovery is all or nothing: one failing task and no station is collected. */
  lemma {:induction false} CollectAllOrNothing(discover: Task -> Outcome<seq<Station>>, tasks: seq<Task>)
    ensures Collect(discover, tasks).Done? <==> forall t :: t in tasks ==> discover(t).Done?
    decreases |tasks|
  {
    if tasks != [] {
      CollectAllOrNothing(discover, tasks[1..]);
      assert tasks == [tasks[0]] + tasks[1..];
    }
  }

  /** Every collected station carries one product with one granularity, of a task that was run. */
  lemma {:induction false} CollectedAreTagged(discover: Task -> Outcome<seq<Station>>, tasks: seq<Task>)
    requires Collect(discover, tasks).Done?
    ensures forall s :: s in Collect(discover, tasks).value ==>
      exists t :: t in tasks && s.supportedProducts == map[Products.Name(t.product) := [t.granularity]]
    ensures forall s :: s in Collect(discover, tasks).value ==> SingleLists(s)
    decreases |tasks|
  {
    if tasks != [] {
      CollectedAreTagged(discover, tasks[1..]);
      var tagged := TagAll(discover(tasks[0]).value, tasks[0]);
      forall s | s in Collect(discover, tasks).value
        ensures exists t :: t in tasks && s.supportedProducts == map[Products.Name(t.product) := [t.granularity]]
        ensures SingleLists(s)
      {
        if s in tagged {
          assert tasks[0] in tasks;
        } else {
          var t :| t in tasks[1..] && s.supportedProducts == map[Products.Name(t.product) := [t.granularity]];
          assert t in tasks;
        }
      }
    }
  }

  // ================================================================ merge

  /** Each product of a station comes with exactly one granularity: the shape Tag gives. */
  predicate SingleLists(s: Station)
  {
    forall p :: p in s.supportedProducts ==> |s.supportedProducts[p]| == 1
  }

  /** processedStation.SupportedProducts[product]: nil when the product is absent. */
  function GranularitiesOf(m: map<string, seq<Granularity>>, p: string): seq<Granularity>
  {
    if p in m then m[p] else []
  }

  /**
   * A later station's list for one product added to the stored one: it is
   * appended unless the stored list already holds its first element.
   */
  function MergedList(stored: map<string, seq<Granularity>>, p: string, incoming: seq<Granularity>): (r: seq<Granularity>)
    requires incoming != []
    ensures incoming[0] in GranularitiesOf(stored, p) ==> r == GranularitiesOf(stored, p)
    ensures incoming[0] !in GranularitiesOf(stored, p) ==> r == GranularitiesOf(stored, p) + incoming
  {
    var current := GranularitiesOf(stored, p);
    if incoming[0] in current then current else current + incoming
  }

  /**
   * The stored products with a later station's products added (lines 70-75);
   * reading the first element of an empty list panics.
   */
  function MergeProducts(stored: map<string, seq<Granularity>>, incoming: map<string, seq<Granularity>>)
    : Outcome<map<string, seq<Granularity>>>
  {
    if exists p :: p in incoming && incoming[p] == [] then Panicked(IndexPanic)
    else Done(MergedMap(stored, incoming))
  }

  /** Every product of either map, the incoming ones merged into the stored ones. */
  function MergedMap(stored: map<string, seq<Granularity>>, incoming: map<string, seq<Granularity>>)
    : (m: map<string, seq<Granularity>>)
    requires forall p :: p in incoming ==> incoming[p] != []
    ensures m.Keys == stored.Keys + incoming.Keys
    ensures forall p :: p in incoming ==> m[p] == MergedList(stored, p, incoming[p])
    ensures forall p :: p in stored && p !in incoming ==> m[p] == stored[p]
  {
    map p | p in stored.Keys + incoming.Keys :: if p in incoming then MergedList(stored, p, incoming[p]) else stored[p]
  }

  /** One pass of the merge loop (lines 62-77). */
  function MergeStation(key: Station -> string, merged: map<string, Station>, s: Station): Outcome<map<string, Station>>
  {
    var k := key(s);
    if k !in merged then Done(merged[k := s])
    else
      var products := MergeProducts(merged[k].supportedProducts, s.supportedProducts);
      if !products.Done? then Forward(products)
      else Done(merged[k := merged[k].(supportedProducts := products.value)])
  }

  /** The merge loop over the collected stations, in order. */
  function MergeAll(key: Station -> string, merged: map<string, Station>, ss: seq<Station>): Outcome<map<string, Station>>
    decreases |ss|
  {
    if ss == [] then Done(merged)
    else
      var next := MergeStation(key, merged, ss[0]);
      if !next.Done? then next else MergeAll(key, next.value, ss[1..])
  }

  /** The loop state of AddProducts once the products outside `left` are added. */
  predicate AddedExcept(stored: map<string, seq<Granularity>>, incoming: map<string, seq<Granularity>>,
                        left: set<string>, products: map<string, seq<Granularity>>)
  {
    && left <= incoming.Keys
    && products.Keys == stored.Keys + (incoming.Keys - left)
    && (forall p :: p in products && (p !in incoming || p in left) ==> products[p] == stored[p])
    && (forall p :: p in incoming.Keys - left ==> incoming[p] != [] && products[p] == MergedList(stored, p, incoming[p]))
  }

  /** The inner loop of lines 70-75, over the products in the map's visiting order. */
  method AddProducts(stored: map<string, seq<Granularity>>, incoming: map<string, seq<Granularity>>)
    returns (outcome: Outcome<map<string, seq<Granularity>>>)
    ensures outcome == MergeProducts(stored, incoming)
  {
    var products := stored;
    var left := incoming.Keys;
    while left != {}
      invariant AddedExcept(stored, incoming, left, products)
      decreases |left|
    {
      var p :| p in left;
      var granularity := incoming[p];
      if granularity == [] {
        EmptyListPanics(stored, incoming, p);
        return Panicked(IndexPanic);
      }
      var current := GranularitiesOf(products, p);
      ghost var before := products;
      if granularity[0] !in current {
        products := products[p := current + granularity];
      }
      AddOneProduct(stored, incoming, left, before, p);
      left := left - {p};
    }
    MergedMapPointwise(stored, incoming, products);
    return Done(products);
  }

  lemma EmptyListPanics(stored: map<string, seq<Granularity>>, incoming: map<string, seq<Granularity>>, p: string)
    requires p in incoming && incoming[p] == []
    ensures MergeProducts(stored, incoming) == Panicked(IndexPanic)
  {
  }

  lemma AddOneProduct(stored: map<string, seq<Granularity>>, incoming: map<string, seq<Granularity>>,
                      left: set<string>, products: map<string, seq<Granularity>>, p: string)
    requires AddedExcept(stored, incoming, left, products)
    requires p in left && incoming[p] != []
    ensures var current := GranularitiesOf(products, p);
      AddedExcept(stored, incoming, left - {p},
        if incoming[p][0] !in current then products[p := current + incoming[p]] else products)
  {
    assert GranularitiesOf(products, p) == GranularitiesOf(stored, p);
  }

  lemma MergedMapPointwise(stored: map<string, seq<Granularity>>, incoming: map<string, seq<Granularity>>,
                           products: map<string, seq<Granularity>>)
    requires AddedExcept(stored, incoming, {}, products)
    ensures MergeProducts(stored, incoming) == Done(products)
  {
    var merged := MergedMap(stored, incoming);
    assert products.Keys == merged.Keys;
    assert forall p :: p in products ==> products[p] == merged[p];
    assert products == merged;
  }

  /** The merge loop of lines 59-78. */
  method MergeStations(key: Station -> string, allStations: seq<Station>) returns (outcome: Outcome<map<string, Station>>)
    ensures outcome == MergeAll(key, map[], allStations)
  {
    var mergedStations: map<string, Station> := map[];
    var i := 0;
    while i < |allStations|
      invariant 0 <= i <= |allStations|
      invariant MergeAll(key, mergedStations, allStations[i..]) == MergeAll(key, map[], allStations)
    {
      assert allStations[i..][0] == allStations[i] && allStations[i..][1..] == allStations[i + 1..];
      var station := allStations[i];
      var mapKey := key(station);
      if mapKey !in mergedStations {
        mergedStations := mergedStations[mapKey := station];
      } else {
        var processedStation := mergedStations[mapKey];
        var products := AddProducts(processedStation.supportedProducts, station.supportedProducts);
        if !products.Done? {
          return Forward(products);
        }
        mergedStations := mergedStations[mapKey := processedStation.(supportedProducts := products.value)];
      }
      i := i + 1;
    }
    return Done(mergedStations);
  }

  /** The location keys of a run of stations. */
  function Keys(key: Station -> string, ss: seq<Station>): set<string>
    decreases |ss|
  {
    if ss == [] then {} else {key(ss[0])} + Keys(key, ss[1..])
  }

  /** The merge keeps one station per location key: the keys stored before and those of the new stations. */
  lemma {:induction false} MergeAllKeys(key: Station -> string, merged: map<string, Station>, ss: seq<Station>)
    requires MergeAll(key, merged, ss).Done?
    ensures MergeAll(key, merged, ss).value.Keys == merged.Keys + Keys(key, ss)
    decreases |ss|
  {
    if ss != [] {
      MergeAllKeys(key, MergeStation(key, merged, ss[0]).value, ss[1..]);
    }
  }

  /**
   * The station stored under a key is the first one seen with that key,
   * except for its products: later stations never change its ID, name,
   * height or location.
   */
  lemma {:induction false} MergeAllKeepsFirst(key: Station -> string, merged: map<string, Station>, ss: seq<Station>, k: string)
    requires MergeAll(key, merged, ss).Done?
    requires k in merged
    ensures var s := MergeAll(key, merged, ss).value;
      k in s && s[k].id == merged[k].id && s[k].name == merged[k].name
      && s[k].height == merged[k].height && s[k].location == merged[k].location
    decreases |ss|
  {
    if ss != [] {
      MergeAllKeepsFirst(key, MergeStation(key, merged, ss[0]).value, ss[1..], k);
    }
  }

  /** A key first met in station ss[i] keeps that station's ID, name, height and location. */
  lemma FirstStationWins(key: Station -> string, ss: seq<Station>, i: nat)
    requires i < |ss| && MergeAll(key, map[], ss).Done?
    requires forall j :: 0 <= j < i ==> key(ss[j]) != key(ss[i])
    ensures var s := MergeAll(key, map[], ss).value; var k := key(ss[i]);
      k in s && s[k].id == ss[i].id && s[k].name == ss[i].name
      && s[k].height == ss[i].height && s[k].location == ss[i].location
  {
    MergeAllSplit(key, map[], ss[..i], ss[i..]);
    assert ss[..i] + ss[i..] == ss;
    var before := MergeAll(key, map[], ss[..i]).value;
    MergeAllKeys(key, map[], ss[..i]);
    KeysOf(key, ss[..i]);
    assert key(ss[i]) !in before;
    assert ss[i..][0] == ss[i];
    var after := MergeStation(key, before, ss[i]).value;
    MergeAllKeepsFirst(key, after, ss[i..][1..], key(ss[i]));
  }

  lemma {:induction false} KeysOf(key: Station -> string, ss: seq<Station>)
    ensures forall k :: k in Keys(key, ss) <==> exists j :: 0 <= j < |ss| && key(ss[j]) == k
    decreases |ss|
  {
    if ss != [] {
      KeysOf(key, ss[1..]);
      forall k | k in Keys(key, ss[1..])
        ensures exists j :: 0 <= j < |ss| && key(ss[j]) == k
      {
        var j :| 0 <= j < |ss[1..]| && key(ss[1..][j]) == k;
        assert ss[j + 1] == ss[1..][j];
      }
      forall k, j | 0 <= j < |ss| && key(ss[j]) == k && j > 0
        ensures k in Keys(key, ss[1..])
      {
        assert ss[1..][j - 1] == ss[j];
      }
    }
  }

  lemma {:induction false} MergeAllSplit(key: Station -> string, merged: map<string, Station>, a: seq<Station>, b: seq<Station>)
    ensures MergeAll(key, merged, a + b) ==
      (var mid := MergeAll(key, merged, a); if !mid.Done? then mid else MergeAll(key, mid.value, b))
    decreases |a|
  {
    if a == [] {
      assert a + b == b;
    } else {
      assert (a + b)[0] == a[0] && (a + b)[1..] == a[1..] + b;
      var next := MergeStation(key, merged, a[0]);
      if next.Done? {
        MergeAllSplit(key, next.value, a[1..], b);
      }
    }
  }

  /** The granularities of product p seen at stations with key k. */
  function Seen(key: Station -> string, ss: seq<Station>, k: string, p: string): set<Granularity>
    decreases |ss|
  {
    if ss == [] then {}
    else (if key(ss[0]) == k then Elems(GranularitiesOf(ss[0].supportedProducts, p)) else {}) + Seen(key, ss[1..], k, p)
  }

  function Elems(gs: seq<Granularity>): set<Granularity> { set g | g in gs }

  predicate NoRepeats(gs: seq<Granularity>)
  {
    forall i, j :: 0 <= i < j < |gs| ==> gs[i] != gs[j]
  }

  /** Every stored list is free of repeats. */
  predicate ListsWithoutRepeats(merged: map<string, Station>)
  {
    forall k, p :: k in merged && p in merged[k].supportedProducts ==> NoRepeats(merged[k].supportedProducts[p])
  }

  /** The granularities stored under a key for a product, none when either is absent. */
  function StoredAt(merged: map<string, Station>, k: string, p: string): seq<Granularity>
  {
    if k in merged then GranularitiesOf(merged[k].supportedProducts, p) else []
  }

  /** Adding a single granularity to a list without repeats. */
  lemma AddOne(stored: seq<Granularity>, incoming: seq<Granularity>)
    requires NoRepeats(stored) && |incoming| == 1
    ensures var r := if incoming[0] in stored then stored else stored + incoming;
      NoRepeats(r) && Elems(r) == Elems(stored) + Elems(incoming)
  {
    var r := if incoming[0] in stored then stored else stored + incoming;
    assert Elems(incoming) == {incoming[0]};
    if incoming[0] !in stored {
      assert forall g :: g in r <==> g in stored || g == incoming[0];
    }
  }

  /** One merge step keeps the lists free of repeats and adds exactly the new station's granularities. */
  lemma MergeStationLists(key: Station -> string, merged: map<string, Station>, s: Station, k: string, p: string)
    requires ListsWithoutRepeats(merged) && SingleLists(s)
    requires MergeStation(key, merged, s).Done?
    ensures var m := MergeStation(key, merged, s).value;
      ListsWithoutRepeats(m)
      && Elems(StoredAt(m, k, p)) == Elems(StoredAt(merged, k, p))
        + (if key(s) == k then Elems(GranularitiesOf(s.supportedProducts, p)) else {})
  {
    var m := MergeStation(key, merged, s).value;
    var sk := key(s);
    if sk in merged {
      var stored := merged[sk].supportedProducts;
      var incoming := s.supportedProducts;
      forall q | q in incoming
        ensures NoRepeats(m[sk].supportedProducts[q])
        ensures Elems(GranularitiesOf(m[sk].supportedProducts, q)) == Elems(GranularitiesOf(stored, q)) + Elems(incoming[q])
      {
        AddOne(GranularitiesOf(stored, q), incoming[q]);
      }
      forall q | q !in incoming
        ensures GranularitiesOf(m[sk].supportedProducts, q) == GranularitiesOf(stored, q)
      {
      }
    } else {
      forall q | q in s.supportedProducts
        ensures NoRepeats(s.supportedProducts[q])
      {
      }
    }
  }

  /**
   * Merging stations that each carry single-granularity lists gives lists
   * without repeats, holding exactly the granularities seen at that location
   * for that product, on top of those stored before.
   */
  lemma {:induction false} MergeAllLists(key: Station -> string, merged: map<string, Station>, ss: seq<Station>, k: string, p: string)
    requires ListsWithoutRepeats(merged)
    requires forall s :: s in ss ==> SingleLists(s)
    requires MergeAll(key, merged, ss).Done?
    ensures ListsWithoutRepeats(MergeAll(key, merged, ss).value)
    ensures Elems(StoredAt(MergeAll(key, merged, ss).value, k, p)) == Elems(StoredAt(merged, k, p)) + Seen(key, ss, k, p)
    decreases |ss|
  {
    if ss != [] {
      MergeStationLists(key, merged, ss[0], k, p);
      var next := MergeStation(key, merged, ss[0]).value;
      assert forall s :: s in ss[1..] ==> s in ss;
      MergeAllLists(key, next, ss[1..], k, p);
    }
  }

  // ============================================================== handler

  /** One feature per merged station, in the map's visiting order (lines 83-86). */
  method ToFeatures(mergedStations: map<string, Station>) returns (features: seq<Feature>)
    ensures |features| == |mergedStations.Keys|
    ensures forall k :: k in mergedStations ==> ToFeature(mergedStations[k]) in features
    ensures forall f :: f in features ==> exists k :: k in mergedStations && f == ToFeature(mergedStations[k])
  {
    features := EachValue(mergedStations, ToFeature);
  }

  /** Visits the entries of `m` in some order and collects `f` of each value. */
  method EachValue<K, V, R>(m: map<K, V>, f: V -> R) returns (out: seq<R>)
    ensures Covers(m, f, m.Keys, out)
  {
    out := [];
    var left := m.Keys;
    ghost var visited: set<K> := {};
    while left != {}
      invariant left <= m.Keys && visited == m.Keys - left
      invariant Covers(m, f, visited, out)
      decreases left
    {
      var k :| k in left;
      CoversOneMore(m, f, visited, out, k);
      out := out + [f(m[k])];
      visited := visited + {k};
      left := left - {k};
    }
  }

  /** `out` holds `f` of the values under the keys visited so far, one per key. */
  ghost predicate Covers<K, V, R>(m: map<K, V>, f: V -> R, visited: set<K>, out: seq<R>)
  {
    && visited <= m.Keys
    && |out| == |visited|
    && (forall k :: k in visited ==> f(m[k]) in out)
    && (forall r :: r in out ==> exists k :: k in m && r == f(m[k]))
  }

  lemma CoversOneMore<K, V, R>(m: map<K, V>, f: V -> R, visited: set<K>, out: seq<R>, k: K)
    requires Covers(m, f, visited, out) && k in m && k !in visited
    ensures Covers(m, f, visited + {k}, out + [f(m[k])])
  {
    var more := out + [f(m[k])];
    assert forall r :: r in more ==> r in out || r == f(m[k]);
  }

  /** The stations the handler merges, or the discovery error. */
  function Discovered(order: seq<Granularity>, discover: Task -> Outcome<seq<Station>>): Outcome<seq<Station>>
  {
    Collect(discover, Tasks(order))
  }

  /** DiscoverAllStations, with the response reduced to its features or the error. */
  method DiscoverAllStations(order: seq<Granularity>, discover: Task -> Outcome<seq<Station>>, key: Station -> string)
    returns (outcome: Outcome<seq<Feature>>)
    ensures !Discovered(order, discover).Done? ==> outcome == Forward(Discovered(order, discover))
    ensures Discovered(order, discover).Done? ==> outcome.Done?
    ensures outcome.Done? ==> (
      && Discovered(order, discover).Done?
      && MergeAll(key, map[], Discovered(order, discover).value).Done?
      && var merged := MergeAll(key, map[], Discovered(order, discover).value).value;
        |outcome.value| == |merged.Keys|
        && (forall k :: k in merged ==> ToFeature(merged[k]) in outcome.value)
        && (forall f :: f in outcome.value ==> exists k :: k in merged && f == ToFeature(merged[k])))
  {
    var allStations := Discovered(order, discover);
    if !allStations.Done? {
      return Forward(allStations);
    }
    // the tagged stations of a successful discovery never reach the empty-list panic
    MergeOfCollected(order, discover, key, "", "");
    var merged := MergeStations(key, allStations.value);
    var features := ToFeatures(merged.value);
    return Done(features);
  }

  /**
   * With discovered stations tagged by their task, the merge never panics,
   * there is one feature per distinct location key, and each product's
   * granularities at a location are the ones discovered there, each once.
   */
  lemma MergeOfCollected(order: seq<Granularity>, discover: Task -> Outcome<seq<Station>>, key: Station -> string, k: string, p: string)
    requires Discovered(order, discover).Done?
    ensures MergeAll(key, map[], Discovered(order, discover).value).Done?
    ensures var ss := Discovered(order, discover).value; var merged := MergeAll(key, map[], ss).value;
      merged.Keys == Keys(key, ss)
      && (k in merged ==>
            NoRepeats(GranularitiesOf(merged[k].supportedProducts, p))
            && Elems(GranularitiesOf(merged[k].supportedProducts, p)) == Seen(key, ss, k, p))
  {
    var ss := Discovered(order, discover).value;
    CollectedAreTagged(discover, Tasks(order));
    MergeNeverPanics(key, map[], ss);
    MergeAllKeys(key, map[], ss);
    MergeAllLists(key, map[], ss, k, p);
  }

  /** The merge panics only on an empty list, and single-granularity lists have none. */
  lemma {:induction false} MergeNeverPanics(key: Station -> string, merged: map<string, Station>, ss: seq<Station>)
    requires forall s :: s in ss ==> SingleLists(s)
    ensures MergeAll(key, merged, ss).Done?
    decreases |ss|
  {
    if ss != [] {
      assert SingleLists(ss[0]);
      assert forall s :: s in ss[1..] ==> s in ss;
      MergeNeverPanics(key, MergeStation(key, merged, ss[0]).value, ss[1..]);
    }
  }
}
