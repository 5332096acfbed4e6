/** The admin dashboard of the browser client: the per-damage-type and
    per-day aggregates drawn as charts, the role toggle button and the
    payload of the notification form. */
module AdminDashboard {
  import opened Common
  import opened Ids
  import Users
  import Notifications

  /** One prediction as the ML service lists it, with the fields the charts
      read. `timestamp` and `createdAt` are None when missing. */
  datatype PredictionRow = PredictionRow(
    damage_type: string,
    timestamp: Option<string>,
    createdAt: Option<string>,
    estimated_cost: real,
    confidence: real)

  function DamageOf(p: PredictionRow): string { p.damage_type }

  function CostOf(p: PredictionRow): real { p.estimated_cost }

  function PercentOf(p: PredictionRow): real { p.confidence * 100.0 }

  /** `timestamp || createdAt`: the value the day of a prediction is taken from. */
  function DateSource(p: PredictionRow): Option<string> {
    if Present(p.timestamp) then p.timestamp else p.createdAt
  }

  /** The elements of `s` whose key is `k`, in order. */
  function Matching<T>(s: seq<T>, key: T -> string, k: string): seq<T>
    decreases |s|
  {
    if s == [] then []
    else
      var prev := Matching(s[..|s| - 1], key, k);
      if key(s[|s| - 1]) == k then prev + [s[|s| - 1]] else prev
  }

  /** The distinct keys of `s` in order of first occurrence: the order in
      which a JavaScript object receives them as properties. */
  function KeysInOrder<T>(s: seq<T>, key: T -> string): seq<string>
    decreases |s|
  {
    if s == [] then []
    else
      var prev := KeysInOrder(s[..|s| - 1], key);
      var k := key(s[|s| - 1]);
      if k in prev then prev else prev + [k]
  }

  /** Only elements of `s` with key `k` match `k`. */
  lemma {:induction false} MatchingMembers<T>(s: seq<T>, key: T -> string, k: string)
    ensures forall x :: x in Matching(s, key, k) ==> x in s && key(x) == k
    decreases |s|
  {
    if s != [] {
      MatchingMembers(s[..|s| - 1], key, k);
    }
  }

  /** The listed keys are distinct, and they are exactly the keys some
      element has. */
  lemma {:induction false} KeysInOrderFacts<T>(s: seq<T>, key: T -> string)
    ensures var r := KeysInOrder(s, key);
      && (forall i, j :: 0 <= i < j < |r| ==> r[i] != r[j])
      && (forall k :: k in r <==> Matching(s, key, k) != [])
    decreases |s|
  {
    if s != [] {
      var p := s[..|s| - 1];
      var x := s[|s| - 1];
      assert s == p + [x];
      KeysInOrderFacts(p, key);
      KeysInOrderSnoc(p, x, key);
      MatchingSnoc(p, x, key);
    }
  }

  lemma MatchingSnoc<T>(s: seq<T>, x: T, key: T -> string)
    ensures forall k :: Matching(s + [x], key, k) == Matching(s, key, k) + (if key(x) == k then [x] else [])
  {
    assert (s + [x])[..|s|] == s;
  }

  lemma KeysInOrderSnoc<T>(s: seq<T>, x: T, key: T -> string)
    ensures KeysInOrder(s + [x], key) ==
      (if key(x) in KeysInOrder(s, key) then KeysInOrder(s, key) else KeysInOrder(s, key) + [key(x)])
  {
    assert (s + [x])[..|s|] == s;
  }

  /** The sum of `w` over `s`. */
  function Total<T>(s: seq<T>, w: T -> real): real
    decreases |s|
  {
    if s == [] then 0.0 else Total(s[..|s| - 1], w) + w(s[|s| - 1])
  }

  lemma TotalSnoc<T>(s: seq<T>, x: T, w: T -> real)
    ensures Total(s + [x], w) == Total(s, w) + w(x)
  {
    assert (s + [x])[..|s|] == s;
  }

  /** The values of `w` over `s`, in order. */
  function Values<T>(s: seq<T>, w: T -> real): (r: seq<real>)
    ensures |r| == |s|
    decreases |s|
  {
    if s == [] then [] else Values(s[..|s| - 1], w) + [w(s[|s| - 1])]
  }

  lemma ValuesSnoc<T>(s: seq<T>, x: T, w: T -> real)
    ensures Values(s + [x], w) == Values(s, w) + [w(x)]
  {
    assert (s + [x])[..|s|] == s;
  }

  function Sum(xs: seq<real>): real
    decreases |xs|
  {
    if xs == [] then 0.0 else Sum(xs[..|xs| - 1]) + xs[|xs| - 1]
  }

  /** The arithmetic mean of a non-empty list. */
  function Mean(xs: seq<real>): real
    requires xs != []
  {
    Sum(xs) / (|xs| as real)
  }

  /** The three charts' data: the count per damage type, and the total cost
      and mean confidence (in percent) per day, each in order of first
      occurrence. */
  datatype Analytics = Analytics(
    distribution: seq<(string, nat)>,
    cost: seq<(string, real)>,
    confidence: seq<(string, real)>)

  /** What the charts should show for `data`, with `day` the day of a
      prediction. */
  function Distribution(data: seq<PredictionRow>): seq<(string, nat)> {
    var ks := KeysInOrder(data, DamageOf);
    seq(|ks|, j requires 0 <= j < |ks| => (ks[j], |Matching(data, DamageOf, ks[j])|))
  }

  function CostByDay(data: seq<PredictionRow>, day: PredictionRow -> string): seq<(string, real)> {
    var ks := KeysInOrder(data, day);
    seq(|ks|, j requires 0 <= j < |ks| => (ks[j], Total(Matching(data, day, ks[j]), CostOf)))
  }

  function ConfidenceByDay(data: seq<PredictionRow>, day: PredictionRow -> string): seq<(string, real)> {
    var ks := KeysInOrder(data, day);
    KeysInOrderFacts(data, day);
    seq(|ks|, j requires 0 <= j < |ks| => (ks[j], Mean(Values(Matching(data, day, ks[j]), PercentOf))))
  }

  /** The damage counters after a prefix `s`: the keys in insertion order and
      each key's count. */
  ghost predicate DamageCounted(s: seq<PredictionRow>, keys: seq<string>, counts: map<string, nat>) {
    && keys == KeysInOrder(s, DamageOf)
    && (forall k :: k in counts <==> k in keys)
    && (forall k :: k in counts ==> counts[k] == |Matching(s, DamageOf, k)|)
  }

  /** The per-day cost accumulator after a prefix `s`. */
  ghost predicate CostsAccumulated(s: seq<PredictionRow>, day: PredictionRow -> string, keys: seq<string>,
                                   costs: map<string, real>) {
    && keys == KeysInOrder(s, day)
    && (forall k :: k in costs <==> k in keys)
    && (forall k :: k in costs ==> costs[k] == Total(Matching(s, day, k), CostOf))
  }

  /** The per-day confidence lists after a prefix `s`. */
  ghost predicate PercentsCollected(s: seq<PredictionRow>, day: PredictionRow -> string, keys: seq<string>,
                                    percents: map<string, seq<real>>) {
    && keys == KeysInOrder(s, day)
    && (forall k :: k in percents <==> k in keys)
    && (forall k :: k in percents ==> percents[k] == Values(Matching(s, day, k), PercentOf))
  }

  lemma DamageStep(s: seq<PredictionRow>, x: PredictionRow, keys: seq<string>, counts: map<string, nat>)
    requires DamageCounted(s, keys, counts)
    ensures var d := x.damage_type;
      DamageCounted(s + [x],
                    if d in counts then keys else keys + [d],
                    if d in counts then counts[d := counts[d] + 1] else counts[d := 1])
  {
    MatchingSnoc(s, x, DamageOf);
    KeysInOrderSnoc(s, x, DamageOf);
    KeysInOrderFacts(s, DamageOf);
  }

  lemma CostStep(s: seq<PredictionRow>, x: PredictionRow, day: PredictionRow -> string, keys: seq<string>,
                 costs: map<string, real>, keys': seq<string>, costs': map<string, real>)
    requires CostsAccumulated(s, day, keys, costs)
    requires keys' == if day(x) in costs then keys else keys + [day(x)]
    requires costs' == if day(x) in costs then costs[day(x) := costs[day(x)] + x.estimated_cost]
                       else costs[day(x) := x.estimated_cost]
    ensures CostsAccumulated(s + [x], day, keys', costs')
  {
    var d := day(x);
    KeysInOrderSnoc(s, x, day);
    KeysInOrderFacts(s, day);
    assert keys' == KeysInOrder(s + [x], day);
    assert forall k :: k in costs' <==> k in keys';
    forall k | k in costs' ensures costs'[k] == Total(Matching(s + [x], day, k), CostOf) {
      MatchingSnoc(s, x, day);
      if k == d {
        TotalSnoc(Matching(s, day, d), x, CostOf);
        if d !in costs {
          assert Matching(s, day, d) == [];
        }
      } else {
        assert Matching(s + [x], day, k) == Matching(s, day, k);
      }
    }
    assert CostsAccumulated(s + [x], day, keys', costs');
  }

  lemma PercentStep(s: seq<PredictionRow>, x: PredictionRow, day: PredictionRow -> string, keys: seq<string>,
                    percents: map<string, seq<real>>, keys': seq<string>, percents': map<string, seq<real>>)
    requires PercentsCollected(s, day, keys, percents)
    requires keys' == if day(x) in percents then keys else keys + [day(x)]
    requires percents' == percents[day(x) := (if day(x) in percents then percents[day(x)] else []) + [PercentOf(x)]]
    ensures PercentsCollected(s + [x], day, keys', percents')
  {
    var d := day(x);
    KeysInOrderSnoc(s, x, day);
    KeysInOrderFacts(s, day);
    assert keys' == KeysInOrder(s + [x], day);
    assert forall k :: k in percents' <==> k in keys';
    forall k | k in percents' ensures percents'[k] == Values(Matching(s + [x], day, k), PercentOf) {
      MatchingSnoc(s, x, day);
      if k == d {
        ValuesSnoc(Matching(s, day, d), x, PercentOf);
        if d !in percents {
          assert Matching(s, day, d) == [];
        }
      } else {
        assert Matching(s + [x], day, k) == Matching(s, day, k);
      }
    }
    assert PercentsCollected(s + [x], day, keys', percents');
  }

  function DayOfRow(dayOf: Option<string> -> string): PredictionRow -> string {
    p => dayOf(DateSource(p))
  }

  /** Listing the counters' entries in key order gives the damage chart. */
  lemma DistributionFromCounters(data: seq<PredictionRow>, keys: seq<string>, counts: map<string, nat>)
    requires DamageCounted(data, keys, counts)
    ensures seq(|keys|, j requires 0 <= j < |keys| => (keys[j], counts[keys[j]])) == Distribution(data)
  {
  }

  lemma CostsFromAccumulator(data: seq<PredictionRow>, day: PredictionRow -> string, keys: seq<string>,
                             costs: map<string, real>)
    requires CostsAccumulated(data, day, keys, costs)
    ensures seq(|keys|, j requires 0 <= j < |keys| => (keys[j], costs[keys[j]])) == CostByDay(data, day)
  {
  }

  lemma MeansFromLists(data: seq<PredictionRow>, day: PredictionRow -> string, keys: seq<string>,
                       percents: map<string, seq<real>>)
    requires PercentsCollected(data, day, keys, percents)
    ensures forall j :: 0 <= j < |keys| ==> percents[keys[j]] != []
    ensures seq(|keys|, j requires 0 <= j < |keys| && percents[keys[j]] != [] => (keys[j], Mean(percents[keys[j]])))
            == ConfidenceByDay(data, day)
  {
    KeysInOrderFacts(data, day);
  }

  /** The body of the `forEach` callback is three updates, one per map;
      each adds its key on the key's first occurrence. This one counts the
      prediction's damage type. */
  method CountDamage(ghost s: seq<PredictionRow>, pred: PredictionRow,
                     damageKeys: seq<string>, damageMap: map<string, nat>)
    returns (damageKeys': seq<string>, damageMap': map<string, nat>)
    requires DamageCounted(s, damageKeys, damageMap)
    ensures DamageCounted(s + [pred], damageKeys', damageMap')
  {
    DamageStep(s, pred, damageKeys, damageMap);
    var damage := pred.damage_type;
    if damage in damageMap {
      damageKeys', damageMap' := damageKeys, damageMap[damage := damageMap[damage] + 1];
    } else {
      damageKeys', damageMap' := damageKeys + [damage], damageMap[damage := 1];
    }
  }

  /** Adds the prediction's cost to its day's total. */
  method AddCost(ghost s: seq<PredictionRow>, pred: PredictionRow, day: PredictionRow -> string,
                 dateKeys: seq<string>, costMap: map<string, real>)
    returns (dateKeys': seq<string>, costMap': map<string, real>)
    requires CostsAccumulated(s, day, dateKeys, costMap)
    ensures CostsAccumulated(s + [pred], day, dateKeys', costMap')
  {
    var date := day(pred);
    if date in costMap {
      dateKeys', costMap' := dateKeys, costMap[date := costMap[date] + pred.estimated_cost];
    } else {
      dateKeys', costMap' := dateKeys + [date], costMap[date := pred.estimated_cost];
    }
    CostStep(s, pred, day, dateKeys, costMap, dateKeys', costMap');
  }

  /** Appends the prediction's confidence, in percent, to its day's list. */
  method AddPercent(ghost s: seq<PredictionRow>, pred: PredictionRow, day: PredictionRow -> string,
                    dateKeys: seq<string>, confidenceMap: map<string, seq<real>>)
    returns (confidenceMap': map<string, seq<real>>)
    requires PercentsCollected(s, day, dateKeys, confidenceMap)
    ensures PercentsCollected(s + [pred], day, if day(pred) in confidenceMap then dateKeys else dateKeys + [day(pred)],
                              confidenceMap')
  {
    var date := day(pred);
    var values := if date in confidenceMap then confidenceMap[date] else [];
    confidenceMap' := confidenceMap[date := values + [pred.confidence * 100.0]];
    PercentStep(s, pred, day, dateKeys, confidenceMap,
                if date in confidenceMap then dateKeys else dateKeys + [date], confidenceMap');
  }

  /** `processAnalytics`: one pass over the predictions that counts damage
      types and accumulates each day's cost and confidences in maps, then lists
      the maps' entries. `dayOf` is the browser's local-date formatting of
      `new Date(v)` (None for undefined). */
  method ProcessAnalytics(data: seq<PredictionRow>, dayOf: Option<string> -> string) returns (a: Analytics)
    ensures a.distribution == Distribution(data)
    ensures a.cost == CostByDay(data, DayOfRow(dayOf))
    ensures a.confidence == ConfidenceByDay(data, DayOfRow(dayOf))
  {
    var day := DayOfRow(dayOf);
    var damageMap: map<string, nat> := map[];
    var damageKeys: seq<string> := [];
    var costMap: map<string, real> := map[];
    var confidenceMap: map<string, seq<real>> := map[];
    var dateKeys: seq<string> := [];
    assert DamageCounted(data[..0], damageKeys, damageMap);
    assert CostsAccumulated(data[..0], day, dateKeys, costMap);
    assert PercentsCollected(data[..0], day, dateKeys, confidenceMap);
    for i := 0 to |data|
      invariant DamageCounted(data[..i], damageKeys, damageMap)
      invariant CostsAccumulated(data[..i], day, dateKeys, costMap)
      invariant PercentsCollected(data[..i], day, dateKeys, confidenceMap)
    {
      assert data[..i + 1] == data[..i] + [data[i]];
      damageKeys, damageMap := CountDamage(data[..i], data[i], damageKeys, damageMap);
      confidenceMap := AddPercent(data[..i], data[i], day, dateKeys, confidenceMap);
      dateKeys, costMap := AddCost(data[..i], data[i], day, dateKeys, costMap);
    }
    assert data[..|data|] == data;
    DistributionFromCounters(data, damageKeys, damageMap);
    CostsFromAccumulator(data, day, dateKeys, costMap);
    MeansFromLists(data, day, dateKeys, confidenceMap);
    var dist := seq(|damageKeys|, j requires 0 <= j < |damageKeys| => (damageKeys[j], damageMap[damageKeys[j]]));
    var costs := seq(|dateKeys|, j requires 0 <= j < |dateKeys| => (dateKeys[j], costMap[dateKeys[j]]));
    var means := seq(|dateKeys|, j requires 0 <= j < |dateKeys| && confidenceMap[dateKeys[j]] != [] =>
                       (dateKeys[j], Mean(confidenceMap[dateKeys[j]])));
    a := Analytics(dist, costs, means);
  }

  /** The sum of each key's total over `keys`. */
  function SumByKey<T>(s: seq<T>, keys: seq<string>, key: T -> string, w: T -> real): real
    decreases |keys|
  {
    if keys == [] then 0.0 else Total(Matching(s, key, keys[0]), w) + SumByKey(s, keys[1..], key, w)
  }

  lemma {:induction false} SumByKeySnoc<T>(s: seq<T>, x: T, keys: seq<string>, key: T -> string, w: T -> real)
    requires forall i, j :: 0 <= i < j < |keys| ==> keys[i] != keys[j]
    ensures SumByKey(s + [x], keys, key, w) == SumByKey(s, keys, key, w) + (if key(x) in keys then w(x) else 0.0)
    decreases |keys|
  {
    MatchingSnoc(s, x, key);
    if keys != [] {
      SumByKeySnoc(s, x, keys[1..], key, w);
      TotalSnoc(Matching(s, key, keys[0]), x, w);
      assert key(x) in keys <==> key(x) == keys[0] || key(x) in keys[1..];
      assert key(x) == keys[0] ==> key(x) !in keys[1..];
    }
  }

  lemma {:induction false} SumByKeyAppend<T>(s: seq<T>, keys: seq<string>, k: string, key: T -> string, w: T -> real)
    ensures SumByKey(s, keys + [k], key, w) == SumByKey(s, keys, key, w) + Total(Matching(s, key, k), w)
    decreases |keys|
  {
    if keys == [] {
      assert ([] + [k])[1..] == [];
    } else {
      assert (keys + [k])[1..] == keys[1..] + [k];
      SumByKeyAppend(s, keys[1..], k, key, w);
    }
  }

  /** Splitting by key loses nothing: the per-key totals add up to the total
      over all elements. */
  lemma {:induction false} PerKeyTotalsAddUp<T>(s: seq<T>, key: T -> string, w: T -> real)
    ensures SumByKey(s, KeysInOrder(s, key), key, w) == Total(s, w)
    decreases |s|
  {
    if s != [] {
      var p := s[..|s| - 1];
      var x := s[|s| - 1];
      assert s == p + [x];
      PerKeyTotalsAddUp(p, key, w);
      KeysInOrderSnoc(p, x, key);
      TotalSnoc(p, x, w);
      var ks := KeysInOrder(p, key);
      KeysInOrderFacts(p, key);
      SumByKeySnoc(p, x, ks, key, w);
      if key(x) !in ks {
        SumByKeyAppend(s, ks, key(x), key, w);
        MatchingSnoc(p, x, key);
        assert Matching(p, key, key(x)) == [];
        assert Matching(s, key, key(x)) == [x];
        assert Total([x], w) == w(x) by { TotalSnoc([], x, w); }
      }
    }
  }

  function One(p: PredictionRow): real { 1.0 }

  lemma {:induction false} TotalOfOnes(s: seq<PredictionRow>)
    ensures Total(s, One) == |s| as real
    decreases |s|
  {
    if s != [] {
      TotalOfOnes(s[..|s| - 1]);
    }
  }

  function SumCounts(d: seq<(string, nat)>): nat
    decreases |d|
  {
    if d == [] then 0 else d[0].1 + SumCounts(d[1..])
  }

  lemma {:induction false} SumCountsIsSumByKey(data: seq<PredictionRow>, keys: seq<string>)
    ensures SumCounts(seq(|keys|, j requires 0 <= j < |keys| => (keys[j], |Matching(data, DamageOf, keys[j])|))) as real
            == SumByKey(data, keys, DamageOf, One)
    decreases |keys|
  {
    var d := seq(|keys|, j requires 0 <= j < |keys| => (keys[j], |Matching(data, DamageOf, keys[j])|));
    if keys != [] {
      var d' := seq(|keys[1..]|, j requires 0 <= j < |keys[1..]| => (keys[1..][j], |Matching(data, DamageOf, keys[1..][j])|));
      assert d[1..] == d';
      SumCountsIsSumByKey(data, keys[1..]);
      TotalOfOnes(Matching(data, DamageOf, keys[0]));
    }
  }

  /** The damage chart counts every prediction exactly once: its counts add
      up to the number of predictions, and it has one entry per distinct damage
      type. */
  lemma DistributionCountsAll(data: seq<PredictionRow>)
    ensures SumCounts(Distribution(data)) == |data|
    ensures forall i, j :: 0 <= i < j < |Distribution(data)| ==> Distribution(data)[i].0 != Distribution(data)[j].0
    ensures forall p :: p in data ==> exists i :: 0 <= i < |Distribution(data)| && Distribution(data)[i].0 == p.damage_type
  {
    var ks := KeysInOrder(data, DamageOf);
    KeysInOrderFacts(data, DamageOf);
    SumCountsIsSumByKey(data, ks);
    PerKeyTotalsAddUp(data, DamageOf, One);
    TotalOfOnes(data);
    forall p | p in data
      ensures exists i :: 0 <= i < |Distribution(data)| && Distribution(data)[i].0 == p.damage_type
    {
      if p.damage_type !in ks {
        var i :| 0 <= i < |data| && data[i] == p;
        MatchingHas(data, DamageOf, i);
      }
      var i :| 0 <= i < |ks| && ks[i] == p.damage_type;
      assert Distribution(data)[i].0 == p.damage_type;
    }
  }

  lemma {:induction false} MatchingHas<T>(s: seq<T>, key: T -> string, i: nat)
    requires i < |s|
    ensures s[i] in Matching(s, key, key(s[i]))
    decreases |s|
  {
    var p := s[..|s| - 1];
    if i < |s| - 1 {
      MatchingHas(p, key, i);
      assert p[i] == s[i];
    }
  }

  function SumCosts(d: seq<(string, real)>): real
    decreases |d|
  {
    if d == [] then 0.0 else d[0].1 + SumCosts(d[1..])
  }

  lemma {:induction false} SumCostsIsSumByKey(data: seq<PredictionRow>, keys: seq<string>, day: PredictionRow -> string)
    ensures SumCosts(seq(|keys|, j requires 0 <= j < |keys| => (keys[j], Total(Matching(data, day, keys[j]), CostOf))))
            == SumByKey(data, keys, day, CostOf)
    decreases |keys|
  {
    var d := seq(|keys|, j requires 0 <= j < |keys| => (keys[j], Total(Matching(data, day, keys[j]), CostOf)));
    if keys != [] {
      var d' := seq(|keys[1..]|, j requires 0 <= j < |keys[1..]| => (keys[1..][j], Total(Matching(data, day, keys[1..][j]), CostOf)));
      assert d[1..] == d';
      SumCostsIsSumByKey(data, keys[1..], day);
    }
  }

  /** The daily costs add up to the total estimated cost of all predictions,
      whatever the day of each one is. */
  lemma DailyCostsAddUp(data: seq<PredictionRow>, day: PredictionRow -> string)
    ensures SumCosts(CostByDay(data, day)) == Total(data, CostOf)
  {
    SumCostsIsSumByKey(data, KeysInOrder(data, day), day);
    PerKeyTotalsAddUp(data, day, CostOf);
  }

  lemma {:induction false} SumBounds(xs: seq<real>, lo: real, hi: real)
    requires forall i :: 0 <= i < |xs| ==> lo <= xs[i] <= hi
    ensures (|xs| as real) * lo <= Sum(xs) <= (|xs| as real) * hi
    decreases |xs|
  {
    if xs != [] {
      SumBounds(xs[..|xs| - 1], lo, hi);
    }
  }

  lemma {:induction false} ValuesIn(s: seq<PredictionRow>, i: nat)
    requires i < |s|
    ensures Values(s, PercentOf)[i] == PercentOf(s[i])
    decreases |s|
  {
    if i < |s| - 1 {
      ValuesIn(s[..|s| - 1], i);
    }
  }

  /** When every confidence lies in [0, 1], every daily mean lies in [0, 100]. */
  lemma DailyConfidenceInPercentRange(data: seq<PredictionRow>, day: PredictionRow -> string, j: nat)
    requires forall p :: p in data ==> 0.0 <= p.confidence <= 1.0
    requires j < |ConfidenceByDay(data, day)|
    ensures 0.0 <= ConfidenceByDay(data, day)[j].1 <= 100.0
  {
    var ks := KeysInOrder(data, day);
    KeysInOrderFacts(data, day);
    var ms := Matching(data, day, ks[j]);
    MatchingMembers(data, day, ks[j]);
    var vs := Values(ms, PercentOf);
    forall i | 0 <= i < |vs| ensures 0.0 <= vs[i] <= 100.0 {
      ValuesIn(ms, i);
      assert ms[i] in ms;
    }
    SumBounds(vs, 0.0, 100.0);
    var n := |vs| as real;
    assert n > 0.0;
    assert 0.0 <= Sum(vs) / n <= 100.0 by {
      assert Sum(vs) <= n * 100.0;
    }
  }

  /** The role button: an admin is offered "user", anyone else "admin". */
  function ToggledRole(role: string): (r: string)
    ensures Users.ValidRole(r)
    ensures r == "user" <==> role == "admin"
  {
    if role == "admin" then "user" else "admin"
  }

  /** The toggle is its own inverse on the two valid roles, and the server
      never refuses the role it sends as invalid. */
  lemma ToggleRoleRoundTrip(role: string, accounts: seq<Users.Account>, id: string)
    requires Users.ValidRole(role)
    ensures ToggledRole(ToggledRole(role)) == role && ToggledRole(role) != role
    ensures Users.UpdateRole(accounts, id, Some(ToggledRole(role))).0 != 400
  {
  }

  /** The notification form's payload: an empty target selection is sent as
      null, i.e. a notification for everyone. */
  datatype Payload = Payload(title: string, message: string, userId: Option<string>)

  function NotificationPayload(title: string, message: string, target: string): (p: Payload)
    ensures p.title == title && p.message == message
    ensures p.userId.None? <==> target == ""
    ensures p.userId.Some? ==> p.userId.value == target
  {
    Payload(title, message, if target == "" then None else Some(target))
  }

  /** With no target chosen the notification router stores a broadcast, and
      with a target it stores that user; the admin controller, which serves
      the path the form posts to, stores a broadcast either way. */
  lemma PayloadTargets(title: string, message: string, target: string, id: ObjectId, now: int)
    requires title != "" && message != ""
    ensures var p := NotificationPayload(title, message, target);
      var routed := Notifications.RouterCreate(Some(p.title), Some(p.message), p.userId, id, now);
      var handled := Notifications.ControllerCreate(Some(p.title), Some(p.message), p.userId, id, now);
      && (target == "" ==> routed.Some? && routed.value.target.None?)
      && (IsObjectIdText(target) ==> routed.Some? && routed.value.target == CastObjectId(target))
      && handled.Some? && handled.value.target.None?
  {
  }
}
