/** Route snapshots and weighted candidate order (internal/router/router.go). */
module Routing {
  import opened Folds

  datatype Provider = Provider(code: string, modelCode: string, protocol: string, priority: int, weight: int)

  datatype Candidate = Candidate(code: string, modelCode: string, protocol: string, priority: int, weight: int)

  datatype ModelRoutes = ModelRoutes(model: string, providers: seq<Provider>)

  datatype Routes = Routes(version: string, models: seq<ModelRoutes>)

  /** A weight that is not positive counts as 1. */
  function ToCandidate(p: Provider): Candidate {
    Candidate(p.code, p.modelCode, p.protocol, p.priority, if p.weight <= 0 then 1 else p.weight)
  }

  function Candidates(ps: seq<Provider>): seq<Candidate> {
    seq(|ps|, k requires 0 <= k < |ps| => ToCandidate(ps[k]))
  }

  predicate Weighted(cs: seq<Candidate>) {
    forall k :: 0 <= k < |cs| ==> cs[k].weight > 0
  }

  // ---- Weighted order without replacement ---------------------------------------------------

  function Sum(cs: seq<Candidate>): int {
    if cs == [] then 0 else Sum(cs[..|cs| - 1]) + cs[|cs| - 1].weight
  }

  lemma {:induction false} SumPositive(cs: seq<Candidate>, k: nat)
    requires Weighted(cs) && k <= |cs|
    ensures 0 <= Sum(cs[..k]) <= Sum(cs)
            && (k < |cs| ==> Sum(cs[..k]) < Sum(cs) && Sum(cs[..k + 1]) == Sum(cs[..k]) + cs[k].weight)
    decreases |cs|
  {
    if k < |cs| {
      assert cs[..k + 1][..k] == cs[..k];
    }
    if k == |cs| {
      assert cs[..k] == cs;
      if k > 0 {
        SumPositive(cs[..k - 1], k - 1);
        assert cs[..k - 1][..k - 1] == cs[..k - 1];
      }
    } else {
      var shorter := cs[..|cs| - 1];
      assert shorter[..k] == cs[..k];
      SumPositive(shorter, k);
    }
  }

  /** The candidate a draw selects: the one whose stretch of the running sum contains it. */
  function Pick(cs: seq<Candidate>, draw: int): (i: nat)
    requires Weighted(cs) && 0 <= draw < Sum(cs)
    ensures i < |cs| && Sum(cs[..i]) <= draw < Sum(cs[..i + 1])
  {
    var n := |cs| - 1;
    if draw >= Sum(cs[..n]) then (assert cs[..n + 1] == cs; n)
    else
      var i := Pick(cs[..n], draw);
      assert cs[..n][..i] == cs[..i] && cs[..n][..i + 1] == cs[..i + 1];
      i
  }

  lemma {:induction false} SumMonotone(cs: seq<Candidate>, i: nat, j: nat)
    requires Weighted(cs) && i <= j <= |cs|
    ensures Sum(cs[..i]) <= Sum(cs[..j])
    decreases j - i
  {
    if i < j {
      SumPositive(cs, i);
      SumMonotone(cs, i + 1, j);
    }
  }

  /** The draws that select candidate i are exactly an interval of weight_i values. */
  lemma {:induction false} PickInterval(cs: seq<Candidate>, i: nat)
    requires Weighted(cs) && i < |cs|
    ensures 0 <= Sum(cs[..i]) && Sum(cs[..i + 1]) <= Sum(cs) && Sum(cs[..i + 1]) - Sum(cs[..i]) == cs[i].weight
    ensures forall d :: 0 <= d < Sum(cs) ==> (Pick(cs, d) == i <==> Sum(cs[..i]) <= d < Sum(cs[..i + 1]))
  {
    hide Sum, Weighted;
    SumPositive(cs, i);
    SumPositive(cs, i + 1);
    forall d | 0 <= d < Sum(cs)
      ensures Pick(cs, d) == i <==> Sum(cs[..i]) <= d < Sum(cs[..i + 1])
    {
      PickOnly(cs, i, d);
    }
  }

  lemma PickOnly(cs: seq<Candidate>, i: nat, d: int)
    requires Weighted(cs) && i < |cs| && 0 <= d < Sum(cs)
    ensures Pick(cs, d) == i <==> Sum(cs[..i]) <= d < Sum(cs[..i + 1])
  {
    hide Sum, Weighted;
    var p := Pick(cs, d);
    if p < i {
      SumMonotone(cs, p + 1, i);
    } else if p > i {
      SumMonotone(cs, i + 1, p);
    }
  }

  function Without(cs: seq<Candidate>, i: nat): seq<Candidate>
    requires i < |cs|
  {
    cs[..i] + cs[i + 1..]
  }

  /** One draw per round, each in the range rand.IntN promises for what remains. */
  predicate InRange(cs: seq<Candidate>, draws: seq<nat>)
    decreases |cs|
  {
    Weighted(cs) && |draws| == |cs| &&
    (cs != [] ==> draws[0] < Sum(cs) && InRange(Without(cs, Pick(cs, draws[0])), draws[1..]))
  }

  function Order(cs: seq<Candidate>, draws: seq<nat>): seq<Candidate>
    requires InRange(cs, draws)
    decreases |cs|
  {
    if cs == [] then []
    else
      var i := Pick(cs, draws[0]);
      [cs[i]] + Order(Without(cs, i), draws[1..])
  }

  lemma Removed(cs: seq<Candidate>, i: nat)
    requires i < |cs|
    ensures multiset(cs) == multiset{cs[i]} + multiset(Without(cs, i))
    ensures Weighted(cs) ==> Weighted(Without(cs, i))
  {
    assert cs == cs[..i] + [cs[i]] + cs[i + 1..];
  }

  lemma {:induction false} OrderPermutes(cs: seq<Candidate>, draws: seq<nat>)
    requires InRange(cs, draws)
    ensures multiset(Order(cs, draws)) == multiset(cs)
    decreases |cs|
  {
    if cs != [] {
      var i := Pick(cs, draws[0]);
      Removed(cs, i);
      OrderPermutes(Without(cs, i), draws[1..]);
    }
  }

  lemma Cancel(c: Candidate, a: multiset<Candidate>, b: multiset<Candidate>)
    requires multiset{c} + a == multiset{c} + b
    ensures a == b
  {
    forall x ensures a[x] == b[x] {
      assert (multiset{c} + a)[x] == (multiset{c} + b)[x];
    }
  }

  /** Conversely every permutation of the tier comes out for some draws. */
  lemma {:induction false} EveryOrderPossible(cs: seq<Candidate>, out: seq<Candidate>) returns (draws: seq<nat>)
    requires Weighted(cs) && multiset(out) == multiset(cs)
    ensures InRange(cs, draws) && Order(cs, draws) == out
    decreases |cs|
  {
    assert |out| == |multiset(out)| == |cs|;
    if cs == [] {
      draws := [];
    } else {
      assert out[0] in multiset(cs);
      var i :| 0 <= i < |cs| && cs[i] == out[0];
      Removed(cs, i);
      assert out == [out[0]] + out[1..];
      Cancel(out[0], multiset(out[1..]), multiset(Without(cs, i)));
      var rest := EveryOrderPossible(Without(cs, i), out[1..]);
      PickInterval(cs, i);
      var first: nat := Sum(cs[..i]);
      draws := [first] + rest;
      assert draws[1..] == rest && Pick(cs, first) == i;
    }
  }

  /** Removes index idx from the first n elements by shifting the rest down, as append does. */
  method RemoveInPlace(rem: array<Candidate>, n: nat, idx: nat)
    requires idx < n <= rem.Length
    modifies rem
    ensures rem[..n - 1] == Without(old(rem[..n]), idx)
  {
    var j := idx;
    while j + 1 < n
      invariant idx <= j < n
      invariant forall k :: 0 <= k < idx ==> rem[k] == old(rem[k])
      invariant forall k :: idx <= k < j ==> rem[k] == old(rem[k + 1])
      invariant forall k :: j < k < n ==> rem[k] == old(rem[k])
    {
      rem[j] := rem[j + 1];
      j := j + 1;
    }
  }

  /** The index a draw selects; the walk always stops inside the sequence. */
  method Walk(rem: seq<Candidate>, draw: nat) returns (idx: nat)
    requires Weighted(rem) && draw < Sum(rem)
    ensures idx == Pick(rem, draw)
  {
    var pick: int := draw;
    idx := 0;
    var found := false;
    for i := 0 to |rem|
      invariant !found && pick == draw - Sum(rem[..i]) && pick >= 0
    {
      SumPositive(rem, i);
      pick := pick - rem[i].weight;
      if pick < 0 {
        idx := i;
        found := true;
        PickInterval(rem, i);
        break;
      }
    }
    assert found by {
      assert rem[..|rem|] == rem;
    }
  }

  /** One round: a draw over the n remaining candidates takes one of them out. */
  method DrawOne(rem: array<Candidate>, n: nat, draw: nat) returns (chosen: Candidate)
    requires n <= rem.Length && Weighted(rem[..n]) && draw < Sum(rem[..n])
    modifies rem
    ensures var i := Pick(old(rem[..n]), draw); chosen == old(rem[..n])[i] && rem[..n - 1] == Without(old(rem[..n]), i)
  {
    var idx := Walk(rem[..n], draw);
    chosen := rem[idx];
    RemoveInPlace(rem, n, idx);
  }

  lemma OrderStep(out: seq<Candidate>, live: seq<Candidate>, left: seq<nat>)
    requires InRange(live, left) && live != []
    ensures |left| == |live| && Weighted(live) && left[0] < Sum(live)
    ensures var i := Pick(live, left[0]);
            InRange(Without(live, i), left[1..])
                && out + Order(live, left) == (out + [live[i]]) + Order(Without(live, i), left[1..])
  {
  }

  method DrawAll(rem: array<Candidate>, draws: seq<nat>) returns (out: seq<Candidate>)
    requires InRange(rem[..], draws)
    modifies rem
    ensures out == Order(old(rem[..]), draws)
  {
    assert |draws| == rem.Length;
    hide Order, InRange, Pick, Sum, Without, Weighted;
    var n := rem.Length;
    ghost var all, live, left := rem[..], rem[..], draws;
    out := [];
    var round := 0;
    while n > 0
      invariant 0 <= n <= rem.Length && round == rem.Length - n && |draws| == rem.Length
      invariant rem[..n] == live && left == draws[round..] && InRange(live, left)
      invariant out + Order(live, left) == Order(all, draws)
    {
      OrderStep(out, live, left);
      ghost var i := Pick(live, left[0]);
      ghost var after := Without(live, i);
      assert draws[round] == left[0] && left[1..] == draws[round + 1..];
      var chosen := DrawOne(rem, n, draws[round]);
      assert chosen == live[i] && rem[..n - 1] == after;
      live, left := after, left[1..];
      out := out + [chosen];
      n, round := n - 1, round + 1;
    }
    OrderEmpty(live, left);
  }

  lemma OrderEmpty(live: seq<Candidate>, left: seq<nat>)
    requires live == [] && InRange(live, left)
    ensures Order(live, left) == []
  {
  }

  /** Works on a copy of the tier: nothing of the shared snapshot is modified. */
  method WeightedOrder(tier: array<Candidate>, draws: seq<nat>) returns (out: seq<Candidate>)
    requires InRange(tier[..], draws)
    ensures out == Order(tier[..], draws) && multiset(out) == multiset(tier[..])
  {
    OrderPermutes(tier[..], draws);
    if tier.Length == 1 {
      assert tier[..] == [tier[0]] && Without(tier[..], 0) == [];
      return [tier[0]];
    }
    var rem := new Candidate[tier.Length](k requires 0 <= k < tier.Length reads tier => tier[k]);
    assert rem[..] == tier[..];
    out := DrawAll(rem, draws);
  }

  // ---- Tiers --------------------------------------------------------------------------------

  /** The candidates of one priority, in the order the control plane listed them. */
  function Select(cs: seq<Candidate>, priority: int): seq<Candidate> {
    if cs == [] then []
    else
      var c := cs[|cs| - 1];
      Select(cs[..|cs| - 1], priority) + if c.priority == priority then [c] else []
  }

  predicate Ascending(ps: seq<int>) {
    forall i, j :: 0 <= i < j < |ps| ==> ps[i] < ps[j]
  }

  /** One tier per priority in use, lowest priority value first. */
  predicate WellTiered(tiers: seq<seq<Candidate>>, cs: seq<Candidate>, ps: seq<int>) {
    && |tiers| == |ps| && Ascending(ps)
    && (forall k :: 0 <= k < |cs| ==> cs[k].priority in ps)
    && (forall t :: 0 <= t < |ps| ==> tiers[t] == Select(cs, ps[t]))
  }

  /** Draws for every tier. */
  predicate AllInRange(tiers: seq<seq<Candidate>>, draws: seq<seq<nat>>) {
    |draws| == |tiers| && forall t :: 0 <= t < |tiers| ==> InRange(tiers[t], draws[t])
  }

  function OrderAll(tiers: seq<seq<Candidate>>, draws: seq<seq<nat>>): seq<Candidate>
    requires AllInRange(tiers, draws)
  {
    if tiers == [] then []
    else
      var n := |tiers| - 1;
      OrderAll(tiers[..n], draws[..n]) + Order(tiers[n], draws[n])
  }

  lemma {:induction false} SelectTimes(cs: seq<Candidate>, p: int, c: Candidate)
    ensures Times(Select(cs, p), c) == if c.priority == p then Times(cs, c) else 0
    decreases |cs|
  {
    if cs != [] {
      var front, last := cs[..|cs| - 1], cs[|cs| - 1];
      SelectTimes(front, p, c);
      TimesSnoc(front, last, c);
      TimesSnoc(Select(front, p), last, c);
      assert cs == front + [last];
      assert Select(front, p) + [] == Select(front, p);
    }
  }

  lemma OrderTimes(cs: seq<Candidate>, draws: seq<nat>, c: Candidate)
    requires InRange(cs, draws)
    ensures Times(Order(cs, draws), c) == Times(cs, c)
  {
    OrderPermutes(cs, draws);
    TimesIsMultiplicity(Order(cs, draws), c);
    TimesIsMultiplicity(cs, c);
  }

  lemma TimesNone(c: Candidate)
    ensures Times([], c) == 0
  {
  }

  lemma {:induction false} OrderAllTimes(tiers: seq<seq<Candidate>>, draws: seq<seq<nat>>, cs: seq<Candidate>,
                                         ps: seq<int>, c: Candidate)
    requires AllInRange(tiers, draws) && |tiers| == |ps| && Ascending(ps)
    requires forall t :: 0 <= t < |ps| ==> tiers[t] == Select(cs, ps[t])
    ensures Times(OrderAll(tiers, draws), c) == if c.priority in ps then Times(cs, c) else 0
    decreases |tiers|
  {
    hide Order, Select, Pick, Sum, Times;
    if tiers == [] {
      TimesNone(c);
    } else {
      var n := |tiers| - 1;
      OrderAllTimes(tiers[..n], draws[..n], cs, ps[..n], c);
      OrderTimes(tiers[n], draws[n], c);
      SelectTimes(cs, ps[n], c);
      TimesConcat(OrderAll(tiers[..n], draws[..n]), Order(tiers[n], draws[n]), c);
      assert ps == ps[..n] + [ps[n]];
    }
  }

  lemma {:induction false} SelectPriority(cs: seq<Candidate>, p: int)
    ensures forall k :: 0 <= k < |Select(cs, p)| ==> Select(cs, p)[k].priority == p
    decreases |cs|
  {
    if cs != [] {
      SelectPriority(cs[..|cs| - 1], p);
    }
  }

  lemma OrderPriority(cs: seq<Candidate>, draws: seq<nat>, p: int)
    requires InRange(cs, draws) && forall k :: 0 <= k < |cs| ==> cs[k].priority == p
    ensures forall k :: 0 <= k < |Order(cs, draws)| ==> Order(cs, draws)[k].priority == p
  {
    OrderPermutes(cs, draws);
    forall k | 0 <= k < |Order(cs, draws)| ensures Order(cs, draws)[k].priority == p {
      assert Order(cs, draws)[k] in multiset(cs);
    }
  }

  predicate SortedByPriority(cs: seq<Candidate>) {
    forall i, j :: 0 <= i < j < |cs| ==> cs[i].priority <= cs[j].priority
  }

  lemma {:induction false} OrderAllSorted(tiers: seq<seq<Candidate>>, draws: seq<seq<nat>>, cs: seq<Candidate>,
                                          ps: seq<int>)
    requires AllInRange(tiers, draws) && |tiers| == |ps| && Ascending(ps)
    requires forall t :: 0 <= t < |ps| ==> tiers[t] == Select(cs, ps[t])
    ensures SortedByPriority(OrderAll(tiers, draws))
    ensures ps != [] ==> forall k :: 0 <= k < |OrderAll(tiers, draws)| ==>
            OrderAll(tiers, draws)[k].priority <= ps[|ps| - 1]
    decreases |tiers|
  {
    if tiers != [] {
      var n := |tiers| - 1;
      OrderAllSorted(tiers[..n], draws[..n], cs, ps[..n]);
      SelectPriority(cs, ps[n]);
      OrderPriority(tiers[n], draws[n], ps[n]);
    }
  }

  /** For every model and whatever the draws: the attempts are a permutation of its providers (with
      their effective weights), sorted by priority. */
  lemma {:induction false} AttemptsArePermutation(tiers: seq<seq<Candidate>>, draws: seq<seq<nat>>, cs: seq<Candidate>,
                                                  ps: seq<int>)
    requires WellTiered(tiers, cs, ps) && AllInRange(tiers, draws)
    ensures multiset(OrderAll(tiers, draws)) == multiset(cs)
    ensures SortedByPriority(OrderAll(tiers, draws))
  {
    OrderAllSorted(tiers, draws, cs, ps);
    forall c ensures multiset(OrderAll(tiers, draws))[c] == multiset(cs)[c] {
      OrderAllTimes(tiers, draws, cs, ps, c);
      TimesIsMultiplicity(OrderAll(tiers, draws), c);
      TimesIsMultiplicity(cs, c);
    }
  }

  /** The candidate that stands for a provider, field by field; a weight that is not positive counts as 1. */
  predicate StandsFor(c: Candidate, p: Provider) {
    && c.code == p.code && c.modelCode == p.modelCode && c.protocol == p.protocol && c.priority == p.priority
    && (p.weight > 0 ==> c.weight == p.weight) && (p.weight <= 0 ==> c.weight == 1)
  }

  /** Every provider is tried, and nothing else, as often as the table names it. */
  ghost predicate Tries(out: seq<Candidate>, ps: seq<Provider>) {
    && |out| == |ps|
    && (forall k :: 0 <= k < |out| ==> exists j :: 0 <= j < |ps| && StandsFor(out[k], ps[j]))
    && (forall j :: 0 <= j < |ps| ==> exists k :: 0 <= k < |out| && StandsFor(out[k], ps[j]))
  }

  lemma PermutationTries(out: seq<Candidate>, ps: seq<Provider>)
    requires multiset(out) == multiset(Candidates(ps))
    ensures Tries(out, ps)
  {
    var cs := Candidates(ps);
    assert |multiset(out)| == |multiset(cs)|;
    forall k | 0 <= k < |out| ensures exists j :: 0 <= j < |ps| && StandsFor(out[k], ps[j]) {
      assert out[k] in multiset(out) && out[k] in cs;
      var j :| 0 <= j < |cs| && cs[j] == out[k];
      assert StandsFor(out[k], ps[j]);
    }
    forall j | 0 <= j < |ps| ensures exists k :: 0 <= k < |out| && StandsFor(out[k], ps[j]) {
      assert cs[j] in multiset(cs) && cs[j] in out;
      var k :| 0 <= k < |out| && out[k] == cs[j];
      assert StandsFor(out[k], ps[j]);
    }
  }

  // ---- Loading ------------------------------------------------------------------------------

  function Insert(s: seq<int>, x: int): seq<int> {
    if s == [] || s[|s| - 1] < x then s + [x] else Insert(s[..|s| - 1], x) + [s[|s| - 1]]
  }

  lemma {:induction false} InsertSorts(s: seq<int>, x: int)
    requires Ascending(s) && x !in s
    ensures Ascending(Insert(s, x)) && forall y :: y in Insert(s, x) <==> y in s || y == x
    decreases |s|
  {
    if s != [] && s[|s| - 1] >= x {
      var front, last := s[..|s| - 1], s[|s| - 1];
      assert s == front + [last];
      InsertSorts(front, x);
      var r := Insert(front, x);
      forall i | 0 <= i < |r| ensures r[i] < last {
        assert r[i] in r;
      }
    }
  }

  predicate Distinct(ks: seq<int>) {
    forall i, j :: 0 <= i < j < |ks| ==> ks[i] != ks[j]
  }

  /** The priorities in use, ascending, from whatever order the map lists them in. */
  method SortInts(keys: seq<int>) returns (ps: seq<int>)
    requires Distinct(keys)
    ensures Ascending(ps) && forall p :: p in ps <==> p in keys
  {
    ps := [];
    for k := 0 to |keys|
      invariant Ascending(ps) && (forall p :: p in ps <==> p in keys[..k])
    {
      assert keys[..k + 1] == keys[..k] + [keys[k]];
      InsertSorts(ps, keys[k]);
      ps := Insert(ps, keys[k]);
    }
    assert keys[..|keys|] == keys;
  }

  lemma SelectSnoc(cs: seq<Candidate>, c: Candidate, p: int)
    ensures Select(cs + [c], p) == Select(cs, p) + if c.priority == p then [c] else []
  {
    assert (cs + [c])[..|cs|] == cs;
  }

  ghost predicate Grouped(byPrio: map<int, seq<Candidate>>, cs: seq<Candidate>) {
    forall p :: if p in byPrio then byPrio[p] == Select(cs, p) else Select(cs, p) == []
  }

  lemma GroupedNone()
    ensures Grouped(map[], Candidates([]))
  {
  }

  lemma GroupOneMore(byPrio: map<int, seq<Candidate>>, cs: seq<Candidate>, c: Candidate)
    requires Grouped(byPrio, cs)
    ensures Grouped(byPrio[c.priority := (if c.priority in byPrio then byPrio[c.priority] else []) + [c]], cs + [c])
  {
    hide Select;
    forall p ensures Select(cs + [c], p) == Select(cs, p) + if c.priority == p then [c] else [] {
      SelectSnoc(cs, c, p);
    }
  }

  /** Groups the providers of a model by priority. */
  method GroupByPriority(ps: seq<Provider>) returns (byPrio: map<int, seq<Candidate>>, keys: seq<int>)
    ensures forall k :: 0 <= k < |ps| ==> ps[k].priority in byPrio
    ensures Distinct(keys) && forall p :: p in keys <==> p in byPrio
    ensures Grouped(byPrio, Candidates(ps))
  {
    hide Grouped, Select;
    byPrio, keys := map[], [];
    GroupedNone();
    for k := 0 to |ps|
      invariant Distinct(keys) && forall p :: p in keys <==> p in byPrio
      invariant forall j :: 0 <= j < k ==> ps[j].priority in byPrio
      invariant Grouped(byPrio, Candidates(ps[..k]))
    {
      var p, c := ps[k].priority, ToCandidate(ps[k]);
      GroupOneMore(byPrio, Candidates(ps[..k]), c);
      assert Candidates(ps[..k + 1]) == Candidates(ps[..k]) + [c];
      assert forall q :: q in keys + [p] <==> q in keys || q == p;
      if p !in byPrio {
        keys := keys + [p];
      }
      byPrio := byPrio[p := (if p in byPrio then byPrio[p] else []) + [c]];
    }
    assert ps[..|ps|] == ps;
  }

  ghost function Values(ts: seq<array<Candidate>>): (vs: seq<seq<Candidate>>)
    reads ts
    ensures |vs| == |ts| && forall t :: 0 <= t < |ts| ==> vs[t] == ts[t][..]
  {
    if ts == [] then [] else [ts[0][..]] + Values(ts[1..])
  }

  /** The providers a model is routed to: the last entry of the table with its code. */
  function ProvidersOf(ms: seq<ModelRoutes>, model: string): Option<seq<Provider>> {
    if ms == [] then None
    else if ms[|ms| - 1].model == model then Some(ms[|ms| - 1].providers)
    else ProvidersOf(ms[..|ms| - 1], model)
  }

  ghost predicate TiersFor(ts: seq<array<Candidate>>, ps: seq<Provider>)
    reads ts
  {
    exists prios: seq<int> :: WellTiered(Values(ts), Candidates(ps), prios)
  }

  method BuildTiers(ps: seq<Provider>) returns (ts: seq<array<Candidate>>)
    ensures TiersFor(ts, ps) && forall t :: 0 <= t < |ts| ==> fresh(ts[t])
  {
    hide Grouped, Select, Candidates, Ascending, WellTiered;
    var byPrio, keys := GroupByPriority(ps);
    var prios := SortInts(keys);
    ts := [];
    forall t | 0 <= t < |prios| ensures prios[t] in byPrio {
      assert prios[t] in prios;
    }
    for k := 0 to |prios|
      invariant |ts| == k && forall t :: 0 <= t < k ==> fresh(ts[t]) && ts[t][..] == byPrio[prios[t]]
    {
      assert prios[k] in prios;
      var cs := byPrio[prios[k]];
      var tier := new Candidate[|cs|](i requires 0 <= i < |cs| => cs[i]);
      assert tier[..] == cs;
      ts := ts + [tier];
    }
    GroupsAreTiers(byPrio, prios, ps, Values(ts));
  }

  lemma GroupsAreTiers(byPrio: map<int, seq<Candidate>>, prios: seq<int>, ps: seq<Provider>, vs: seq<seq<Candidate>>)
    requires Grouped(byPrio, Candidates(ps)) && Ascending(prios) && (forall p :: p in prios <==> p in byPrio)
    requires forall k :: 0 <= k < |ps| ==> ps[k].priority in byPrio
    requires |vs| == |prios| && forall t :: 0 <= t < |vs| ==> prios[t] in byPrio && vs[t] == byPrio[prios[t]]
    ensures WellTiered(vs, Candidates(ps), prios)
  {
    hide Select, Ascending;
  }

  /** A loaded table: per model, one array of candidates per tier. Never modified once built. */
  class Snapshot {
    const version: string
    const models: map<string, seq<array<Candidate>>>

    constructor (version: string, models: map<string, seq<array<Candidate>>>)
      ensures this.version == version && this.models == models
    {
      this.version, this.models := version, models;
    }

    ghost function Arrays(): set<array<Candidate>> {
      set m, k | m in models && 0 <= k < |models[m]| :: models[m][k]
    }

    /** Exactly the models of the table, each with the tiers of its providers. */
    ghost predicate Holds(routes: Routes)
      reads Arrays()
    {
      && version == routes.version
      && (forall m :: m in models <==> ProvidersOf(routes.models, m).Some?)
      && (forall m :: m in models ==> TiersFor(models[m], ProvidersOf(routes.models, m).value))
    }
  }

  class Router {
    var snap: Snapshot?

    constructor ()
      ensures snap == null
    {
      snap := null;
    }

    /** Replaces the snapshot by a new one; the old one is left as it is for those still reading it. */
    method Load(routes: Routes)
      modifies this
      ensures snap != null && fresh(snap) && fresh(snap.Arrays()) && snap.Holds(routes)
    {
      var models: map<string, seq<array<Candidate>>> := map[];
      for k := 0 to |routes.models|
        invariant forall m :: m in models <==> ProvidersOf(routes.models[..k], m).Some?
        invariant forall m :: m in models ==> TiersFor(models[m], ProvidersOf(routes.models[..k], m).value)
        invariant forall m, t :: m in models && 0 <= t < |models[m]| ==> fresh(models[m][t])
      {
        assert routes.models[..k + 1][..k] == routes.models[..k];
        var ts := BuildTiers(routes.models[k].providers);
        models := models[routes.models[k].model := ts];
      }
      assert routes.models[..|routes.models|] == routes.models;
      snap := new Snapshot(routes.version, models);
    }

    /** The candidates to try for a model, tier by tier. `draws` are the random draws it makes. */
    method Attempts(model: string, draws: seq<seq<nat>>) returns (out: seq<Candidate>)
      requires snap != null && model in snap.models ==> AllInRange(Values(snap.models[model]), draws)
      ensures snap == null || model !in snap.models ==> out == []
      ensures snap != null && model in snap.models ==> out == OrderAll(Values(snap.models[model]), draws)
      ensures snap != null && model in snap.models ==> forall ps :: TiersFor(snap.models[model], ps) ==>
                multiset(out) == multiset(Candidates(ps)) && Tries(out, ps) && SortedByPriority(out)
    {
      out := [];
      if snap == null || model !in snap.models {
        return;
      }
      var tiers := snap.models[model];
      out := OrderTiers(tiers, draws);
      forall ps | TiersFor(tiers, ps)
        ensures multiset(out) == multiset(Candidates(ps)) && Tries(out, ps) && SortedByPriority(out)
      {
        var prios :| WellTiered(Values(tiers), Candidates(ps), prios);
        AttemptsArePermutation(Values(tiers), draws, Candidates(ps), prios);
        PermutationTries(out, ps);
      }
    }
  }

  lemma OrderAllStep(vs: seq<seq<Candidate>>, draws: seq<seq<nat>>, k: nat)
    requires AllInRange(vs, draws) && k < |vs|
    ensures AllInRange(vs[..k], draws[..k]) && AllInRange(vs[..k + 1], draws[..k + 1])
    ensures OrderAll(vs[..k + 1], draws[..k + 1]) == OrderAll(vs[..k], draws[..k]) + Order(vs[k], draws[k])
  {
    assert vs[..k + 1][..k] == vs[..k] && draws[..k + 1][..k] == draws[..k];
  }

  method OrderTiers(tiers: seq<array<Candidate>>, draws: seq<seq<nat>>) returns (out: seq<Candidate>)
    requires AllInRange(Values(tiers), draws)
    ensures out == OrderAll(Values(tiers), draws)
  {
    hide OrderAll, Order, InRange, Values;
    ghost var vs := Values(tiers);
    out := [];
    OrderAllNone();
    for k := 0 to |tiers|
      invariant AllInRange(vs, draws) && AllInRange(vs[..k], draws[..k]) && out == OrderAll(vs[..k], draws[..k])
      invariant forall t :: 0 <= t < |tiers| ==> tiers[t][..] == vs[t]
    {
      OrderAllStep(vs, draws, k);
      assert tiers[k][..] == vs[k];
      var more := WeightedOrder(tiers[k], draws[k]);
      out := out + more;
    }
    assert vs[..|tiers|] == vs && draws[..|tiers|] == draws;
  }

  lemma OrderAllNone()
    ensures OrderAll([], []) == []
  {
  }
}
