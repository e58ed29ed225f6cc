/** Smooth weighted round robin: one selection, and fairness over whole periods. */
module WeightedRoundRobin {
  import opened Optional
  import Commands

  /** The values of a node's fields. */
  datatype Node = Node(cluster: string, weight: int, current: int, effective: int)

  // ---------------------------------------------------------------- one selection

  /** A node after it has gained its effective weight, which itself recovers by one towards its weight. */
  function Raised(n: Node): Node {
    n.(current := n.current + n.effective, effective := if n.effective < n.weight then n.effective + 1 else n.effective)
  }

  function RaisedAll(ns: seq<Node>): (r: seq<Node>)
    ensures |r| == |ns|
    ensures forall i :: 0 <= i < |ns| ==> r[i] == Raised(ns[i])
  {
    seq(|ns|, i requires 0 <= i < |ns| => Raised(ns[i]))
  }

  function Total(ns: seq<Node>): int {
    if ns == [] then 0 else Total(ns[..|ns| - 1]) + ns[|ns| - 1].effective
  }

  /** The first node with the greatest current weight. */
  predicate IsBest(ns: seq<Node>, b: nat) {
    && b < |ns|
    && (forall i :: 0 <= i < b ==> ns[i].current < ns[b].current)
    && (forall i :: b <= i < |ns| ==> ns[i].current <= ns[b].current)
  }

  /** How looking at one more node changes which is the best so far. */
  lemma BestPush(ns: seq<Node>, i: nat, b: nat)
    requires i < |ns|
    ensures i == 0 ==> IsBest(ns[..i + 1], i)
    ensures b < i && IsBest(ns[..i], b) ==>
              if ns[i].current > ns[b].current then IsBest(ns[..i + 1], i) else IsBest(ns[..i + 1], b)
  {
    assert forall k :: 0 <= k < i ==> ns[..i + 1][k] == ns[..i][k];
  }

  function Best(ns: seq<Node>): (b: nat)
    requires ns != []
    ensures IsBest(ns, b)
  {
    if |ns| == 1 then 0
    else
      var n := |ns| - 1;
      var b := Best(ns[..n]);
      BestPush(ns, n, b);
      assert ns[..n + 1] == ns;
      if ns[n].current > ns[b].current then n else b
  }

  lemma BestStep(ns: seq<Node>, i: nat)
    requires i < |ns|
    ensures i == 0 ==> Best(ns[..i + 1]) == 0
    ensures i > 0 ==> Best(ns[..i + 1]) == if ns[i].current > ns[Best(ns[..i])].current then i else Best(ns[..i])
  {
    assert ns[..i + 1][..i] == ns[..i];
  }

  function Chosen(ns: seq<Node>): (b: nat)
    requires ns != []
    ensures b < |ns|
  {
    Best(RaisedAll(ns))
  }

  /** The nodes after one selection. */
  function Selected(ns: seq<Node>): (r: seq<Node>)
    ensures |r| == |ns|
  {
    if ns == [] then [] else
    var r, b := RaisedAll(ns), Chosen(ns);
    r[b := r[b].(current := r[b].current - Total(ns))]
  }

  // ---------------------------------------------------------------- the balancer

  class WeightNode {
    const cluster: string
    const weight: int
    var currentWeight: int
    var effectiveWeight: int

    constructor (cluster: string, weight: int)
      ensures Value() == Node(cluster, weight, 0, weight)
    {
      this.cluster, this.weight := cluster, weight;
      currentWeight, effectiveWeight := 0, weight;
    }

    function Value(): Node
      reads this
    {
      Node(cluster, weight, currentWeight, effectiveWeight)
    }

    /** The part of a selection that concerns one node by itself. */
    method Raise()
      modifies this
      ensures Value() == Raised(old(Value()))
    {
      currentWeight := currentWeight + effectiveWeight;
      if effectiveWeight < weight {
        effectiveWeight := effectiveWeight + 1;
      }
    }
  }

  const MIN_INT64 := -0x8000_0000_0000_0000
  const MAX_INT64 := 0x7fff_ffff_ffff_ffff

  /** strconv.ParseInt in base 10 with 64 bits. */
  function ParseInt64(s: string): (r: Option<int>)
    ensures r.Some? ==> MIN_INT64 <= r.value <= MAX_INT64
  {
    var signed := s != "" && (s[0] == '-' || s[0] == '+');
    var magnitude := Commands.ParseDecimal(if signed then s[1..] else s);
    if magnitude.None? then None else
    var n: int := if signed && s[0] == '-' then 0 - magnitude.value else magnitude.value;
    if MIN_INT64 <= n <= MAX_INT64 then Some(n) else None
  }

  /** A weight written in decimal is read back. */
  lemma ParseInt64OfDecimal(n: nat)
    requires n <= MAX_INT64
    ensures ParseInt64(Commands.Decimal(n)) == Some(n)
  {
    Commands.ParseDecimalOf(n);
    DecimalStart(n);
  }

  lemma {:induction false} DecimalStart(n: nat)
    ensures '0' <= Commands.Decimal(n)[0] <= '9'
  {
    if n >= 10 {
      DecimalStart(n / 10);
    }
  }

  class WeightRoundRobinBalancer {
    var rss: seq<WeightNode>

    ghost predicate Valid()
      reads this
    {
      forall i, j :: 0 <= i < j < |rss| ==> rss[i] != rss[j]
    }

    constructor ()
      ensures Valid() && rss == []
    {
      rss := [];
    }

    ghost function Nodes(): (ns: seq<Node>)
      reads this, rss
      ensures |ns| == |rss|
    {
      seq(|rss|, i requires 0 <= i < |rss| reads this, rss => rss[i].Value())
    }

    /** Returns false where the source returns an error, and then adds nothing. */
    method Add(params: seq<string>) returns (ok: bool)
      requires Valid()
      modifies this
      ensures Valid()
      ensures ok <==> |params| == 2 && ParseInt64(params[1]).Some?
      ensures Nodes() == old(Nodes()) +
                (if ok then [Node(params[0], ParseInt64(params[1]).value, 0, ParseInt64(params[1]).value)] else [])
      ensures forall n :: n in rss ==> n in old(rss) || fresh(n)
    {
      if |params| != 2 {
        return false;
      }
      var parInt := ParseInt64(params[1]);
      if parInt.None? {
        return false;
      }
      var node := new WeightNode(params[0], parInt.value);
      rss := rss + [node];
      return true;
    }

    /** The nodes in mid-selection: the first `i` have been raised. */
    ghost predicate RaisedUpTo(before: seq<Node>, i: nat)
      reads this, rss
    {
      && |before| == |rss| && i <= |rss|
      && (forall k :: 0 <= k < i ==> rss[k].Value() == Raised(before[k]))
      && (forall k :: i <= k < |rss| ==> rss[k].Value() == before[k])
    }

    /** One turn of the loop, as far as the weights go. */
    method RaiseOne(ghost before: seq<Node>, i: nat)
      requires Valid() && i < |rss| && RaisedUpTo(before, i)
      modifies rss[i]
      ensures RaisedUpTo(before, i + 1)
    {
      rss[i].Raise();
    }

    /** The end of a selection: the best node pays the total. */
    method Settle(ghost before: seq<Node>, best: WeightNode, total: int)
      requires Valid() && before != [] && RaisedUpTo(before, |rss|)
      requires best == rss[Chosen(before)] && total == Total(before)
      modifies best
      ensures Nodes() == Selected(before)
    {
      best.currentWeight := best.currentWeight - total;
      forall k | 0 <= k < |rss| ensures rss[k].Value() == Selected(before)[k] {}
    }

    method Next() returns (cluster: string)
      requires Valid()
      modifies rss
      ensures Nodes() == Selected(old(Nodes()))
      ensures cluster == if old(Nodes()) == [] then "" else old(Nodes())[Chosen(old(Nodes()))].cluster
    {
      ghost var before := Nodes();
      ghost var raised := RaisedAll(before);
      var best: WeightNode? := null;
      ghost var b := 0;
      var total := 0;
      for i := 0 to |rss|
        invariant RaisedUpTo(before, i)
        invariant total == Total(before[..i])
        invariant best == null <==> i == 0
        invariant best != null ==> b < i && best == rss[b] && b == Best(raised[..i])
      {
        var w := rss[i];
        TotalPush(before, i);
        total := total + w.effectiveWeight;
        RaiseOne(before, i);
        BestStep(raised, i);
        if best == null || w.currentWeight > best.currentWeight {
          best, b := w, i;
        }
      }
      TotalPush(before, |rss|);
      if best == null {
        return "";
      }
      assert raised[..|rss|] == raised;
      cluster := best.cluster;
      Settle(before, best, total);
    }
  }

  lemma TotalPush(ns: seq<Node>, i: nat)
    requires i <= |ns|
    ensures i < |ns| ==> Total(ns[..i + 1]) == Total(ns[..i]) + ns[i].effective
    ensures i == |ns| ==> Total(ns[..i]) == Total(ns)
  {
    if i < |ns| {
      assert ns[..i + 1][..i] == ns[..i];
    } else {
      assert ns[..i] == ns;
    }
  }

  // ---------------------------------------------------------------- runs of selections

  /** Positive weights, and effective weights that nothing has lowered. */
  predicate Steady(ns: seq<Node>) {
    forall n :: n in ns ==> n.weight > 0 && n.effective == n.weight
  }

  /** `k` steps of `f` from `x`. */
  function Iterate<T>(x: T, f: T -> T, k: nat): T {
    if k == 0 then x else f(Iterate(x, f, k - 1))
  }

  /** How often `pick` gives `i` in the first `k` steps. */
  function Hits<T>(x: T, f: T -> T, pick: T -> int, i: nat, k: nat): nat {
    if k == 0 then 0 else Hits(x, f, pick, i, k - 1) + (if pick(Iterate(x, f, k - 1)) == i then 1 else 0)
  }

  function Select(): seq<Node> -> seq<Node> {
    (ns: seq<Node>) => Selected(ns)
  }

  function Choose(): seq<Node> -> int {
    (ns: seq<Node>) => if ns == [] then -1 else Chosen(ns)
  }

  /** The nodes after `k` selections. */
  function After(ns: seq<Node>, k: nat): seq<Node> {
    Iterate(ns, Select(), k)
  }

  /** How often node `i` is chosen in the first `k` selections. */
  function Count(ns: seq<Node>, i: nat, k: nat): nat {
    Hits(ns, Select(), Choose(), i, k)
  }

  function Sum(xs: seq<int>): int {
    if xs == [] then 0 else Sum(xs[..|xs| - 1]) + xs[|xs| - 1]
  }

  function Currents(ns: seq<Node>): (cs: seq<int>)
    ensures |cs| == |ns| && forall i :: 0 <= i < |ns| ==> cs[i] == ns[i].current
  {
    seq(|ns|, i requires 0 <= i < |ns| => ns[i].current)
  }

  function Weights(ns: seq<Node>): (ws: seq<int>)
    ensures |ws| == |ns| && forall i :: 0 <= i < |ns| ==> ws[i] == ns[i].weight
  {
    seq(|ns|, i requires 0 <= i < |ns| => ns[i].weight)
  }

  lemma {:induction false} SumUpdate(xs: seq<int>, i: nat, x: int)
    requires i < |xs|
    ensures Sum(xs[i := x]) == Sum(xs) - xs[i] + x
  {
    var front := xs[..|xs| - 1];
    if i == |xs| - 1 {
      assert xs[i := x][..|xs| - 1] == front;
    } else {
      assert xs[i := x][..|xs| - 1] == front[i := x];
      SumUpdate(front, i, x);
    }
  }

  lemma {:induction false} SumPlus(xs: seq<int>, ys: seq<int>, zs: seq<int>)
    requires |xs| == |ys| == |zs| && forall i :: 0 <= i < |xs| ==> zs[i] == xs[i] + ys[i]
    ensures Sum(zs) == Sum(xs) + Sum(ys)
  {
    if xs != [] {
      var n := |xs| - 1;
      SumPlus(xs[..n], ys[..n], zs[..n]);
    }
  }

  lemma {:induction false} SumNonPositive(xs: seq<int>)
    requires forall x :: x in xs ==> x <= 0
    ensures Sum(xs) <= 0
  {
    if xs != [] {
      var n := |xs| - 1;
      assert forall x :: x in xs[..n] ==> x in xs;
      SumNonPositive(xs[..n]);
      assert xs[n] in xs;
    }
  }

  lemma {:induction false} SumNonNegative(xs: seq<int>)
    requires forall x :: x in xs ==> x >= 0
    ensures Sum(xs) >= 0 && (Sum(xs) == 0 ==> forall x :: x in xs ==> x == 0)
  {
    if xs != [] {
      var n := |xs| - 1;
      assert forall x :: x in xs[..n] ==> x in xs;
      SumNonNegative(xs[..n]);
      assert xs[n] in xs && forall x :: x in xs ==> x in xs[..n] || x == xs[n];
    }
  }

  lemma {:induction false} TotalIsSum(ns: seq<Node>)
    requires Steady(ns)
    ensures Total(ns) == Sum(Weights(ns))
  {
    if ns != [] {
      var n := |ns| - 1;
      assert forall x :: x in ns[..n] ==> x in ns;
      TotalIsSum(ns[..n]);
      assert Weights(ns)[..n] == Weights(ns[..n]) && ns[n] in ns;
    }
  }

  /** What one selection does to steady nodes. */
  lemma SelectedSteady(ns: seq<Node>)
    requires Steady(ns) && ns != []
    ensures Steady(Selected(ns)) && Weights(Selected(ns)) == Weights(ns)
    ensures forall i :: 0 <= i < |ns| ==>
              Selected(ns)[i].current == ns[i].current + ns[i].weight - (if i == Chosen(ns) then Sum(Weights(ns)) else 0)
  {
    TotalIsSum(ns);
    forall i | 0 <= i < |ns| ensures ns[i].weight > 0 && ns[i].effective == ns[i].weight {
      assert ns[i] in ns;
    }
    forall n | n in Selected(ns) ensures n.weight > 0 && n.effective == n.weight {
      var i :| 0 <= i < |ns| && Selected(ns)[i] == n;
    }
  }

  /** The current weights sum to zero, and none falls to minus the total or below. */
  ghost predicate Balanced(ns: seq<Node>) {
    && Steady(ns)
    && Sum(Currents(ns)) == 0
    && forall i :: 0 <= i < |ns| ==> ns[i].current > -Sum(Weights(ns))
  }

  lemma SteadyAt(ns: seq<Node>)
    requires Steady(ns)
    ensures forall i :: 0 <= i < |ns| ==> ns[i].effective == ns[i].weight > 0
    ensures ns != [] ==> Sum(Weights(ns)) > 0
  {
    forall i | 0 <= i < |ns| ensures ns[i].effective == ns[i].weight > 0 {
      assert ns[i] in ns;
    }
    if ns != [] {
      forall w | w in Weights(ns) ensures w > 0 {
        var i :| 0 <= i < |ns| && Weights(ns)[i] == w;
      }
      SumNonNegative(Weights(ns));
      assert Weights(ns)[0] in Weights(ns);
    }
  }

  /** Raising adds the weights. */
  lemma RaisedSum(ns: seq<Node>)
    requires Steady(ns)
    ensures Sum(Currents(RaisedAll(ns))) == Sum(Currents(ns)) + Sum(Weights(ns))
  {
    SteadyAt(ns);
    SumPlus(Currents(ns), Weights(ns), Currents(RaisedAll(ns)));
  }

  /** The chosen node has a positive current weight when it is chosen. */
  lemma ChosenPositive(ns: seq<Node>)
    requires Balanced(ns) && ns != []
    ensures RaisedAll(ns)[Chosen(ns)].current > 0
  {
    var raised, b := Currents(RaisedAll(ns)), Chosen(ns);
    SteadyAt(ns);
    RaisedSum(ns);
    forall x | x in raised ensures x <= raised[b] {
      var i :| 0 <= i < |raised| && raised[i] == x;
    }
    if raised[b] <= 0 {
      SumNonPositive(raised);
    }
  }

  /** One selection from `ns` to `r` that chooses `b`, as far as steady nodes are concerned. */
  ghost predicate Turn(ns: seq<Node>, r: seq<Node>, b: int) {
    && |r| == |ns| && 0 <= b < |ns|
    && Balanced(r) && Weights(r) == Weights(ns)
    && forall i :: 0 <= i < |ns| ==>
         && r[i] == ns[i].(current := r[i].current)
         && r[i].current == ns[i].current + ns[i].weight - (if i == b then Sum(Weights(ns)) else 0)
  }

  /** A list that differs from another in one place. */
  lemma SumChanged(xs: seq<int>, ys: seq<int>, i: nat)
    requires |xs| == |ys| && i < |xs| && forall j :: 0 <= j < |xs| && j != i ==> xs[j] == ys[j]
    ensures Sum(ys) == Sum(xs) - xs[i] + ys[i]
  {
    SumUpdate(xs, i, ys[i]);
    assert ys == xs[i := ys[i]];
  }

  lemma SelectedSum(ns: seq<Node>)
    requires Steady(ns) && ns != []
    ensures Sum(Currents(Selected(ns))) == Sum(Currents(ns))
  {
    RaisedSum(ns);
    TotalIsSum(ns);
    SumChanged(Currents(RaisedAll(ns)), Currents(Selected(ns)), Chosen(ns));
  }

  /** Every selection keeps the balance. */
  lemma SelectedTurn(ns: seq<Node>)
    requires Balanced(ns) && ns != []
    ensures Turn(ns, Selected(ns), Chosen(ns))
  {
    SteadyAt(ns);
    SelectedSteady(ns);
    SelectedSum(ns);
    ChosenPositive(ns);
  }

  /** `f` selects and `pick` says which node, whatever they are. */
  ghost predicate Selects(f: seq<Node> -> seq<Node>, pick: seq<Node> -> int) {
    forall ns {:trigger Turn(ns, f(ns), pick(ns))} :: Balanced(ns) && ns != [] ==> Turn(ns, f(ns), pick(ns))
  }

  lemma SelectSelects()
    ensures Selects(Select(), Choose())
  {
    forall ns | Balanced(ns) && ns != [] ensures Turn(ns, Select()(ns), Choose()(ns)) {
      SelectedTurn(ns);
    }
  }

  /** The balance holds over any run. */
  lemma {:induction false} IterateBalanced(ns: seq<Node>, f: seq<Node> -> seq<Node>, pick: seq<Node> -> int, k: nat)
    requires Selects(f, pick) && Balanced(ns) && ns != []
    ensures var r := Iterate(ns, f, k);
            Balanced(r) && Weights(r) == Weights(ns) && forall i :: 0 <= i < |ns| ==> r[i] == ns[i].(current := r[i].current)
    decreases k
  {
    if k > 0 {
      IterateBalanced(ns, f, pick, k - 1);
      var prev := Iterate(ns, f, k - 1);
      assert |Weights(prev)| == |ns|;
      assert Turn(prev, f(prev), pick(prev));
    }
  }

  /** Over any run a node's current weight records how far it is behind its share. */
  lemma {:induction false} IterateCurrent(ns: seq<Node>, f: seq<Node> -> seq<Node>, pick: seq<Node> -> int, i: nat, k: nat)
    requires Selects(f, pick) && Balanced(ns) && i < |ns|
    ensures |Iterate(ns, f, k)| == |ns|
    ensures Iterate(ns, f, k)[i].current == ns[i].current + k * ns[i].weight - Sum(Weights(ns)) * Hits(ns, f, pick, i, k)
    decreases k
  {
    IterateBalanced(ns, f, pick, k);
    assert |Weights(Iterate(ns, f, k))| == |ns|;
    if k > 0 {
      var prev, total := Iterate(ns, f, k - 1), Sum(Weights(ns));
      IterateCurrent(ns, f, pick, i, k - 1);
      IterateBalanced(ns, f, pick, k - 1);
      assert Turn(prev, f(prev), pick(prev));
      Shares(k, ns[i].weight, total, Hits(ns, f, pick, i, k - 1));
    }
  }

  lemma Shares(k: nat, weight: int, total: int, count: nat)
    requires k > 0
    ensures (k - 1) * weight + weight == k * weight
    ensures total * (count + 1) == total * count + total
  {
  }

  function AllHits<T>(n: nat, x: T, f: T -> T, pick: T -> int, k: nat): (cs: seq<int>)
    ensures |cs| == n && forall i :: 0 <= i < n ==> cs[i] == Hits(x, f, pick, i, k)
  {
    seq(n, i requires 0 <= i < n => Hits(x, f, pick, i, k))
  }

  lemma NoHits<T>(n: nat, x: T, f: T -> T, pick: T -> int)
    ensures Sum(AllHits(n, x, f, pick, 0)) == 0
  {
    ZeroSum(AllHits(n, x, f, pick, 0));
  }

  lemma AllHitsStep<T>(n: nat, x: T, f: T -> T, pick: T -> int, k: nat)
    requires k > 0 && 0 <= pick(Iterate(x, f, k - 1)) < n
    ensures Sum(AllHits(n, x, f, pick, k)) == Sum(AllHits(n, x, f, pick, k - 1)) + 1
  {
    SumChanged(AllHits(n, x, f, pick, k - 1), AllHits(n, x, f, pick, k), pick(Iterate(x, f, k - 1)));
  }

  lemma InRange(ns: seq<Node>, f: seq<Node> -> seq<Node>, pick: seq<Node> -> int, k: nat)
    requires Selects(f, pick) && Balanced(ns) && ns != []
    ensures 0 <= pick(Iterate(ns, f, k)) < |ns|
  {
    var prev := Iterate(ns, f, k);
    IterateBalanced(ns, f, pick, k);
    assert |Weights(prev)| == |ns|;
    assert Turn(prev, f(prev), pick(prev));
  }

  /** Every selection chooses one node. */
  lemma {:induction false} HitsSum<T>(n: nat, x: T, f: T -> T, pick: T -> int, k: nat)
    requires forall j: nat :: 0 <= pick(Iterate(x, f, j)) < n
    ensures Sum(AllHits(n, x, f, pick, k)) == k
    decreases k
  {
    if k == 0 {
      NoHits(n, x, f, pick);
    } else {
      HitsSum(n, x, f, pick, k - 1);
      AllHitsStep(n, x, f, pick, k);
    }
  }

  lemma {:induction false} ZeroSum(xs: seq<int>)
    requires forall x :: x in xs ==> x == 0
    ensures Sum(xs) == 0
  {
    SumNonNegative(xs);
    SumNonPositive(xs);
  }

  /** At rest: every current weight zero. */
  predicate AtRest(ns: seq<Node>) {
    forall n :: n in ns ==> n.current == 0
  }

  /** The length of a period: the sum of the weights. */
  function Period(ns: seq<Node>): nat {
    if Sum(Weights(ns)) > 0 then Sum(Weights(ns)) else 0
  }

  lemma RestBalanced(ns: seq<Node>)
    requires Steady(ns) && AtRest(ns) && ns != []
    ensures Balanced(ns) && Period(ns) == Sum(Weights(ns)) > 0
    ensures forall i :: 0 <= i < |ns| ==> ns[i].current == 0
  {
    forall i | 0 <= i < |ns| ensures ns[i].current == 0 {
      assert ns[i] in ns;
    }
    forall c | c in Currents(ns) ensures c == 0 {
      var i :| 0 <= i < |ns| && Currents(ns)[i] == c;
    }
    ZeroSum(Currents(ns));
    SteadyAt(ns);
  }

  /** At no moment of a run from rest is a node a whole turn ahead of its share. */
  lemma HitsBehind(ns: seq<Node>, f: seq<Node> -> seq<Node>, pick: seq<Node> -> int, i: nat, k: nat)
    requires Selects(f, pick) && Steady(ns) && AtRest(ns) && i < |ns|
    ensures Period(ns) * Hits(ns, f, pick, i, k) < k * ns[i].weight + Period(ns)
  {
    RestBalanced(ns);
    IterateBalanced(ns, f, pick, k);
    IterateCurrent(ns, f, pick, i, k);
  }

  lemma AtMostWeight(weight: int, total: int, count: int)
    requires total > 0 && total * count < total * weight + total
    ensures count <= weight
  {
    assert total * (count - weight - 1) < 0;
  }

  /** Two lists with the same sum, one nowhere above the other, are the same. */
  lemma SameSum(xs: seq<int>, ys: seq<int>)
    requires |xs| == |ys| && Sum(xs) == Sum(ys)
    requires forall i :: 0 <= i < |xs| ==> xs[i] <= ys[i]
    ensures xs == ys
  {
    var spare := seq(|xs|, i requires 0 <= i < |xs| => ys[i] - xs[i]);
    SumPlus(spare, xs, ys);
    SumNonNegative(spare);
    forall i | 0 <= i < |xs| ensures xs[i] == ys[i] {
      assert spare[i] in spare;
    }
  }

  /** In one period every node is chosen exactly as often as its weight says. */
  lemma FairHits(ns: seq<Node>, f: seq<Node> -> seq<Node>, pick: seq<Node> -> int)
    requires Selects(f, pick) && Steady(ns) && AtRest(ns) && ns != []
    ensures AllHits(|ns|, ns, f, pick, Period(ns)) == Weights(ns)
  {
    RestBalanced(ns);
    forall j: nat ensures 0 <= pick(Iterate(ns, f, j)) < |ns| {
      InRange(ns, f, pick, j);
    }
    HitsSum(|ns|, ns, f, pick, Period(ns));
    forall i | 0 <= i < |ns| ensures Hits(ns, f, pick, i, Period(ns)) <= ns[i].weight {
      HitsBehind(ns, f, pick, i, Period(ns));
      AtMostWeight(ns[i].weight, Period(ns), Hits(ns, f, pick, i, Period(ns)));
    }
    SameSum(AllHits(|ns|, ns, f, pick, Period(ns)), Weights(ns));
  }

  /** After one period the nodes are as they were. */
  lemma BackAtRest(ns: seq<Node>, f: seq<Node> -> seq<Node>, pick: seq<Node> -> int)
    requires Selects(f, pick) && Steady(ns) && AtRest(ns) && ns != []
    ensures Iterate(ns, f, Period(ns)) == ns
  {
    RestBalanced(ns);
    FairHits(ns, f, pick);
    IterateBalanced(ns, f, pick, Period(ns));
    var end := Iterate(ns, f, Period(ns));
    assert |Weights(end)| == |ns|;
    forall i | 0 <= i < |ns| ensures end[i] == ns[i] {
      IterateCurrent(ns, f, pick, i, Period(ns));
      assert AllHits(|ns|, ns, f, pick, Period(ns))[i] == Weights(ns)[i];
    }
  }

  lemma {:induction false} IterateAdds<T>(x: T, f: T -> T, a: nat, b: nat)
    ensures Iterate(x, f, a + b) == Iterate(Iterate(x, f, a), f, b)
    decreases b
  {
    if b > 0 {
      IterateAdds(x, f, a, b - 1);
      assert a + b - 1 == a + (b - 1);
    }
  }

  // ---------------------------------------------------------------- the theorems

  /** Over any run from a balanced state: the current weights sum to zero and each stays above minus the total. */
  lemma AlwaysBalanced(ns: seq<Node>, k: nat)
    requires Balanced(ns) && ns != []
    ensures Balanced(After(ns, k)) && Weights(After(ns, k)) == Weights(ns)
  {
    SelectSelects();
    IterateBalanced(ns, Select(), Choose(), k);
  }

  lemma {:induction false} SumAtLeast(xs: seq<int>, low: int)
    requires forall x :: x in xs ==> x >= 0 - low
    ensures Sum(xs) >= 0 - |xs| * low
  {
    if xs != [] {
      var front, last := xs[..|xs| - 1], xs[|xs| - 1];
      assert xs == front + [last] && last in xs;
      assert forall x :: x in front ==> x in xs;
      SumAtLeast(front, low);
      Shares(|xs|, low, 0, 0);
    }
  }

  lemma AtMost(xs: seq<int>, i: nat, low: int)
    requires i < |xs| && low >= 0 && Sum(xs) == 0 && forall x :: x in xs ==> x >= 0 - low
    ensures xs[i] <= |xs| * low
  {
    var others := xs[i := 0];
    forall x | x in others ensures x >= 0 - low {
      assert x == 0 || x in xs;
    }
    SumUpdate(xs, i, 0);
    SumAtLeast(others, low);
  }

  lemma NothingWraps(ns: seq<Node>, k: nat, i: nat)
    requires Steady(ns) && AtRest(ns) && i < |ns|
    requires (|ns| + 1) * Period(ns) <= MAX_INT64
    ensures var r := After(ns, k);
            && |r| == |ns| && r[i].effective == ns[i].weight
            && MIN_INT64 <= r[i].current && r[i].current + r[i].effective <= MAX_INT64
            && MIN_INT64 <= r[i].current + r[i].effective - Period(ns)
    ensures Period(ns) <= MAX_INT64
  {
    RestBalanced(ns);
    AlwaysBalanced(ns, k);
    BalancedBounds(After(ns, k), ns, i);
    Shares(|ns| + 1, Period(ns), 0, 0);
    LeastOnce(|ns|, Period(ns));
  }

  lemma LeastOnce(n: nat, x: nat)
    requires n > 0
    ensures n * x >= x
  {
  }

  lemma BalancedBounds(r: seq<Node>, ns: seq<Node>, i: nat)
    requires Balanced(r) && Steady(ns) && Weights(r) == Weights(ns) && i < |ns| && Period(ns) == Sum(Weights(ns))
    ensures |r| == |ns| && r[i].effective == ns[i].weight
    ensures 0 - Period(ns) < r[i].current <= |ns| * Period(ns) && 0 < r[i].effective <= Period(ns)
  {
    assert |r| == |Weights(r)| == |ns|;
    SteadyAt(r);
    assert Weights(r)[i] == Weights(ns)[i];
    forall x | x in Currents(r) ensures x >= 0 - Period(ns) {
      var j :| 0 <= j < |r| && Currents(r)[j] == x;
    }
    AtMost(Currents(r), i, Period(ns));
    forall x | x in Weights(r) ensures x > 0 {
      var j :| 0 <= j < |r| && Weights(r)[j] == x;
    }
    OneOfSum(Weights(r), i);
  }

  lemma OneOfSum(xs: seq<int>, i: nat)
    requires i < |xs| && forall x :: x in xs ==> x > 0
    ensures xs[i] <= Sum(xs)
  {
    var others := xs[i := 0];
    forall x | x in others ensures x >= 0 {
      assert x == 0 || x in xs;
    }
    SumUpdate(xs, i, 0);
    SumNonNegative(others);
  }

  /** At no moment has a node been chosen a whole turn more often than its share. */
  lemma NeverAhead(ns: seq<Node>, i: nat, k: nat)
    requires Steady(ns) && AtRest(ns) && i < |ns|
    ensures Period(ns) * Count(ns, i, k) < k * ns[i].weight + Period(ns)
  {
    SelectSelects();
    HitsBehind(ns, Select(), Choose(), i, k);
  }

  /** Exact fairness: one period chooses every node exactly its weight many times and returns to rest. */
  lemma ExactFairness(ns: seq<Node>)
    requires Steady(ns) && AtRest(ns) && ns != []
    ensures Period(ns) == Sum(Weights(ns))
    ensures forall i :: 0 <= i < |ns| ==> Count(ns, i, Period(ns)) == ns[i].weight
    ensures After(ns, Period(ns)) == ns
  {
    SelectSelects();
    RestBalanced(ns);
    FairHits(ns, Select(), Choose());
    BackAtRest(ns, Select(), Choose());
    forall i | 0 <= i < |ns| ensures Count(ns, i, Period(ns)) == ns[i].weight {
      assert AllHits(|ns|, ns, Select(), Choose(), Period(ns))[i] == Weights(ns)[i];
    }
  }

  lemma Periodic(ns: seq<Node>, k: nat)
    requires Steady(ns) && AtRest(ns) && ns != []
    ensures After(ns, Period(ns) + k) == After(ns, k)
    ensures Choose()(After(ns, Period(ns) + k)) == Choose()(After(ns, k))
  {
    SelectSelects();
    PeriodicFor(ns, Select(), Choose(), k);
  }

  lemma PeriodicFor(ns: seq<Node>, f: seq<Node> -> seq<Node>, pick: seq<Node> -> int, k: nat)
    requires Selects(f, pick) && Steady(ns) && AtRest(ns) && ns != []
    ensures Iterate(ns, f, Period(ns) + k) == Iterate(ns, f, k)
  {
    BackAtRest(ns, f, pick);
    IterateAdds(ns, f, Period(ns), k);
  }
}
