/** The start-up script: it sums the targets' holding weights, builds one
    trigger per (target, strategy) pair with that sum in its environment, adds
    every trigger to a new pipeline and runs the pipeline once with a VIX of 30.
    The configuration arrives already parsed, as the list of target dicts. */
module Loader {
  import opened PyValues
  import opened Pojo
  import opened Trigger
  import opened Registry
  import opened Pipeline

  // ---------------------------------------------------------------------------
  // The weight sum (main.py lines 18-20)
  // ---------------------------------------------------------------------------

  /** `acc += target['holding_weight']` over `targets`, in order: a missing
      weight is a KeyError and an operand `+` does not support a TypeError. */
  function Accumulate(acc: Value, targets: seq<map<string, Value>>): Result<Value>
    decreases |targets|
  {
    if targets == [] then Ok(acc)
    else if "holding_weight" !in targets[0] then Err(KeyError("holding_weight"))
    else
      var s := Add(acc, targets[0]["holding_weight"]);
      if s.Err? then s else Accumulate(s.value, targets[1..])
  }

  /** `total_holding_weight`: the accumulation starts from the int 0. */
  function TotalWeight(targets: seq<map<string, Value>>): Result<Value> {
    Accumulate(Int(0), targets)
  }

  /** Every target carries a numeric weight. */
  predicate NumericWeights(targets: seq<map<string, Value>>) {
    forall i :: 0 <= i < |targets| ==> "holding_weight" in targets[i] && IsNumber(targets[i]["holding_weight"])
  }

  /** The arithmetic sum of the weights. */
  function WeightSum(targets: seq<map<string, Value>>): real
    requires NumericWeights(targets)
    decreases |targets|
  {
    if targets == [] then 0.0 else AsReal(targets[0]["holding_weight"]) + WeightSum(targets[1..])
  }

  /** The sum of the fractions `holding_weight / total` that line 28 computes. */
  function FractionSum(targets: seq<map<string, Value>>, total: real): real
    requires NumericWeights(targets) && total != 0.0
    decreases |targets|
  {
    if targets == [] then 0.0
    else AsReal(targets[0]["holding_weight"]) / total + FractionSum(targets[1..], total)
  }

  /** The accumulation succeeds exactly when every weight is a number, and
      then it is the starting value plus the sum of the weights. */
  lemma {:induction false} AccumulateIsSum(acc: Value, targets: seq<map<string, Value>>)
    requires IsNumber(acc)
    ensures Accumulate(acc, targets).Ok? <==> NumericWeights(targets)
    ensures Accumulate(acc, targets).Err? ==>
              Accumulate(acc, targets).error in {KeyError("holding_weight"), TypeError}
    ensures NumericWeights(targets) ==>
              IsNumber(Accumulate(acc, targets).value) &&
              AsReal(Accumulate(acc, targets).value) == AsReal(acc) + WeightSum(targets)
    decreases |targets|
  {
    if targets != [] && "holding_weight" in targets[0] {
      var s := Add(acc, targets[0]["holding_weight"]);
      if s.Ok? {
        AccumulateIsSum(s.value, targets[1..]);
        assert NumericWeights(targets) <==> NumericWeights(targets[1..]) by {
          if NumericWeights(targets[1..]) {
            forall i | 0 <= i < |targets|
              ensures "holding_weight" in targets[i] && IsNumber(targets[i]["holding_weight"])
            {
              if i > 0 { assert targets[i] == targets[1..][i - 1]; }
            }
          }
        }
      } else {
        assert !NumericWeights(targets);
      }
    } else if targets != [] {
      assert !NumericWeights(targets);
    }
  }

  /** `total_holding_weight` is the sum of every target's weight; it fails
      exactly when some weight is missing or not a number. */
  lemma TotalIsSum(targets: seq<map<string, Value>>)
    ensures TotalWeight(targets).Ok? <==> NumericWeights(targets)
    ensures NumericWeights(targets) ==>
              IsNumber(TotalWeight(targets).value) && AsReal(TotalWeight(targets).value) == WeightSum(targets)
  {
    AccumulateIsSum(Int(0), targets);
  }

  /** The fractions of a non-zero total add up to the weight sum over the total. */
  lemma {:induction false} FractionSumIsQuotient(targets: seq<map<string, Value>>, total: real)
    requires NumericWeights(targets) && total != 0.0
    ensures FractionSum(targets, total) == WeightSum(targets) / total
    decreases |targets|
  {
    if targets != [] {
      assert NumericWeights(targets[1..]) by {
        forall i | 0 <= i < |targets| - 1
          ensures "holding_weight" in targets[1..][i] && IsNumber(targets[1..][i]["holding_weight"])
        {
          assert targets[1..][i] == targets[i + 1];
        }
      }
      FractionSumIsQuotient(targets[1..], total);
      var w := AsReal(targets[0]["holding_weight"]);
      assert w / total + WeightSum(targets[1..]) / total == (w + WeightSum(targets[1..])) / total;
    }
  }

  /** When the total is positive, the per-target fractions of line 28 sum to 1. */
  lemma FractionsSumToOne(targets: seq<map<string, Value>>)
    requires TotalWeight(targets).Ok? && IsNumber(TotalWeight(targets).value)
    requires AsReal(TotalWeight(targets).value) > 0.0
    ensures NumericWeights(targets)
    ensures FractionSum(targets, AsReal(TotalWeight(targets).value)) == 1.0
  {
    var total := AsReal(TotalWeight(targets).value);
    TotalIsSum(targets);
    FractionSumIsQuotient(targets, total);
    assert WeightSum(targets) / total == total / total == 1.0;
  }

  /** Lines 18-20: the accumulator loop. */
  method SumWeights(targets: seq<map<string, Value>>) returns (total: Result<Value>)
    ensures total == TotalWeight(targets)
  {
    var acc := Int(0);
    var i := 0;
    while i < |targets|
      invariant 0 <= i <= |targets|
      invariant Accumulate(acc, targets[i..]) == TotalWeight(targets)
    {
      assert targets[i..][1..] == targets[i + 1..];
      if "holding_weight" !in targets[i] {
        return Err(KeyError("holding_weight"));
      }
      var s := Add(acc, targets[i]["holding_weight"]);
      if s.Err? {
        return s;
      }
      acc := s.value;
      i := i + 1;
    }
    total := Ok(acc);
  }

  // ---------------------------------------------------------------------------
  // What the script reaches (main.py lines 26-37), as values
  // ---------------------------------------------------------------------------

  /** One (target, strategy) pair the nested loop reaches. */
  datatype Pair = Pair(target: map<string, Value>, strategy: map<string, Value>)

  /** The pairs the script reaches, in order, and the exception that stops it. */
  datatype Plan = Plan(pairs: seq<Pair>, failure: Option<PyError>)

  function Prepend(ps: seq<Pair>, plan: Plan): Plan {
    Plan(ps + plan.pairs, plan.failure)
  }

  /** `for strategy in strategies`: a list yields its items. A dict yields its
      keys and a string its characters, on which `strategy['name']` raises
      TypeError, so only an empty one goes through; anything else is not
      iterable. */
  function StrategyItems(v: Value): (r: Result<seq<Value>>)
    ensures r.Ok? <==> v.List? || v == Dict(map[]) || v == Str("")
    ensures r.Err? ==> r.error == TypeError
    ensures r.Ok? && !v.List? ==> r.value == []
  {
    match v
    case List(items) => Ok(items)
    case Dict(m) => if m == map[] then Ok([]) else Err(TypeError)
    case Str(s) => if s == "" then Ok([]) else Err(TypeError)
    case _ => Err(TypeError)
  }

  /** Lines 31-32: the item must be a dict holding a name and then params. */
  function CheckStrategy(item: Value): (r: Result<map<string, Value>>)
    ensures r.Ok? <==> item.Dict? && "name" in item.entries && "params" in item.entries
    ensures r.Ok? ==> r.value == item.entries
    ensures !item.Dict? ==> r == Err(TypeError)
    ensures item.Dict? && "name" !in item.entries ==> r == Err(KeyError("name"))
    ensures item.Dict? && "name" in item.entries && "params" !in item.entries ==> r == Err(KeyError("params"))
  {
    if !item.Dict? then Err(TypeError)
    else if "name" !in item.entries then Err(KeyError("name"))
    else if "params" !in item.entries then Err(KeyError("params"))
    else Ok(item.entries)
  }

  /** The inner loop over one target's strategy items. */
  function ItemsPlan(target: map<string, Value>, items: seq<Value>): Plan
    decreases |items|
  {
    if items == [] then Plan([], None)
    else
      var c := CheckStrategy(items[0]);
      if c.Err? then Plan([], Some(c.error))
      else Prepend([Pair(target, c.value)], ItemsPlan(target, items[1..]))
  }

  /** Lines 27-30 for one target: name, share of the total, strategies, then
      the inner loop. */
  function TargetPlan(target: map<string, Value>, total: Value): Plan {
    if "name" !in target then Plan([], Some(KeyError("name")))
    else if "holding_weight" !in target then Plan([], Some(KeyError("holding_weight")))
    else
      var share := TrueDiv(target["holding_weight"], total);
      if share.Err? then Plan([], Some(share.error))
      else if "strategies" !in target then Plan([], Some(KeyError("strategies")))
      else
        var items := StrategyItems(target["strategies"]);
        if items.Err? then Plan([], Some(items.error))
        else ItemsPlan(target, items.value)
  }

  /** The outer loop over the targets: the first failure ends the script. */
  function ConfigPlan(targets: seq<map<string, Value>>, total: Value): Plan
    decreases |targets|
  {
    if targets == [] then Plan([], None)
    else
      var p := TargetPlan(targets[0], total);
      if p.failure.Some? then p else Prepend(p.pairs, ConfigPlan(targets[1..], total))
  }

  /** Reference definition of a complete run: every target's strategy dicts,
      targets first and strategies second, in configuration order. */
  function AllPairs(targets: seq<map<string, Value>>): seq<Pair>
    requires forall i :: 0 <= i < |targets| ==> TargetIsWellFormed(targets[i])
    decreases |targets|
  {
    if targets == [] then []
    else
      assert TargetIsWellFormed(targets[0]);
      var items := targets[0]["strategies"].items;
      seq(|items|, j requires 0 <= j < |items| => Pair(targets[0], items[j].entries)) + AllPairs(targets[1..])
  }

  /** A target whose strategies are a list of dicts, each with a name and params. */
  predicate TargetIsWellFormed(target: map<string, Value>) {
    && "name" in target && "holding_weight" in target && "strategies" in target
    && target["strategies"].List?
    && forall j :: 0 <= j < |target["strategies"].items| ==>
         target["strategies"].items[j].Dict? &&
         "name" in target["strategies"].items[j].entries &&
         "params" in target["strategies"].items[j].entries
  }

  /** The inner loop completes exactly when every item is a dict with a name
      and params, and then it reaches one pair per item, in order. */
  lemma {:induction false} ItemsPlanComplete(target: map<string, Value>, items: seq<Value>)
    ensures ItemsPlan(target, items).failure.None? <==>
              forall j :: 0 <= j < |items| ==> CheckStrategy(items[j]).Ok?
    ensures ItemsPlan(target, items).failure.None? ==>
              ItemsPlan(target, items).pairs ==
                seq(|items|, j requires 0 <= j < |items| => Pair(target, items[j].entries))
    ensures |ItemsPlan(target, items).pairs| <= |items|
    decreases |items|
  {
    if items != [] && CheckStrategy(items[0]).Ok? {
      ItemsPlanComplete(target, items[1..]);
      var rest := items[1..];
      if forall j :: 0 <= j < |rest| ==> CheckStrategy(rest[j]).Ok? {
        forall j | 0 <= j < |items| ensures CheckStrategy(items[j]).Ok? {
          if j > 0 { assert items[j] == rest[j - 1]; }
        }
      } else {
        var j :| 0 <= j < |rest| && CheckStrategy(rest[j]).Err?;
        assert items[j + 1] == rest[j];
      }
    }
  }

  /** A configuration whose every target is well formed and whose total is a
      non-zero number reaches every pair of `AllPairs` and raises nothing. */
  lemma {:induction false} WellFormedConfigCompletes(targets: seq<map<string, Value>>, total: Value)
    requires forall i :: 0 <= i < |targets| ==> TargetIsWellFormed(targets[i])
    requires NumericWeights(targets) && IsNumber(total) && AsReal(total) != 0.0
    ensures ConfigPlan(targets, total) == Plan(AllPairs(targets), None)
    decreases |targets|
  {
    if targets != [] {
      var t := targets[0];
      assert IsNumber(t["holding_weight"]);
      var items := t["strategies"].items;
      ItemsPlanComplete(t, items);
      assert forall j :: 0 <= j < |items| ==> CheckStrategy(items[j]).Ok?;
      assert TargetPlan(t, total) == ItemsPlan(t, items);
      assert NumericWeights(targets[1..]) by {
        forall i | 0 <= i < |targets| - 1
          ensures "holding_weight" in targets[1..][i] && IsNumber(targets[1..][i]["holding_weight"])
        {
          assert targets[1..][i] == targets[i + 1];
        }
      }
      WellFormedConfigCompletes(targets[1..], total);
    }
  }

  /** A configuration whose weights sum to zero raises ZeroDivisionError on
      line 28 of its first target, before any trigger is built. */
  lemma ZeroTotalFailsFirst(targets: seq<map<string, Value>>)
    requires targets != [] && "name" in targets[0]
    requires TotalWeight(targets).Ok? && IsNumber(TotalWeight(targets).value)
    requires AsReal(TotalWeight(targets).value) == 0.0
    ensures ConfigPlan(targets, TotalWeight(targets).value) == Plan([], Some(ZeroDivisionError))
  {
    TotalIsSum(targets);
    assert IsNumber(targets[0]["holding_weight"]);
  }

  // ---------------------------------------------------------------------------
  // Building and adding the triggers (main.py lines 22-42)
  // ---------------------------------------------------------------------------

  /** The environment dict of lines 22-24. */
  function EnvOf(total: Value): map<string, Value> {
    map["total_holding_weight" := total]
  }

  /** `t` is the trigger lines 33-36 build from `envData` and `pair`. */
  ghost predicate Built(t: TradingTrigger, envData: map<string, Value>, pair: Pair)
    reads t
  {
    var share := HoldingShare(pair.target, Some(EnvFromDict(envData)));
    && share.Ok?
    && t.env == Some(EnvFromDict(envData))
    && t.target == Some(TargetFromDict(pair.target).(holdingPercentage := share.value))
    && t.strategy == Some(StrategyFromDict(pair.strategy))
  }

  /** The pipeline key a pair's trigger is filed under. */
  function PairKey(pair: Pair): Result<HashKey> {
    KeyOf(if "name" in pair.target then pair.target["name"] else DefaultTargetName)
  }

  /** It is the key of the name the trigger's target is built with. */
  lemma PairKeyBuilt(pair: Pair)
    ensures PairKey(pair) == KeyOf(TargetFromDict(pair.target).name)
  {
  }

  /** The triggers of `ts` whose pairs are filed under `k`, in order. */
  function Select(ts: seq<TradingTrigger>, pairs: seq<Pair>, k: HashKey): seq<TradingTrigger>
    requires |ts| == |pairs|
    decreases |ts|
  {
    if ts == [] then []
    else
      Select(ts[..|ts| - 1], pairs[..|pairs| - 1], k) +
      (if PairKey(pairs[|pairs| - 1]) == Ok(k) then [ts[|ts| - 1]] else [])
  }

  lemma {:induction false} SelectAppend(ts: seq<TradingTrigger>, pairs: seq<Pair>,
                                        ts': seq<TradingTrigger>, pairs': seq<Pair>, k: HashKey)
    requires |ts| == |pairs| && |ts'| == |pairs'|
    ensures Select(ts + ts', pairs + pairs', k) == Select(ts, pairs, k) + Select(ts', pairs', k)
    decreases |ts'|
  {
    if ts' == [] {
      assert ts + ts' == ts && pairs + pairs' == pairs;
    } else {
      var n := |ts'| - 1;
      assert (ts + ts')[..|ts| + n] == ts + ts'[..n];
      assert (pairs + pairs')[..|pairs| + n] == pairs + pairs'[..n];
      SelectAppend(ts, pairs, ts'[..n], pairs'[..n], k);
    }
  }

  /** The dict kept as `order` and `lists` holds, under every key, what the
      dict kept as `order0` and `lists0` held plus the triggers of `added`
      whose pairs in `done` are filed under that key. */
  ghost predicate FiledAs(order: seq<HashKey>, lists: seq<seq<TradingTrigger>>,
                          order0: seq<HashKey>, lists0: seq<seq<TradingTrigger>>,
                          added: seq<TradingTrigger>, done: seq<Pair>)
    requires |order| == |lists| && |order0| == |lists0| && |added| == |done|
  {
    forall k {:trigger Select(added, done, k)} ::
      multiset(ListOf(order, lists, k)) == multiset(ListOf(order0, lists0, k)) + multiset(Select(added, done, k))
  }

  /** Filing one more trigger under its pair's key extends `FiledAs` by that pair. */
  lemma FiledAsStep(order: seq<HashKey>, lists: seq<seq<TradingTrigger>>,
                    order1: seq<HashKey>, lists1: seq<seq<TradingTrigger>>,
                    order0: seq<HashKey>, lists0: seq<seq<TradingTrigger>>,
                    added: seq<TradingTrigger>, done: seq<Pair>, t: TradingTrigger, pair: Pair)
    requires |order| == |lists| && |order1| == |lists1| && |order0| == |lists0| && |added| == |done|
    requires FiledAs(order1, lists1, order0, lists0, added, done)
    requires forall k :: multiset(ListOf(order, lists, k)) ==
                         multiset(ListOf(order1, lists1, k)) + (if PairKey(pair) == Ok(k) then multiset{t} else multiset{})
    ensures FiledAs(order, lists, order0, lists0, added + [t], done + [pair])
  {
    assert (added + [t])[..|added|] == added && (done + [pair])[..|done|] == done;
  }

  /** Two stretches of filing compose. */
  lemma FiledAsTrans(order: seq<HashKey>, lists: seq<seq<TradingTrigger>>,
                     order1: seq<HashKey>, lists1: seq<seq<TradingTrigger>>,
                     order0: seq<HashKey>, lists0: seq<seq<TradingTrigger>>,
                     added0: seq<TradingTrigger>, done0: seq<Pair>, added1: seq<TradingTrigger>, done1: seq<Pair>)
    requires |order| == |lists| && |order1| == |lists1| && |order0| == |lists0|
    requires |added0| == |done0| && |added1| == |done1|
    requires FiledAs(order1, lists1, order0, lists0, added0, done0)
    requires FiledAs(order, lists, order1, lists1, added1, done1)
    ensures FiledAs(order, lists, order0, lists0, added0 + added1, done0 + done1)
  {
    forall k ensures multiset(ListOf(order, lists, k)) ==
                     multiset(ListOf(order0, lists0, k)) + multiset(Select(added0 + added1, done0 + done1, k))
    {
      SelectAppend(added0, done0, added1, done1, k);
    }
  }

  // ---------------------------------------------------------------------------
  // What `pipeline.add` accepts (TradingPipeline.py lines 27-40), as values
  // ---------------------------------------------------------------------------

  /** The priority of the strategy a pair's trigger is built with: the
      dict's own, or -1 (see `PriorityOfBuilt`). */
  function PriorityOf(pair: Pair): Value {
    if "priority" in pair.strategy then pair.strategy["priority"] else DefaultPriority
  }

  lemma PriorityOfBuilt(pair: Pair)
    ensures StrategyFromDict(pair.strategy).priority == PriorityOf(pair)
  {
  }

  /** The pairs of `done` whose triggers are filed under `k`, in order. */
  function KeyPairs(done: seq<Pair>, k: HashKey): (ps: seq<Pair>)
    ensures |ps| <= |done|
    ensures forall q :: q in ps ==> q in done && PairKey(q) == Ok(k)
    decreases |done|
  {
    if done == [] then []
    else
      var last := done[|done| - 1];
      KeyPairs(done[..|done| - 1], k) + (if PairKey(last) == Ok(k) then [last] else [])
  }

  /** Every pair has a numeric priority. */
  predicate NumericPairs(ps: seq<Pair>) {
    forall i :: 0 <= i < |ps| ==> IsNumber(PriorityOf(ps[i]))
  }

  /** `add` raises TypeError on `pair` once the pairs `done` have been added:
      the target's name cannot be hashed (line 29), or the list under the name
      already holds a trigger and, with the new one, some priority is not a
      number, so `sorted` cannot order it (line 37). */
  predicate AddRaises(done: seq<Pair>, pair: Pair) {
    || PairKey(pair).Err?
    || (var held := KeyPairs(done, PairKey(pair).value);
        held != [] && !(NumericPairs(held) && IsNumber(PriorityOf(pair))))
  }

  /** How many of `pairs`, added in order after `done`, `add` takes before it
      first raises. */
  function Accepted(done: seq<Pair>, pairs: seq<Pair>): (n: nat)
    ensures n <= |pairs|
    decreases |pairs|
  {
    if pairs == [] then 0
    else if AddRaises(done, pairs[0]) then 0
    else 1 + Accepted(done + [pairs[0]], pairs[1..])
  }

  /** Pairs added in two runs after `a` are the pairs `a` then both runs. */
  lemma PairsAssoc(a: seq<Pair>, b: seq<Pair>, c: seq<Pair>)
    ensures (a + b) + c == a + (b + c)
  {
  }

  /** The pairs before index `j` are the first pair, then those before
      index `j - 1` of the rest. */
  lemma PrefixStep(done: seq<Pair>, pairs: seq<Pair>, j: nat)
    requires 0 < j <= |pairs|
    ensures done + pairs[..j] == (done + [pairs[0]]) + pairs[1..][..j - 1]
  {
    assert pairs[..j] == [pairs[0]] + pairs[1..][..j - 1];
  }

  /** `Accepted` is the index of the first pair `add` raises on, given the
      pairs before it: up to that index `add` raises on none of them. */
  lemma {:induction false} AcceptedIsFirstRaise(done: seq<Pair>, pairs: seq<Pair>, j: nat)
    requires j < |pairs| && j <= Accepted(done, pairs)
    ensures AddRaises(done + pairs[..j], pairs[j]) <==> j == Accepted(done, pairs)
    decreases j
  {
    if j == 0 {
      assert done + pairs[..0] == done;
    } else {
      var d1 := done + [pairs[0]];
      assert !AddRaises(done, pairs[0]);
      assert Accepted(done, pairs) == 1 + Accepted(d1, pairs[1..]);
      AcceptedIsFirstRaise(d1, pairs[1..], j - 1);
      PrefixStep(done, pairs, j);
      assert pairs[j] == pairs[1..][j - 1];
    }
  }

  /** Adding two runs of pairs: the second run is reached only when the first
      is taken whole. */
  lemma {:induction false} AcceptedAppend(done: seq<Pair>, a: seq<Pair>, b: seq<Pair>)
    ensures Accepted(done, a + b) ==
              if Accepted(done, a) < |a| then Accepted(done, a) else |a| + Accepted(done + a, b)
    decreases |a|
  {
    if a == [] {
      assert a + b == b && done + a == done;
    } else {
      assert (a + b)[0] == a[0] && (a + b)[1..] == a[1..] + b;
      assert (done + [a[0]]) + a[1..] == done + a;
      AcceptedAppend(done + [a[0]], a[1..], b);
    }
  }

  /** Names that hash and numeric priorities throughout: `add` takes every pair. */
  lemma {:induction false} NumericPairsAccepted(done: seq<Pair>, pairs: seq<Pair>)
    requires forall q :: q in done + pairs ==> PairKey(q).Ok? && IsNumber(PriorityOf(q))
    ensures Accepted(done, pairs) == |pairs|
    decreases |pairs|
  {
    if pairs != [] {
      var held := KeyPairs(done, PairKey(pairs[0]).value);
      assert pairs[0] in done + pairs;
      forall i | 0 <= i < |held| ensures IsNumber(PriorityOf(held[i])) {
        assert held[i] in held;
        assert held[i] in done + pairs;
      }
      assert !AddRaises(done, pairs[0]);
      assert (done + [pairs[0]]) + pairs[1..] == done + pairs;
      NumericPairsAccepted(done + [pairs[0]], pairs[1..]);
    }
  }

  /** A target whose name is a list cannot be filed: `add` raises TypeError on
      its first pair, whatever came before. */
  lemma UnhashableNameRaises(done: seq<Pair>, pair: Pair, rest: seq<Pair>)
    requires "name" in pair.target && pair.target["name"].List?
    ensures Accepted(done, [pair] + rest) == 0
  {
    assert ([pair] + rest)[0] == pair;
  }

  /** Two strategies of one target without a numeric priority: the first is
      filed alone, and `sorted` raises TypeError on the second. */
  lemma IncomparablePrioritiesRaise(target: map<string, Value>, s1: map<string, Value>, s2: map<string, Value>)
    requires "name" in target && target["name"] == Str("QQQ")
    requires "priority" in s1 && s1["priority"] == Str("high")
    requires "priority" in s2 && s2["priority"] == Int(1)
    ensures Accepted([], [Pair(target, s1), Pair(target, s2)]) == 1
  {
    var p1, p2 := Pair(target, s1), Pair(target, s2);
    assert KeyPairs([], StrKey("QQQ")) == [];
    assert !AddRaises([], p1);
    assert [] + [p1] == [p1] && [p1][..0] == [];
    assert KeyPairs([p1], StrKey("QQQ")) == [p1];
    assert AddRaises([p1], p2);
    assert [p1, p2][1..] == [p2];
  }

  /** A well-formed configuration whose target names hash and whose
      priorities are numbers loads whole: no descriptor check raises, and
      `add` takes every pair. */
  lemma WellFormedConfigLoads(targets: seq<map<string, Value>>, total: Value)
    requires forall i :: 0 <= i < |targets| ==> TargetIsWellFormed(targets[i])
    requires NumericWeights(targets) && IsNumber(total) && AsReal(total) != 0.0
    requires forall q :: q in AllPairs(targets) ==> PairKey(q).Ok? && IsNumber(PriorityOf(q))
    ensures ConfigPlan(targets, total).failure.None?
    ensures Accepted([], ConfigPlan(targets, total).pairs) == |ConfigPlan(targets, total).pairs|
  {
    WellFormedConfigCompletes(targets, total);
    assert [] + AllPairs(targets) == AllPairs(targets);
    NumericPairsAccepted([], AllPairs(targets));
  }

  /** Every trigger has a strategy with a numeric priority. */
  ghost predicate NumericTriggers(ts: seq<TradingTrigger>)
    reads set t | t in ts
  {
    forall t :: t in ts ==> t.strategy.Some? && IsNumber(t.strategy.value.priority)
  }

  /** A list of the pipeline stands for the pairs `ps` filed under its key: one
      trigger per pair, each with a strategy, and numeric priorities
      throughout exactly when the pairs have them. */
  ghost predicate MirrorsAt(ts: seq<TradingTrigger>, ps: seq<Pair>)
    reads set t | t in ts
  {
    && |ts| == |ps|
    && HasStrategies(ts)
    && (NumericTriggers(ts) <==> NumericPairs(ps))
  }

  /** Every trigger has a strategy. */
  ghost predicate HasStrategies(ts: seq<TradingTrigger>)
    reads set t | t in ts
  {
    forall t :: t in ts ==> t.strategy.Some?
  }

  /** What triggers were built from depends on those triggers only. */
  twostate lemma BuiltFramed(ts: seq<TradingTrigger>)
    requires unchanged(set t | t in ts)
    ensures forall m, envData, pair :: 0 <= m < |ts| && old(Built(ts[m], envData, pair)) ==> Built(ts[m], envData, pair)
  {
    forall m, envData, pair | 0 <= m < |ts| && old(Built(ts[m], envData, pair))
      ensures Built(ts[m], envData, pair)
    {
      assert ts[m] in set t | t in ts;
    }
  }

  /** What a list of triggers stands for depends on those triggers only. */
  twostate lemma TriggersFramed(ts: seq<TradingTrigger>)
    requires unchanged(set t | t in ts)
    ensures old(HasStrategies(ts)) == HasStrategies(ts)
    ensures old(NumericTriggers(ts)) == NumericTriggers(ts)
  {
  }

  /** Two lists with the same triggers stand for the same pairs. */
  lemma SameMembersMirror(ts: seq<TradingTrigger>, us: seq<TradingTrigger>, ps: seq<Pair>)
    requires |ts| == |us| && (forall x :: x in ts <==> x in us)
    requires MirrorsAt(ts, ps)
    ensures MirrorsAt(us, ps)
  {
  }

  /** The dict kept as `order` and `lists` stands, key by key, for the pairs
      `done` that have been added. */
  ghost predicate Mirrors(order: seq<HashKey>, lists: seq<seq<TradingTrigger>>, done: seq<Pair>)
    requires |order| == |lists|
    reads TriggersOf(lists)
  {
    forall k {:trigger KeyPairs(done, k)} :: MirrorsAt(ListOf(order, lists, k), KeyPairs(done, k))
  }

  /** The empty pipeline stands for no pairs. */
  lemma MirrorsEmpty()
    ensures Mirrors([], [], [])
  {
    forall k ensures MirrorsAt(ListOf([], [], k), KeyPairs([], k)) {
    }
  }

  /** Filing one more pair only extends the pairs under its own key. */
  lemma KeyPairsStep(done: seq<Pair>, pair: Pair, k: HashKey)
    ensures KeyPairs(done + [pair], k) == KeyPairs(done, k) + (if PairKey(pair) == Ok(k) then [pair] else [])
  {
    assert (done + [pair])[..|done|] == done;
  }

  /** `sorted` on a list of triggers that all have strategies, with one more
      appended: it raises TypeError exactly when two or more triggers hold a
      priority that is not a number. */
  lemma SortAppendFails(ts: seq<TradingTrigger>, t: TradingTrigger)
    requires forall x :: x in ts ==> x.strategy.Some?
    requires t.strategy.Some?
    ensures SortResult(ts + [t]).Err? <==>
              ts != [] && !(NumericTriggers(ts) && IsNumber(t.strategy.value.priority))
    ensures SortResult(ts + [t]).Err? ==> SortResult(ts + [t]).error == TypeError
  {
    var appended := ts + [t];
    SortResultFails(appended);
    forall i | 0 <= i < |appended| ensures appended[i].strategy.Some? {
      if i < |ts| { assert appended[i] in ts; }
    }
    if !NumericTriggers(ts) {
      var x :| x in ts && !IsNumber(x.strategy.value.priority);
      var i :| 0 <= i < |ts| && ts[i] == x;
      assert appended[i] == x;
    }
    if exists i :: 0 <= i < |appended| && !IsNumber(appended[i].strategy.value.priority) {
      var i :| 0 <= i < |appended| && !IsNumber(appended[i].strategy.value.priority);
      if i < |ts| { assert appended[i] in ts; }
    }
    assert appended[|ts|] == t;
  }

  /** What `sorted` yields holds the same triggers, as many of them. */
  lemma SortKeepsTriggers(ts: seq<TradingTrigger>)
    requires SortResult(ts).Ok?
    ensures |SortResult(ts).value| == |ts|
    ensures forall x :: x in SortResult(ts).value ==> x in ts
    ensures forall x :: x in ts ==> x in SortResult(ts).value
  {
    var sorted := SortResult(ts).value;
    SortResultSorted(ts);
    assert multiset(sorted) == multiset(ts);
    assert |sorted| == |multiset(sorted)| == |multiset(ts)| == |ts|;
    forall x | x in sorted ensures x in ts {
      assert x in multiset(sorted);
    }
    forall x | x in ts ensures x in sorted {
      assert x in multiset(ts);
    }
  }

  /** What `sorted` does to a list that stands for `held` once a trigger built
      from `pair` is appended: it raises, with TypeError, exactly when `add`
      raises on `pair`, and otherwise yields a list that stands for `held`
      with `pair` after it. */
  lemma SortAfterAppend(ts: seq<TradingTrigger>, t: TradingTrigger, held: seq<Pair>, pair: Pair)
    requires MirrorsAt(ts, held)
    requires t.strategy == Some(StrategyFromDict(pair.strategy))
    ensures var sorted := SortResult(ts + [t]);
            && (sorted.Err? <==> held != [] && !(NumericPairs(held) && IsNumber(PriorityOf(pair))))
            && (sorted.Err? ==> sorted.error == TypeError)
            && (sorted.Ok? ==> MirrorsAt(sorted.value, held + [pair]))
  {
    SortAppendFails(ts, t);
    assert NumericPairs(held + [pair]) <==> NumericPairs(held) && IsNumber(PriorityOf(pair)) by {
      assert forall i :: 0 <= i < |held| ==> (held + [pair])[i] == held[i];
      assert (held + [pair])[|held|] == pair;
    }
    var appended := ts + [t];
    if SortResult(appended).Ok? {
      var sorted := SortResult(appended).value;
      SortKeepsTriggers(appended);
      assert forall x :: x in appended <==> x in ts || x == t;
      forall x | x in sorted ensures x in ts || x == t {
        assert x in appended;
      }
      assert NumericTriggers(sorted) <==> NumericTriggers(ts) && IsNumber(PriorityOf(pair)) by {
        if NumericTriggers(ts) && IsNumber(PriorityOf(pair)) {
          forall x | x in sorted ensures x.strategy.Some? && IsNumber(x.strategy.value.priority) {
          }
        }
        if NumericTriggers(sorted) {
          assert t in sorted;
          forall x | x in ts ensures x.strategy.Some? && IsNumber(x.strategy.value.priority) {
            assert x in sorted;
          }
        }
      }
    }
  }

  /** With "vix" in the registry's environment, the default "inspect" never
      raises, so `execute` goes through every trigger. */
  lemma InspectNeverFails(env: map<string, Value>, xs: seq<TradingTrigger>, external: External)
    requires "vix" in env
    ensures FirstFailure(Inspector(DefaultFunctions, env, external), xs) == |xs|
  {
    var f := FirstFailure(Inspector(DefaultFunctions, env, external), xs);
    if f < |xs| {
      DefaultEntries(env, 0, 0, xs[f], external);
    }
  }

  /** One step of the inner loop: a good item adds its pair in front of the rest. */
  lemma ItemsPlanStep(target: map<string, Value>, items: seq<Value>, j: nat, done: seq<Pair>)
    requires j < |items| && CheckStrategy(items[j]).Ok?
    ensures Prepend(done, ItemsPlan(target, items[j..])) ==
            Prepend(done + [Pair(target, CheckStrategy(items[j]).value)], ItemsPlan(target, items[j + 1..]))
  {
    assert items[j..][1..] == items[j + 1..];
  }

  /** The dict after `add` filed the trigger of `pair` under `k`: the list
      under `k` stands for one pair more, and every other list for the pairs
      it stood for. */
  lemma MirrorsStep(order: seq<HashKey>, lists: seq<seq<TradingTrigger>>, done: seq<Pair>, pair: Pair, k: HashKey)
    requires |order| == |lists|
    requires PairKey(pair) == Ok(k)
    requires MirrorsAt(ListOf(order, lists, k), KeyPairs(done, k) + [pair])
    requires forall k' :: k' != k ==> MirrorsAt(ListOf(order, lists, k'), KeyPairs(done, k'))
    ensures Mirrors(order, lists, done + [pair])
  {
    forall k' ensures MirrorsAt(ListOf(order, lists, k'), KeyPairs(done + [pair], k')) {
      KeyPairsStep(done, pair, k');
      if k' != k {
        assert KeyPairs(done + [pair], k') == KeyPairs(done, k') + [] == KeyPairs(done, k');
      } else {
        assert KeyPairs(done + [pair], k') == KeyPairs(done, k) + [pair];
      }
    }
  }

  /** Line 37 for a trigger built from `pair`: `add` on a pipeline that
      stands for the pairs `done`. It raises exactly as `AddRaises` says. */
  method AddBuilt(p: TradingPipeline, trigger: TradingTrigger, pair: Pair, ghost done: seq<Pair>)
    returns (r: Result<TradingPipeline>)
    requires p.Valid() && Mirrors(p.order, p.lists, done)
    requires trigger.target.Some? && PairKey(pair) == KeyOf(trigger.target.value.name)
    requires trigger.strategy == Some(StrategyFromDict(pair.strategy))
    modifies p
    ensures p.Valid()
    ensures r.Err? <==> AddRaises(done, pair)
    ensures r.Err? ==> r.error == TypeError
    ensures r.Ok? ==> Mirrors(p.order, p.lists, done + [pair])
    ensures r.Ok? ==>
              var k := PairKey(pair).value;
              && multiset(p.ListAt(k)) == multiset(old(p.ListAt(k))) + multiset{trigger}
              && forall k' :: k' != k ==> p.ListAt(k') == old(p.ListAt(k'))
    ensures r.Ok? && old(p.AllSorted()) ==> p.AllSorted()
  {
    ghost var sorted := Err(TypeError);
    ghost var appended: seq<TradingTrigger> := [];
    if PairKey(pair).Ok? {
      var k := PairKey(pair).value;
      assert MirrorsAt(p.ListAt(k), KeyPairs(done, k));
      SortAfterAppend(p.ListAt(k), trigger, KeyPairs(done, k), pair);
      appended := p.ListAt(k) + [trigger];
      sorted := SortResult(appended);
      if sorted.Ok? {
        SortKeepsTriggers(appended);
        SameMembersMirror(sorted.value, appended, KeyPairs(done, k) + [pair]);
      }
    }
    r := p.Add(trigger);
    if r.Ok? {
      var k := PairKey(pair).value;
      assert sorted.Ok? && p.ListAt(k) == sorted.value;
      TriggersFramed(appended);
      SameMembersMirror(appended, sorted.value, KeyPairs(done, k) + [pair]);
      forall k' | k' != k ensures MirrorsAt(ListOf(p.order, p.lists, k'), KeyPairs(done, k')) {
        TriggersFramed(old(p.ListAt(k')));
      }
      MirrorsStep(p.order, p.lists, done, pair, k);
    }
  }

  /** Lines 33-37 for one (target, strategy) pair: the trigger is built, which
      cannot fail once line 28 has succeeded, and added to `p`, which stands
      for the pairs `done`. `add` raises exactly as `AddRaises` says. */
  method AddPair(p: TradingPipeline, total: Value, pair: Pair, ghost done: seq<Pair>,
                 ghost built: seq<TradingTrigger>, ghost from: seq<Pair>)
    returns (r: Result<TradingTrigger>)
    requires p.Valid() && Mirrors(p.order, p.lists, done)
    requires |built| <= |from| && forall m :: 0 <= m < |built| ==> Built(built[m], EnvOf(total), from[m])
    requires "holding_weight" in pair.target && TrueDiv(pair.target["holding_weight"], total).Ok?
    modifies p
    ensures p.Valid()
    ensures r.Err? <==> AddRaises(done, pair)
    ensures r.Err? ==> r.error == TypeError
    ensures r.Ok? ==> fresh(r.value) && Built(r.value, EnvOf(total), pair)
    ensures r.Ok? ==> Mirrors(p.order, p.lists, done + [pair])
    ensures r.Ok? ==>
              forall k :: multiset(ListOf(p.order, p.lists, k)) ==
                          multiset(ListOf(old(p.order), old(p.lists), k)) +
                          (if PairKey(pair) == Ok(k) then multiset{r.value} else multiset{})
    ensures r.Ok? && old(p.AllSorted()) ==> p.AllSorted()
    ensures forall m :: 0 <= m < |built| ==> Built(built[m], EnvOf(total), from[m])
  {
    var envData := EnvOf(total);
    assert EnvFromDict(envData).totalHoldingWeight == total;
    var built := Build(envData, pair.target, pair.strategy);
    assert built.Ok?;
    var trigger := built.value;
    assert PairKey(pair) == KeyOf(trigger.target.value.name);
    var a := AddBuilt(p, trigger, pair, done);
    if a.Ok? {
      forall k ensures multiset(ListOf(p.order, p.lists, k)) ==
                       multiset(ListOf(old(p.order), old(p.lists), k)) +
                       (if PairKey(pair) == Ok(k) then multiset{trigger} else multiset{})
      {
        assert p.ListAt(k) == ListOf(p.order, p.lists, k);
        assert old(p.ListAt(k)) == ListOf(old(p.order), old(p.lists), k);
      }
    }
    r := if a.Ok? then Ok(trigger) else Err(a.error);
  }

  /** One more pair after pairs that were all taken: `add` either raises on it,
      so the count stops there whatever follows, or takes it. */
  lemma AcceptedStep(d: seq<Pair>, done: seq<Pair>, pair: Pair, rest: seq<Pair>)
    requires Accepted(d, done) == |done|
    ensures AddRaises(d + done, pair) ==> Accepted(d, done + ([pair] + rest)) == |done|
    ensures !AddRaises(d + done, pair) ==> Accepted(d, done + [pair]) == |done| + 1
  {
    AcceptedAppend(d, done, [pair] + rest);
    AcceptedAppend(d, done, [pair]);
    assert ([pair] + rest)[0] == pair && [pair][1..] == [];
  }

  /** What the loading loops keep: the pairs `done` that lead the plan `plan`,
      followed by `rest`, were all taken, each by the trigger of `added` at its
      index, and the pipeline stands for them after the pairs `done0` and
      holds, on top of what it held as `order0` and `lists0`, exactly those
      triggers. */
  ghost predicate Progress(p: TradingPipeline, envData: map<string, Value>,
                           done0: seq<Pair>, done: seq<Pair>, added: seq<TradingTrigger>,
                           order0: seq<HashKey>, lists0: seq<seq<TradingTrigger>>, plan: Plan, rest: Plan)
    reads p, TriggersOf(p.lists), set t | t in added
  {
    && p.Valid() && |order0| == |lists0|
    && plan == Prepend(done, rest)
    && |added| == |done| == Accepted(done0, done)
    && (forall m :: 0 <= m < |added| ==> Built(added[m], envData, plan.pairs[m]))
    && Mirrors(p.order, p.lists, done0 + done)
    && FiledAs(p.order, p.lists, order0, lists0, added, done)
  }

  /** Before the first pass nothing is taken yet. */
  lemma ProgressStart(p: TradingPipeline, envData: map<string, Value>, done0: seq<Pair>, plan: Plan)
    requires p.Valid() && Mirrors(p.order, p.lists, done0)
    ensures Progress(p, envData, done0, [], [], p.order, p.lists, plan, plan)
  {
    assert done0 + [] == done0;
    assert plan.pairs == [] + plan.pairs;
  }

  /** After the last pass every pair of the plan is taken, and the plan
      raised nothing. */
  lemma ProgressEnd(p: TradingPipeline, envData: map<string, Value>, done0: seq<Pair>, done: seq<Pair>,
                    added: seq<TradingTrigger>, order0: seq<HashKey>, lists0: seq<seq<TradingTrigger>>, plan: Plan)
    requires Progress(p, envData, done0, done, added, order0, lists0, plan, Plan([], None))
    ensures done == plan.pairs && plan.failure.None?
    ensures |added| == Accepted(done0, plan.pairs) == |plan.pairs|
    ensures forall m :: 0 <= m < |added| ==> Built(added[m], envData, plan.pairs[m])
    ensures Mirrors(p.order, p.lists, done0 + plan.pairs)
    ensures FiledAs(p.order, p.lists, order0, lists0, added, plan.pairs)
  {
    assert plan.pairs == done + [] == done;
  }

  /** One pass of the inner loop (lines 31-37 for `items[j]`). */
  method LoadItem(p: TradingPipeline, total: Value, target: map<string, Value>, items: seq<Value>, j: nat,
                  ghost done0: seq<Pair>, ghost done: seq<Pair>, added: seq<TradingTrigger>,
                  ghost order0: seq<HashKey>, ghost lists0: seq<seq<TradingTrigger>>, ghost plan: Plan)
    returns (failure: Option<PyError>, added': seq<TradingTrigger>, ghost done': seq<Pair>)
    requires j < |items| && "holding_weight" in target && TrueDiv(target["holding_weight"], total).Ok?
    requires Progress(p, EnvOf(total), done0, done, added, order0, lists0, plan, ItemsPlan(target, items[j..]))
    modifies p
    ensures p.Valid()
    ensures failure.Some? ==>
              var n := Accepted(done0, plan.pairs);
              && |added'| == n
              && (forall m :: 0 <= m < n ==> Built(added'[m], EnvOf(total), plan.pairs[m]))
              && failure == (if n < |plan.pairs| then Some(TypeError) else plan.failure)
    ensures failure.None? ==>
              Progress(p, EnvOf(total), done0, done', added', order0, lists0, plan, ItemsPlan(target, items[j + 1..]))
    ensures failure.None? && old(p.AllSorted()) ==> p.AllSorted()
  {
    failure, added', done' := None, added, done;
    var strategy := CheckStrategy(items[j]);
    if strategy.Err? {
      assert items[j..][0] == items[j];
      assert plan.pairs == done;
      return Some(strategy.error), added', done';
    }
    var pair := Pair(target, strategy.value);
    ItemsPlanStep(target, items, j, done);
    ghost var rest := ItemsPlan(target, items[j + 1..]).pairs;
    assert plan.pairs == done + ([pair] + rest);
    assert plan.pairs[|done|] == pair;
    AcceptedStep(done0, done, pair, rest);
    ghost var order1, lists1 := p.order, p.lists;
    var r := AddPair(p, total, pair, done0 + done, added, plan.pairs);
    if r.Err? {
      return Some(r.error), added', done';
    }
    PairsAssoc(done0, done, [pair]);
    FiledAsStep(p.order, p.lists, order1, lists1, order0, lists0, added, done, r.value, pair);
    BuiltSnoc(added, r.value, EnvOf(total), plan.pairs);
    added', done' := added + [r.value], done + [pair];
  }

  /** Lines 30-37: the inner loop over a target's strategy items, adding to a
      pipeline that stands for the pairs `done0`. It adds the plan's pairs in
      order until `add` raises TypeError on one, or the plan's own exception
      ends the loop. */
  method LoadItems(p: TradingPipeline, total: Value, target: map<string, Value>, items: seq<Value>,
                   ghost done0: seq<Pair>)
    returns (failure: Option<PyError>, added: seq<TradingTrigger>)
    requires p.Valid() && Mirrors(p.order, p.lists, done0)
    requires "holding_weight" in target && TrueDiv(target["holding_weight"], total).Ok?
    modifies p
    ensures p.Valid()
    ensures var plan := ItemsPlan(target, items);
            var n := Accepted(done0, plan.pairs);
            && |added| == n
            && (forall j :: 0 <= j < n ==> Built(added[j], EnvOf(total), plan.pairs[j]))
            && failure == (if n < |plan.pairs| then Some(TypeError) else plan.failure)
    ensures failure.None? ==> Mirrors(p.order, p.lists, done0 + ItemsPlan(target, items).pairs)
    ensures failure.None? ==> FiledAs(p.order, p.lists, old(p.order), old(p.lists), added, ItemsPlan(target, items).pairs)
    ensures failure.None? && old(p.AllSorted()) ==> p.AllSorted()
  {
    ghost var plan := ItemsPlan(target, items);
    ghost var done: seq<Pair> := [];
    ghost var order0, lists0 := p.order, p.lists;
    failure, added := None, [];
    ProgressStart(p, EnvOf(total), done0, plan);
    assert items[0..] == items;
    var j := 0;
    while j < |items|
      invariant j <= |items| && failure.None?
      invariant Progress(p, EnvOf(total), done0, done, added, order0, lists0, plan, ItemsPlan(target, items[j..]))
      invariant old(p.AllSorted()) ==> p.AllSorted()
    {
      ghost var next;
      failure, added, next := LoadItem(p, total, target, items, j, done0, done, added, order0, lists0, plan);
      if failure.Some? {
        return;
      }
      done := next;
      j := j + 1;
    }
    assert items[j..] == [];
    ProgressEnd(p, EnvOf(total), done0, done, added, order0, lists0, plan);
  }

  /** Lines 27-37 for one target: the checks of lines 27-30, then the inner loop. */
  method LoadTarget(p: TradingPipeline, total: Value, target: map<string, Value>, ghost done0: seq<Pair>)
    returns (failure: Option<PyError>, added: seq<TradingTrigger>)
    requires p.Valid() && Mirrors(p.order, p.lists, done0)
    modifies p
    ensures p.Valid()
    ensures var plan := TargetPlan(target, total);
            var n := Accepted(done0, plan.pairs);
            && |added| == n
            && (forall j :: 0 <= j < n ==> Built(added[j], EnvOf(total), plan.pairs[j]))
            && failure == (if n < |plan.pairs| then Some(TypeError) else plan.failure)
    ensures failure.None? ==> Mirrors(p.order, p.lists, done0 + TargetPlan(target, total).pairs)
    ensures failure.None? ==> FiledAs(p.order, p.lists, old(p.order), old(p.lists), added, TargetPlan(target, total).pairs)
    ensures failure.None? && old(p.AllSorted()) ==> p.AllSorted()
  {
    added := [];
    if "name" !in target {
      return Some(KeyError("name")), added;
    }
    if "holding_weight" !in target {
      return Some(KeyError("holding_weight")), added;
    }
    var share := TrueDiv(target["holding_weight"], total);
    if share.Err? {
      return Some(share.error), added;
    }
    if "strategies" !in target {
      return Some(KeyError("strategies")), added;
    }
    var items := StrategyItems(target["strategies"]);
    if items.Err? {
      return Some(items.error), added;
    }
    failure, added := LoadItems(p, total, target, items.value, done0);
  }

  /** One step of the outer loop: the target's plan comes next, and the rest
      of the configuration only when that target raised nothing. */
  lemma ConfigPlanStep(targets: seq<map<string, Value>>, i: nat, total: Value, done: seq<Pair>)
    requires i < |targets|
    ensures var tplan := TargetPlan(targets[i], total);
            var plan := Prepend(done, ConfigPlan(targets[i..], total));
            && |done| + |tplan.pairs| <= |plan.pairs|
            && plan.pairs[..|done| + |tplan.pairs|] == done + tplan.pairs
            && (tplan.failure.Some? ==> plan == Prepend(done, tplan))
            && (tplan.failure.None? ==> plan == Prepend(done + tplan.pairs, ConfigPlan(targets[i + 1..], total)))
  {
    assert targets[i..][0] == targets[i];
    assert targets[i..][1..] == targets[i + 1..];
  }

  /** One more trigger, built from the next pair of `pairs`. */
  lemma BuiltSnoc(added: seq<TradingTrigger>, t: TradingTrigger, envData: map<string, Value>, pairs: seq<Pair>)
    requires |added| < |pairs|
    requires forall m :: 0 <= m < |added| ==> Built(added[m], envData, pairs[m])
    requires Built(t, envData, pairs[|added|])
    ensures forall m :: 0 <= m < |added| + 1 ==> Built((added + [t])[m], envData, pairs[m])
  {
    forall m | 0 <= m < |added| + 1 ensures Built((added + [t])[m], envData, pairs[m]) {
      if m < |added| {
        assert (added + [t])[m] == added[m];
      }
    }
  }

  /** Triggers built from the pairs `done` and then from a prefix of `tpairs`
      line up with a plan that starts with `done + tpairs`. */
  lemma BuiltConcat(added: seq<TradingTrigger>, more: seq<TradingTrigger>, envData: map<string, Value>,
                    pairs: seq<Pair>, done: seq<Pair>, tpairs: seq<Pair>)
    requires |added| == |done| && |more| <= |tpairs|
    requires |done| + |tpairs| <= |pairs| && pairs[..|done| + |tpairs|] == done + tpairs
    requires forall m :: 0 <= m < |added| ==> Built(added[m], envData, pairs[m])
    requires forall m :: 0 <= m < |more| ==> Built(more[m], envData, tpairs[m])
    ensures forall m :: 0 <= m < |added + more| ==> Built((added + more)[m], envData, pairs[m])
  {
    forall m | 0 <= m < |added + more| ensures Built((added + more)[m], envData, pairs[m]) {
      if m >= |added| {
        assert pairs[m] == (done + tpairs)[m] == tpairs[m - |added|];
      }
    }
  }

  /** A target's pairs after pairs that were all taken: the count stops
      inside them when `add` raises on one, and otherwise goes on past them. */
  lemma AcceptedThrough(d: seq<Pair>, done: seq<Pair>, tpairs: seq<Pair>, rest: seq<Pair>)
    requires Accepted(d, done) == |done|
    ensures var nt := Accepted(d + done, tpairs);
            && (nt < |tpairs| ==> Accepted(d, done + tpairs + rest) == |done| + nt)
            && (nt == |tpairs| ==> Accepted(d, done + tpairs) == |done| + |tpairs|)
  {
    AcceptedAppend(d, done, tpairs);
    AcceptedAppend(d, done + tpairs, rest);
  }

  /** A target's pairs all taken after the pairs `done`: the loop has made
      progress over both. */
  lemma ProgressConcat(p: TradingPipeline, envData: map<string, Value>, done0: seq<Pair>, done: seq<Pair>, tpairs: seq<Pair>,
                       added: seq<TradingTrigger>, more: seq<TradingTrigger>,
                       order0: seq<HashKey>, lists0: seq<seq<TradingTrigger>>,
                       order1: seq<HashKey>, lists1: seq<seq<TradingTrigger>>, plan: Plan, rest: Plan)
    requires p.Valid() && |order0| == |lists0| && |order1| == |lists1|
    requires plan == Prepend(done + tpairs, rest)
    requires |added| == |done| == Accepted(done0, done)
    requires |more| == |tpairs| == Accepted(done0 + done, tpairs)
    requires forall m :: 0 <= m < |added + more| ==> Built((added + more)[m], envData, plan.pairs[m])
    requires Mirrors(p.order, p.lists, (done0 + done) + tpairs)
    requires FiledAs(order1, lists1, order0, lists0, added, done)
    requires FiledAs(p.order, p.lists, order1, lists1, more, tpairs)
    ensures Progress(p, envData, done0, done + tpairs, added + more, order0, lists0, plan, rest)
  {
    AcceptedAppend(done0, done, tpairs);
    PairsAssoc(done0, done, tpairs);
    FiledAsTrans(p.order, p.lists, order1, lists1, order0, lists0, added, done, more, tpairs);
  }

  /** One pass of the outer loop (lines 27-37 for `targets[i]`). */
  method LoadNext(p: TradingPipeline, total: Value, targets: seq<map<string, Value>>, i: nat,
                  ghost done0: seq<Pair>, ghost done: seq<Pair>, added: seq<TradingTrigger>,
                  ghost order0: seq<HashKey>, ghost lists0: seq<seq<TradingTrigger>>, ghost plan: Plan)
    returns (failure: Option<PyError>, added': seq<TradingTrigger>, ghost done': seq<Pair>)
    requires i < |targets| && Progress(p, EnvOf(total), done0, done, added, order0, lists0, plan, ConfigPlan(targets[i..], total))
    modifies p
    ensures p.Valid()
    ensures failure.Some? ==>
              var n := Accepted(done0, plan.pairs);
              && |added'| == n
              && (forall m :: 0 <= m < n ==> Built(added'[m], EnvOf(total), plan.pairs[m]))
              && failure == (if n < |plan.pairs| then Some(TypeError) else plan.failure)
    ensures failure.None? ==>
              Progress(p, EnvOf(total), done0, done', added', order0, lists0, plan, ConfigPlan(targets[i + 1..], total))
    ensures failure.None? && old(p.AllSorted()) ==> p.AllSorted()
  {
    ghost var tplan := TargetPlan(targets[i], total);
    ConfigPlanStep(targets, i, total, done);
    ghost var rest := plan.pairs[|done| + |tplan.pairs|..];
    assert plan.pairs == done + tplan.pairs + rest;
    AcceptedThrough(done0, done, tplan.pairs, rest);
    ghost var order1, lists1 := p.order, p.lists;
    var more;
    label beforeTarget:
    failure, more := LoadTarget(p, total, targets[i], done0 + done);
    BuiltFramed@beforeTarget(added);
    BuiltConcat(added, more, EnvOf(total), plan.pairs, done, tplan.pairs);
    added', done' := added + more, done + tplan.pairs;
    if failure.None? {
      ProgressConcat(p, EnvOf(total), done0, done, tplan.pairs, added, more, order0, lists0, order1, lists1,
                     plan, ConfigPlan(targets[i + 1..], total));
    }
  }

  /** Lines 26-37: the outer loop over the targets, adding to a pipeline that
      stands for the pairs `done0`. */
  method LoadAll(p: TradingPipeline, total: Value, targets: seq<map<string, Value>>, ghost done0: seq<Pair>)
    returns (failure: Option<PyError>, added: seq<TradingTrigger>)
    requires p.Valid() && Mirrors(p.order, p.lists, done0)
    modifies p
    ensures p.Valid()
    ensures var plan := ConfigPlan(targets, total);
            var n := Accepted(done0, plan.pairs);
            && |added| == n
            && (forall j :: 0 <= j < n ==> Built(added[j], EnvOf(total), plan.pairs[j]))
            && failure == (if n < |plan.pairs| then Some(TypeError) else plan.failure)
    ensures failure.None? ==> Mirrors(p.order, p.lists, done0 + ConfigPlan(targets, total).pairs)
    ensures failure.None? ==> FiledAs(p.order, p.lists, old(p.order), old(p.lists), added, ConfigPlan(targets, total).pairs)
    ensures failure.None? && old(p.AllSorted()) ==> p.AllSorted()
  {
    ghost var plan := ConfigPlan(targets, total);
    ghost var done: seq<Pair> := [];
    ghost var order0, lists0 := p.order, p.lists;
    failure, added := None, [];
    ProgressStart(p, EnvOf(total), done0, plan);
    assert targets[0..] == targets;
    var i := 0;
    while i < |targets|
      invariant i <= |targets| && failure.None?
      invariant Progress(p, EnvOf(total), done0, done, added, order0, lists0, plan, ConfigPlan(targets[i..], total))
      invariant old(p.AllSorted()) ==> p.AllSorted()
    {
      ghost var next;
      failure, added, next := LoadNext(p, total, targets, i, done0, done, added, order0, lists0, plan);
      if failure.Some? {
        return;
      }
      done := next;
      i := i + 1;
    }
    assert targets[i..] == [];
    ProgressEnd(p, EnvOf(total), done0, done, added, order0, lists0, plan);
  }

  /** Lines 18-37: the weights are summed and every target is loaded into a
      new pipeline; `failure` is the first exception raised: that of the
      weight sum, `add`'s TypeError on the first pair it cannot take, or the
      exception that ends the configuration plan. */
  method Populate(targets: seq<map<string, Value>>)
    returns (failure: Option<PyError>, p: TradingPipeline, added: seq<TradingTrigger>)
    ensures fresh(p) && p.Valid()
    ensures TotalWeight(targets).Err? ==> failure == Some(TotalWeight(targets).error) && added == [] && p.lists == []
    ensures TotalWeight(targets).Ok? ==>
              var total := TotalWeight(targets).value;
              var plan := ConfigPlan(targets, total);
              var n := Accepted([], plan.pairs);
              && |added| == n
              && (forall j :: 0 <= j < n ==> Built(added[j], EnvOf(total), plan.pairs[j]))
              && failure == (if n < |plan.pairs| then Some(TypeError) else plan.failure)
              && (failure.None? ==> p.AllSorted() && FiledAs(p.order, p.lists, [], [], added, plan.pairs))
  {
    p := new TradingPipeline();
    added := [];
    var total := SumWeights(targets);
    if total.Err? {
      return Some(total.error), p, added;
    }
    MirrorsEmpty();
    failure, added := LoadAll(p, total.value, targets, []);
  }

  /** Lines 18-42: the triggers are loaded and the pipeline is run once with a
      VIX of 30. `r` is how the script ends: the first exception raised, or
      what `execute` returns, which is the pipeline itself. */
  method Load(targets: seq<map<string, Value>>, external: External)
    returns (r: Result<TradingPipeline>, p: TradingPipeline, added: seq<TradingTrigger>, calls: seq<TradingTrigger>)
    ensures fresh(p) && p.Valid()
    ensures TotalWeight(targets).Err? ==> r == Err(TotalWeight(targets).error)
    ensures TotalWeight(targets).Ok? ==>
              var plan := ConfigPlan(targets, TotalWeight(targets).value);
              var n := Accepted([], plan.pairs);
              && |added| == n
              && r == (if n < |plan.pairs| then Err(TypeError)
                       else if plan.failure.Some? then Err(plan.failure.value)
                       else Ok(p))
    ensures r.Ok? ==> calls == Flatten(p.lists)
    ensures r.Err? ==> calls == []
  {
    var failure;
    failure, p, added := Populate(targets);
    calls := [];
    if failure.Some? {
      return Err(failure.value), p, added, calls;
    }
    var vix := map["vix" := Int(30)];
    var reg;
    r, reg, calls := p.Execute(vix, null, external);
    InspectNeverFails(vix, Flatten(p.lists), external);
  }
}
