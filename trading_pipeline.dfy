/** The trading pipeline: a dict from target name to the list of that target's
    triggers, each list re-sorted by strategy priority whenever a trigger is
    added. A Python dict iterates in first-insertion order, so the dict is kept
    as the sequence of its keys in that order plus a map from key to list. */
module Pipeline {
  import opened PyValues
  import opened Pojo
  import opened StableSort
  import opened Trigger
  import opened Registry

  /** Every trigger has a strategy, so every sort key can be computed. */
  predicate AllHaveStrategies(ts: seq<TradingTrigger>)
    reads set t | t in ts
  {
    forall i :: 0 <= i < |ts| ==> ts[i].strategy.Some?
  }

  /** The keys of `sorted(ts, key=lambda x: x.strategy.priority)`, computed for
      every element before any comparison; a trigger without a strategy raises
      AttributeError. */
  function SortKeys(ts: seq<TradingTrigger>): (r: Result<seq<Value>>)
    reads set t | t in ts
    ensures r.Err? <==> exists i :: 0 <= i < |ts| && ts[i].strategy.None?
    ensures r.Err? ==> r.error == AttributeError
    ensures r.Ok? ==> |r.value| == |ts| && forall i :: 0 <= i < |ts| ==> r.value[i] == ts[i].strategy.value.priority
  {
    if AllHaveStrategies(ts) then
      Ok(seq(|ts|, i reads set t | t in ts requires 0 <= i < |ts| =>
               if ts[i].strategy.Some? then ts[i].strategy.value.priority else NoneV))
    else Err(AttributeError)
  }

  predicate AllNumbers(keys: seq<Value>) {
    forall i :: 0 <= i < |keys| ==> IsNumber(keys[i])
  }

  function Decorate(ts: seq<TradingTrigger>, keys: seq<Value>): (d: seq<Keyed<TradingTrigger>>)
    requires |keys| == |ts| && AllNumbers(keys)
    ensures |d| == |ts|
    ensures forall i :: 0 <= i < |d| ==> d[i] == Keyed(AsReal(keys[i]), ts[i])
  {
    seq(|ts|, i requires 0 <= i < |ts| => Keyed(AsReal(keys[i]), ts[i]))
  }

  /** `sorted` once the keys are known. Comparing a number with anything that is
      not a number raises TypeError, and a list of two or more elements compares
      every element at least once; a shorter list is never compared. Only the
      keys are compared, never the triggers themselves. */
  function SortTriggers(ts: seq<TradingTrigger>, keys: seq<Value>): Result<seq<TradingTrigger>>
    requires |keys| == |ts|
  {
    if !AllNumbers(keys) then
      if |ts| >= 2 then Err(TypeError) else Ok(ts)
    else
      Ok(Items(SortByKey(Decorate(ts, keys))))
  }

  /** Sorting fails only on keys that cannot be compared, and otherwise
      permutes the triggers. */
  lemma SortTriggersPermutes(ts: seq<TradingTrigger>, keys: seq<Value>)
    requires |keys| == |ts|
    ensures SortTriggers(ts, keys).Err? <==> |ts| >= 2 && !AllNumbers(keys)
    ensures SortTriggers(ts, keys).Err? ==> SortTriggers(ts, keys).error == TypeError
    ensures SortTriggers(ts, keys).Ok? ==> multiset(SortTriggers(ts, keys).value) == multiset(ts)
  {
    if AllNumbers(keys) {
      var d := Decorate(ts, keys);
      SortItems(d);
      ItemsOfDecorate(ts, keys);
    }
  }

  /** `sorted(ts, key=lambda x: x.strategy.priority)`. */
  function SortResult(ts: seq<TradingTrigger>): (r: Result<seq<TradingTrigger>>)
    reads set t | t in ts
  {
    var keys := SortKeys(ts);
    if keys.Err? then Err(keys.error) else SortTriggers(ts, keys.value)
  }

  lemma ItemsOfDecorate(ts: seq<TradingTrigger>, keys: seq<Value>)
    requires |keys| == |ts| && AllNumbers(keys)
    ensures Items(Decorate(ts, keys)) == ts
  {
  }

  /** `a` comes no later than `b` in priority order. */
  ghost predicate PriorityLe(a: Option<Strategy>, b: Option<Strategy>) {
    && a.Some? && b.Some?
    && IsNumber(a.value.priority) && IsNumber(b.value.priority)
    && AsReal(a.value.priority) <= AsReal(b.value.priority)
  }

  /** Every trigger has a strategy and the list ascends by priority. */
  ghost predicate PrioritySorted(ts: seq<TradingTrigger>)
    reads set t | t in ts
  {
    && (forall i :: 0 <= i < |ts| ==> ts[i].strategy.Some?)
    && (forall i, j :: 0 <= i < j < |ts| ==> PriorityLe(ts[i].strategy, ts[j].strategy))
  }

  /** A decorated trigger whose key is its own numeric priority. */
  ghost predicate KeyedByPriority(x: Keyed<TradingTrigger>)
    reads x.item
  {
    && x.item.strategy.Some?
    && IsNumber(x.item.strategy.value.priority)
    && x.key == AsReal(x.item.strategy.value.priority)
  }

  lemma DecoratedByPriority(ts: seq<TradingTrigger>, k: seq<Value>)
    requires SortKeys(ts) == Ok(k) && AllNumbers(k)
    ensures forall x :: x in Decorate(ts, k) ==> KeyedByPriority(x)
  {
  }

  lemma SortedByPriority(s: seq<Keyed<TradingTrigger>>)
    requires Sorted(s)
    requires forall x :: x in s ==> KeyedByPriority(x)
    ensures PrioritySorted(Items(s))
  {
    var r := Items(s);
    forall i, j | 0 <= i < j < |r| ensures PriorityLe(r[i].strategy, r[j].strategy) {
      assert KeyedByPriority(s[i]) && KeyedByPriority(s[j]);
    }
    forall i | 0 <= i < |r| ensures r[i].strategy.Some? {
      assert KeyedByPriority(s[i]);
    }
  }

  /** `sorted` raises exactly when a trigger has no strategy, or when a list of
      two or more holds a priority that is not a number. */
  lemma SortResultFails(ts: seq<TradingTrigger>)
    ensures SortResult(ts).Err? <==>
              (exists i :: 0 <= i < |ts| && ts[i].strategy.None?) ||
              (|ts| >= 2 && exists i :: 0 <= i < |ts| && !IsNumber(ts[i].strategy.value.priority))
  {
    var keys := SortKeys(ts);
    if keys.Ok? {
      var k := keys.value;
      SortTriggersPermutes(ts, k);
      if |ts| >= 2 && !AllNumbers(k) {
        var i :| 0 <= i < |k| && !IsNumber(k[i]);
        assert !IsNumber(ts[i].strategy.value.priority);
      }
    }
  }

  /** What `sorted` produces is a permutation of its input that ascends by priority. */
  lemma SortResultSorted(ts: seq<TradingTrigger>)
    requires SortResult(ts).Ok?
    ensures multiset(SortResult(ts).value) == multiset(ts)
    ensures PrioritySorted(SortResult(ts).value)
  {
    var k := SortKeys(ts).value;
    SortTriggersPermutes(ts, k);
    if AllNumbers(k) {
      var d := Decorate(ts, k);
      var s: seq<Keyed<TradingTrigger>> := SortByKey(d);
      DecoratedByPriority(ts, k);
      forall x | x in s ensures KeyedByPriority(x) {
        assert x in multiset(d);
      }
      SortedByPriority(s);
    } else {
      assert |ts| <= 1;
    }
  }

  /** Sorting a list that already ascends by priority leaves it as it is. */
  lemma SortedListIsFixpoint(ts: seq<TradingTrigger>)
    requires PrioritySorted(ts)
    ensures SortResult(ts) == Ok(ts)
  {
    var k := SortKeys(ts).value;
    if |ts| >= 2 {
      forall i | 0 <= i < |ts| ensures IsNumber(k[i]) {
        if i == 0 { assert PriorityLe(ts[0].strategy, ts[1].strategy); } else { assert PriorityLe(ts[0].strategy, ts[i].strategy); }
      }
    }
    if AllNumbers(k) {
      var d := Decorate(ts, k);
      assert Sorted(d);
      SortedIsFixpoint(d);
      ItemsOfDecorate(ts, k);
    }
  }

  /** `sorted` applied twice gives what it gave once. */
  lemma SortResultIdempotent(ts: seq<TradingTrigger>)
    requires SortResult(ts).Ok?
    ensures SortResult(SortResult(ts).value) == SortResult(ts)
  {
    SortResultSorted(ts);
    SortedListIsFixpoint(SortResult(ts).value);
  }

  /** In a list that ascends by priority no trigger is less, under the
      intended comparison, than one before it. */
  lemma SortedHasNoInversion(ts: seq<TradingTrigger>, i: int, j: int)
    requires PrioritySorted(ts) && 0 <= i < j < |ts|
    ensures ts[j].PriorityLessThan(ts[i]) == Ok(false)
  {
    assert PriorityLe(ts[i].strategy, ts[j].strategy);
  }

  /** Two triggers of equal priority keep the order in which they were added. */
  lemma SortResultIsStable(ts: seq<TradingTrigger>, k: real)
    requires SortKeys(ts).Ok? && AllNumbers(SortKeys(ts).value)
    ensures SortResult(ts) == Ok(Items(SortByKey(Decorate(ts, SortKeys(ts).value))))
    ensures WithKey(SortByKey(Decorate(ts, SortKeys(ts).value)), k) == WithKey(Decorate(ts, SortKeys(ts).value), k)
  {
    SortIsStable(Decorate(ts, SortKeys(ts).value), k);
  }

  /** The triggers of all lists, one list after the other. */
  function Flatten(lists: seq<seq<TradingTrigger>>): seq<TradingTrigger> {
    if lists == [] then [] else Flatten(lists[..|lists| - 1]) + lists[|lists| - 1]
  }

  lemma FlattenStep(lists: seq<seq<TradingTrigger>>, i: nat)
    requires i < |lists|
    ensures Flatten(lists[..i + 1]) == Flatten(lists[..i]) + lists[i]
  {
    assert lists[..i + 1][..i] == lists[..i];
  }

  /** The `j`-th trigger of the `i`-th list, among all triggers. */
  lemma FlattenAt(lists: seq<seq<TradingTrigger>>, i: nat, j: nat)
    requires i < |lists| && j < |lists[i]|
    ensures |Flatten(lists[..i])| + j < |Flatten(lists)|
    ensures Flatten(lists)[|Flatten(lists[..i])| + j] == lists[i][j]
  {
    FlattenStep(lists, i);
    FlattenPrefix(lists, i + 1);
  }

  /** The triggers of the first `m` lists come first among all triggers. */
  lemma {:induction false} FlattenPrefix(lists: seq<seq<TradingTrigger>>, m: nat)
    requires m <= |lists|
    ensures |Flatten(lists[..m])| <= |Flatten(lists)|
    ensures Flatten(lists[..m]) == Flatten(lists)[..|Flatten(lists[..m])|]
    decreases |lists| - m
  {
    if m < |lists| {
      FlattenPrefix(lists, m + 1);
      assert lists[..m + 1][..m] == lists[..m];
    } else {
      assert lists[..m] == lists;
    }
  }

  ghost predicate Distinct(keys: seq<HashKey>) {
    forall i, j :: 0 <= i < j < |keys| ==> keys[i] != keys[j]
  }

  /** The position of `k` among the keys. */
  function Position(keys: seq<HashKey>, k: HashKey): (p: nat)
    requires k in keys
    ensures p < |keys| && keys[p] == k
    ensures forall i :: 0 <= i < p ==> keys[i] != k
  {
    if keys[0] == k then 0 else 1 + Position(keys[1..], k)
  }

  /** What "inspect" does to a trigger, in a registry whose table is `fns`
      and whose environment is `env`. */
  function Inspector(fns: map<string, Fn>, env: map<string, Value>, external: External): TradingTrigger -> Result<Value>
  {
    (t: TradingTrigger) => Lookup(fns, env, "inspect", [Trig(t)], external)
  }

  /** The list stored under `k` in a dict kept as keys and, position by
      position, lists; the empty list for a key that is not there. */
  function ListOf(order: seq<HashKey>, lists: seq<seq<TradingTrigger>>, k: HashKey): seq<TradingTrigger>
    requires |lists| == |order|
  {
    if k in order then lists[Position(order, k)] else []
  }

  lemma {:induction false} PositionPrefix(keys: seq<HashKey>, more: seq<HashKey>, k: HashKey)
    requires k in keys
    ensures Position(keys + more, k) == Position(keys, k)
  {
    if keys[0] != k {
      assert (keys + more)[1..] == keys[1..] + more;
      PositionPrefix(keys[1..], more, k);
    }
  }

  /** Storing a list under `k` leaves the list under every other key as it was. */
  lemma OthersKept(order: seq<HashKey>, lists: seq<seq<TradingTrigger>>,
                   order': seq<HashKey>, lists': seq<seq<TradingTrigger>>, k: HashKey)
    requires |lists| == |order| && |lists'| == |order'|
    requires order' == order + (if k in order then [] else [k])
    requires forall i :: 0 <= i < |lists| && order'[i] != k ==> lists'[i] == lists[i]
    ensures forall k' :: k' != k ==> ListOf(order', lists', k') == ListOf(order, lists, k')
  {
    forall k' | k' != k ensures ListOf(order', lists', k') == ListOf(order, lists, k') {
      if k' in order {
        PositionPrefix(order, if k in order then [] else [k], k');
      }
    }
  }

  /** The position of the first trigger in `xs` on which "inspect" raises,
      or `|xs|` when it raises on none. */
  function FirstFailure(inspect: TradingTrigger -> Result<Value>, xs: seq<TradingTrigger>): (f: nat)
    ensures f <= |xs|
    ensures forall c :: 0 <= c < f ==> inspect(xs[c]).Ok?
    ensures f < |xs| ==> inspect(xs[f]).Err?
    decreases |xs|
  {
    if xs == [] then 0
    else if inspect(xs[0]).Err? then 0
    else 1 + FirstFailure(inspect, xs[1..])
  }

  /** Running "inspect" over `a` and then `b` stops where it stops in `a`, or
      else where it stops in `b`. */
  lemma {:induction false} FirstFailureAppend(inspect: TradingTrigger -> Result<Value>,
                                              a: seq<TradingTrigger>, b: seq<TradingTrigger>)
    ensures FirstFailure(inspect, a + b) ==
              if FirstFailure(inspect, a) < |a| then FirstFailure(inspect, a)
              else |a| + FirstFailure(inspect, b)
    decreases |a|
  {
    if a == [] {
      assert a + b == b;
    } else {
      assert (a + b)[0] == a[0] && (a + b)[1..] == a[1..] + b;
      FirstFailureAppend(inspect, a[1..], b);
    }
  }

  /** When the triggers of the first `i` lists all pass and list `i` holds a
      failing one, the pass over all lists stops at that trigger. */
  lemma StopsInList(inspect: TradingTrigger -> Result<Value>, lists: seq<seq<TradingTrigger>>, i: nat)
    requires i < |lists|
    requires FirstFailure(inspect, Flatten(lists[..i])) == |Flatten(lists[..i])|
    requires FirstFailure(inspect, lists[i]) < |lists[i]|
    ensures var all, f := Flatten(lists), FirstFailure(inspect, lists[i]);
            var g := FirstFailure(inspect, all);
            && g == |Flatten(lists[..i])| + f < |all|
            && all[..g + 1] == Flatten(lists[..i]) + lists[i][..f + 1]
            && all[g] == lists[i][f]
  {
    var all, done := Flatten(lists), Flatten(lists[..i + 1]);
    FlattenStep(lists, i);
    FirstFailureAppend(inspect, Flatten(lists[..i]), lists[i]);
    FlattenPrefix(lists, i + 1);
    assert all == done + all[|done|..];
    FirstFailureAppend(inspect, done, all[|done|..]);
    var f := FirstFailure(inspect, lists[i]);
    assert all[..|Flatten(lists[..i])| + f + 1] == done[..|Flatten(lists[..i])| + f + 1];
    assert all[|Flatten(lists[..i])| + f] == done[|Flatten(lists[..i])| + f];
  }

  /** `StrategyRegister(env)` as `execute` calls it: the first call builds the
      registry with `env` and the default table; a later one returns the
      existing registry untouched. */
  method Obtain(env: map<string, Value>, register: StrategyRegister?) returns (reg: StrategyRegister)
    ensures register != null ==> reg == register && unchanged(register)
    ensures register == null ==> fresh(reg) && reg.env == env && reg.functions == DefaultFunctions
  {
    if register == null {
      reg := new StrategyRegister(env);
    } else {
      reg := register;
      reg.Reinit(env);
    }
  }

  /** When every trigger of the first `i` lists and of list `i` passes, every
      trigger of the first `i + 1` lists passes. */
  lemma PassesList(inspect: TradingTrigger -> Result<Value>, lists: seq<seq<TradingTrigger>>, i: nat)
    requires i < |lists|
    requires FirstFailure(inspect, Flatten(lists[..i])) == |Flatten(lists[..i])|
    requires FirstFailure(inspect, lists[i]) == |lists[i]|
    ensures Flatten(lists[..i + 1]) == Flatten(lists[..i]) + lists[i]
    ensures FirstFailure(inspect, Flatten(lists[..i + 1])) == |Flatten(lists[..i + 1])|
  {
    FlattenStep(lists, i);
    FirstFailureAppend(inspect, Flatten(lists[..i]), lists[i]);
  }

  /** The inner loop of `execute`: "inspect" on each trigger of one list until
      one raises. `n` triggers are called; `err` is what the last one raised. */
  method InspectEach(reg: StrategyRegister, ts: seq<TradingTrigger>, external: External,
                     ghost inspect: TradingTrigger -> Result<Value>)
    returns (n: nat, err: Option<PyError>)
    requires inspect == Inspector(reg.functions, reg.env, external)
    ensures var f := FirstFailure(inspect, ts);
            && n == (if f < |ts| then f + 1 else |ts|)
            && err == (if f < |ts| then Some(inspect(ts[f]).error) else None)
  {
    n := 0;
    while n < |ts|
      invariant n <= |ts| && n <= FirstFailure(inspect, ts)
    {
      var result := reg.Call("inspect", [Trig(ts[n])], external);
      n := n + 1;
      if result.Err? {
        return n, Some(result.error);
      }
    }
    err := None;
  }

  /** The two loops of `execute` over the lists in iteration order: "inspect"
      on every trigger until one raises. */
  method InspectLists(reg: StrategyRegister, lists: seq<seq<TradingTrigger>>, external: External,
                      ghost inspect: TradingTrigger -> Result<Value>)
    returns (err: Option<PyError>, calls: seq<TradingTrigger>)
    requires inspect == Inspector(reg.functions, reg.env, external)
    ensures var all := Flatten(lists);
            var f := FirstFailure(inspect, all);
            && calls == all[..if f < |all| then f + 1 else f]
            && err == (if f < |all| then Some(inspect(all[f]).error) else None)
  {
    calls := [];
    var i := 0;
    while i < |lists|
      invariant 0 <= i <= |lists|
      invariant calls == Flatten(lists[..i])
      invariant FirstFailure(inspect, calls) == |calls|
    {
      var ts := lists[i];
      var n, e := InspectEach(reg, ts, external, inspect);
      if e.Some? {
        StopsInList(inspect, lists, i);
        return e, calls + ts[..n];
      }
      PassesList(inspect, lists, i);
      calls := calls + ts;
      i := i + 1;
    }
    assert lists[..i] == lists;
    assert calls == calls[..|calls|];
    err := None;
  }

  /** Every trigger in `lists`. */
  ghost function TriggersOf(lists: seq<seq<TradingTrigger>>): set<TradingTrigger>
  {
    set i, t | 0 <= i < |lists| && t in lists[i] :: t
  }

  /** Every list ascends by priority. */
  ghost predicate EachSorted(lists: seq<seq<TradingTrigger>>)
    reads TriggersOf(lists)
  {
    forall i :: 0 <= i < |lists| ==> PrioritySorted(lists[i])
  }

  /** The loop of `sort`: each list in turn replaced by its sorted copy until
      one cannot be sorted; `sorted` is what the lists are when the loop stops. */
  method SortLists(lists: seq<seq<TradingTrigger>>) returns (err: Option<PyError>, sorted: seq<seq<TradingTrigger>>)
    ensures |sorted| == |lists|
    ensures err.None? ==> forall i :: 0 <= i < |lists| ==> SortResult(lists[i]) == Ok(sorted[i])
    ensures err.Some? ==>
              exists f :: 0 <= f < |lists| && SortResult(lists[f]) == Err(err.value) &&
                (forall i :: 0 <= i < f ==> SortResult(lists[i]) == Ok(sorted[i])) &&
                (forall i :: f <= i < |lists| ==> sorted[i] == lists[i])
    ensures EachSorted(lists) ==> err.None? && sorted == lists
  {
    sorted := lists;
    var i := 0;
    while i < |lists|
      invariant 0 <= i <= |lists| == |sorted|
      invariant forall m :: 0 <= m < i ==> SortResult(lists[m]) == Ok(sorted[m])
      invariant forall m :: i <= m < |lists| ==> sorted[m] == lists[m]
      invariant EachSorted(lists) ==> sorted == lists
    {
      var s := SortResult(lists[i]);
      if EachSorted(lists) {
        SortedListIsFixpoint(lists[i]);
      }
      if s.Err? {
        return Some(s.error), sorted;
      }
      sorted := sorted[i := s.value];
      i := i + 1;
    }
    err := None;
  }

  /** Sorting and sortedness depend only on the triggers themselves. */
  twostate lemma SortingIsFramed(ts: seq<TradingTrigger>)
    requires unchanged(set t | t in ts)
    ensures old(SortResult(ts)) == SortResult(ts)
    ensures old(PrioritySorted(ts)) == PrioritySorted(ts)
  {
  }

  /** A change to the pipeline's lists in which every list that is new or
      different is sorted keeps every list sorted, provided the triggers
      themselves are untouched. */
  twostate lemma ChangeKeepsSorted(p: TradingPipeline)
    requires old(p.AllSorted()) && |old(p.lists)| <= |p.lists|
    requires forall i :: 0 <= i < |p.lists| && (i < |old(p.lists)| ==> p.lists[i] != old(p.lists)[i]) ==>
               PrioritySorted(p.lists[i])
    requires unchanged(old(p.Triggers()))
    ensures p.AllSorted()
  {
    forall i | 0 <= i < |p.lists| ensures PrioritySorted(p.lists[i]) {
      if i < |old(p.lists)| && p.lists[i] == old(p.lists)[i] {
        var l := old(p.lists)[i];
        assert old(PrioritySorted(l));
        assert forall t | t in l :: t in old(p.Triggers());
        SortingIsFramed(l);
      }
    }
  }

  /** The pipeline's dict from target name to trigger list. A Python dict
      iterates in first-insertion order, so it is kept as its keys in that
      order and, position by position, the list stored under each key. */
  class TradingPipeline {
    var order: seq<HashKey>
    var lists: seq<seq<TradingTrigger>>

    /** One list per key, and no key twice. */
    ghost predicate Valid()
      reads this
    {
      |lists| == |order| && Distinct(order)
    }

    ghost function Triggers(): set<TradingTrigger>
      reads this
    {
      TriggersOf(lists)
    }

    /** Every list ascends by priority, as `add` leaves it. */
    ghost predicate AllSorted()
      reads this, Triggers()
    {
      EachSorted(lists)
    }

    /** The list stored under `k`, or the empty list `add` starts a new key with. */
    function ListAt(k: HashKey): seq<TradingTrigger>
      requires Valid()
      reads this
    {
      ListOf(order, lists, k)
    }

    /** The pipeline is created empty. */
    constructor ()
      ensures Valid() && order == [] && lists == []
    {
      order, lists := [], [];
    }

    /** `add`: the target's name is hashed first; a new name is appended last to
        the iteration order with an empty list; the trigger is appended; the
        list is sorted. If sorting raises, the name and the appended trigger
        stay in place. Duplicate priorities are accepted. */
    method Add(trigger: TradingTrigger) returns (r: Result<TradingPipeline>)
      requires Valid()
      modifies this
      ensures Valid()
      ensures trigger.target.None? ==> r == Err(AttributeError) && unchanged(this)
      ensures trigger.target.Some? && KeyOf(trigger.target.value.name).Err? ==>
                r == Err(TypeError) && unchanged(this)
      ensures trigger.target.Some? && KeyOf(trigger.target.value.name).Ok? ==>
                var k := KeyOf(trigger.target.value.name).value;
                var appended := old(ListAt(k)) + [trigger];
                var sorted := old(SortResult(appended));
                && order == old(order) + (if k in old(order) then [] else [k])
                && lists[Position(order, k)] == (if sorted.Ok? then sorted.value else appended)
                && (forall i :: 0 <= i < |old(lists)| && order[i] != k ==> lists[i] == old(lists)[i])
                && (forall k' :: k' != k ==> ListAt(k') == old(ListAt(k')))
                && r == (if sorted.Ok? then Ok(this) else Err(sorted.error))
      ensures r.Ok? ==>
                var k := KeyOf(trigger.target.value.name).value;
                && PrioritySorted(ListAt(k))
                && multiset(ListAt(k)) == multiset(old(ListAt(k))) + multiset{trigger}
      ensures r.Ok? && old(AllSorted()) ==> AllSorted()
    {
      if trigger.target.None? {
        return Err(AttributeError);
      }
      var key := KeyOf(trigger.target.value.name);
      if key.Err? {
        return Err(key.error);
      }
      r := AddUnder(key.value, trigger);
    }

    /** The part of `add` after the name is hashed to `k`. */
    method AddUnder(k: HashKey, trigger: TradingTrigger) returns (r: Result<TradingPipeline>)
      requires Valid()
      modifies this
      ensures Valid()
      ensures order == old(order) + (if k in old(order) then [] else [k])
      ensures var appended := old(ListAt(k)) + [trigger];
              var sorted := old(SortResult(appended));
              && lists[Position(order, k)] == (if sorted.Ok? then sorted.value else appended)
              && r == (if sorted.Ok? then Ok(this) else Err(sorted.error))
      ensures forall i :: 0 <= i < |old(lists)| && order[i] != k ==> lists[i] == old(lists)[i]
      ensures forall k' :: k' != k ==> ListAt(k') == old(ListAt(k'))
      ensures r.Ok? ==>
                && PrioritySorted(ListAt(k))
                && multiset(ListAt(k)) == multiset(old(ListAt(k))) + multiset{trigger}
      ensures r.Ok? && old(AllSorted()) ==> AllSorted()
    {
      var appended := ListAt(k) + [trigger];
      var sorted := SortResult(appended);
      var stored := if sorted.Ok? then sorted.value else appended;
      if sorted.Ok? {
        SortResultSorted(appended);
      }
      Store(k, stored);
      r := if sorted.Ok? then Ok(this) else Err(sorted.error);
    }

    /** Stores `stored` under `k`, appending `k` to the iteration order if it is new. */
    method Store(k: HashKey, stored: seq<TradingTrigger>)
      requires Valid()
      modifies this
      ensures Valid()
      ensures order == old(order) + (if k in old(order) then [] else [k])
      ensures lists[Position(order, k)] == stored && ListAt(k) == stored
      ensures forall i :: 0 <= i < |old(lists)| && order[i] != k ==> lists[i] == old(lists)[i]
      ensures forall k' :: k' != k ==> ListAt(k') == old(ListAt(k'))
      ensures old(PrioritySorted(stored)) ==> PrioritySorted(stored)
      ensures old(PrioritySorted(stored)) && old(AllSorted()) ==> AllSorted()
    {
      var p, order', lists';
      if k in order {
        p, order', lists' := Position(order, k), order, lists;
      } else {
        p, order', lists' := |order|, order + [k], lists + [[]];
      }
      order, lists := order', lists'[p := stored];
      OthersKept(old(order), old(lists), order, lists, k);
      if old(PrioritySorted(stored)) {
        SortingIsFramed(stored);
        if old(AllSorted()) {
          ChangeKeepsSorted(this);
        }
      }
    }

    /** `sort`: re-sorts every list in iteration order. If a list cannot be
        sorted the exception stops the loop: the lists before it are sorted,
        it and the lists after it are as they were. */
    method Sort() returns (r: Result<TradingPipeline>)
      requires Valid()
      modifies this
      ensures Valid() && order == old(order) && |lists| == |old(lists)|
      ensures r.Ok? ==> r.value == this && forall i :: 0 <= i < |lists| ==> old(SortResult(lists[i])) == Ok(lists[i])
      ensures r.Err? ==>
                exists f :: 0 <= f < |lists| && old(SortResult(lists[f])) == Err(r.error) &&
                  (forall i :: 0 <= i < f ==> old(SortResult(lists[i])) == Ok(lists[i])) &&
                  (forall i :: f <= i < |lists| ==> lists[i] == old(lists)[i])
      ensures old(AllSorted()) ==> r.Ok? && lists == old(lists)
    {
      var err, sortedLists := SortLists(lists);
      lists := sortedLists;
      r := if err.Some? then Err(err.value) else Ok(this);
    }

    /** `execute`: obtains the registry (building it only if none exists yet,
        so an existing registry keeps its first environment) and calls
        "inspect" on every trigger, target by target in iteration order and
        within a target in list order. The first exception stops the pass and
        is raised; the pipeline itself is not changed. */
    method Execute(env: map<string, Value>, register: StrategyRegister?, external: External)
      returns (r: Result<TradingPipeline>, reg: StrategyRegister, calls: seq<TradingTrigger>)
      ensures register != null ==> reg == register && unchanged(register)
      ensures register == null ==> fresh(reg) && reg.env == env && reg.functions == DefaultFunctions
      ensures var all := Flatten(lists);
              var inspect := Inspector(reg.functions, reg.env, external);
              var f := FirstFailure(inspect, all);
              && calls == all[..if f < |all| then f + 1 else f]
              && r == (if f < |all| then Err(inspect(all[f]).error) else Ok(this))
    {
      reg := Obtain(env, register);
      r, calls := InspectAll(reg, external);
    }

    /** The loop of `execute` over every list, with the registry in hand. */
    method InspectAll(reg: StrategyRegister, external: External)
      returns (r: Result<TradingPipeline>, calls: seq<TradingTrigger>)
      ensures var all := Flatten(lists);
              var inspect := Inspector(reg.functions, reg.env, external);
              var f := FirstFailure(inspect, all);
              && calls == all[..if f < |all| then f + 1 else f]
              && r == (if f < |all| then Err(inspect(all[f]).error) else Ok(this))
    {
      var err;
      err, calls := InspectLists(reg, lists, external, Inspector(reg.functions, reg.env, external));
      r := if err.Some? then Err(err.value) else Ok(this);
    }
  }
}
