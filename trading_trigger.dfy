/** A trading trigger: one environment, one target and one strategy, set in
    three stages by `Create`, `On` and `When`. Each stage updates the fields of
    the same object and hands it back, so a chain builds a single trigger. */
module Trigger {
  import opened PyValues
  import opened Pojo

  /** The share of the total holding weight that `On` stores in the target:
      the weight is looked up first, then the environment is dereferenced,
      then the division is done. */
  function HoldingShare(targetData: map<string, Value>, env: Option<Env>): (r: Result<Value>)
    ensures "holding_weight" !in targetData ==> r == Err(KeyError("holding_weight"))
    ensures "holding_weight" in targetData && env.None? ==> r == Err(AttributeError)
    ensures "holding_weight" in targetData && env.Some? ==>
              var w, total := targetData["holding_weight"], env.value.totalHoldingWeight;
              && (IsNumber(w) && IsNumber(total) && AsReal(total) == 0.0 ==> r == Err(ZeroDivisionError))
              && (!IsNumber(w) || !IsNumber(total) ==> r == Err(TypeError))
              && (IsNumber(w) && IsNumber(total) && AsReal(total) != 0.0 ==>
                    r == Ok(Real(AsReal(w) / AsReal(total))))
  {
    if "holding_weight" !in targetData then Err(KeyError("holding_weight"))
    else if env.None? then Err(AttributeError)
    else TrueDiv(targetData["holding_weight"], env.value.totalHoldingWeight)
  }

  /** Python's `a < a`: equal operands are never less, but `None` and dicts
      cannot be ordered at all. */
  function SelfLess(v: Value): (r: Result<bool>)
    ensures r != Ok(true)
    ensures r.Err? <==> v.NoneV? || v.Dict?
  {
    if v.NoneV? || v.Dict? then Err(TypeError) else Ok(false)
  }

  class TradingTrigger {
    var env: Option<Env>
    var target: Option<Target>
    var strategy: Option<Strategy>

    /** A trigger with nothing set. */
    constructor ()
      ensures env == None && target == None && strategy == None
    {
      env, target, strategy := None, None, None;
    }

    /** `create`: a fresh trigger holding `Env.from_dict(envData)` and no target or strategy. */
    static method Create(envData: map<string, Value>) returns (t: TradingTrigger)
      ensures fresh(t)
      ensures t.env == Some(EnvFromDict(envData))
      ensures t.target == None && t.strategy == None
    {
      t := new TradingTrigger();
      t.env := Some(EnvFromDict(envData));
    }

    /** `on`: the target is rebuilt from `targetData` first; its holding percentage
        is then overwritten by the holding share, whatever `targetData` said.
        When the share fails the exception leaves the rebuilt target in place. */
    method On(targetData: map<string, Value>) returns (r: Result<TradingTrigger>)
      modifies this
      ensures env == old(env) && strategy == old(strategy)
      ensures var share := HoldingShare(targetData, old(env));
              && (share.Ok? ==>
                    r == Ok(this) &&
                    target == Some(TargetFromDict(targetData).(holdingPercentage := share.value)))
              && (share.Err? ==> r == Err(share.error) && target == Some(TargetFromDict(targetData)))
    {
      target := Some(TargetFromDict(targetData));
      var share := HoldingShare(targetData, env);
      if share.Err? {
        return Err(share.error);
      }
      target := Some(target.value.(holdingPercentage := share.value));
      r := Ok(this);
    }

    /** `when`: the strategy is rebuilt from `strategyData`; nothing else changes. */
    method When(strategyData: map<string, Value>) returns (r: TradingTrigger)
      modifies this
      ensures r == this
      ensures strategy == Some(StrategyFromDict(strategyData))
      ensures env == old(env) && target == old(target)
    {
      strategy := Some(StrategyFromDict(strategyData));
      r := this;
    }

    /** `log` and `trade` both hand back the same trigger, so that calls
        chain; the debug line `log` writes is not modelled, and `trade` is
        `log` without it. */
    method Log() returns (r: TradingTrigger)
      ensures r == this
    {
      r := this;
    }

    method Trade() returns (r: TradingTrigger)
      ensures r == this
    {
      r := Log();
    }

    /** `__lt__` compares this trigger's own priority with itself, so it never
        answers True, whatever `other` is. */
    function LessThan(other: TradingTrigger): (r: Result<bool>)
      reads this
      ensures r != Ok(true)
      ensures strategy.None? ==> r == Err(AttributeError)
      ensures strategy.Some? ==> r == SelfLess(strategy.value.priority)
    {
      if strategy.None? then Err(AttributeError) else SelfLess(strategy.value.priority)
    }

    /** The comparison `__lt__` evidently means: this trigger's priority
        against `other`'s. Only numeric priorities are ordered here. */
    function PriorityLessThan(other: TradingTrigger): (r: Result<bool>)
      reads this, other
      ensures strategy.None? || other.strategy.None? ==> r == Err(AttributeError)
      ensures r.Ok? <==> && strategy.Some? && other.strategy.Some?
                          && IsNumber(strategy.value.priority) && IsNumber(other.strategy.value.priority)
      ensures r == Ok(true) ==> AsReal(strategy.value.priority) < AsReal(other.strategy.value.priority)
      ensures r == Ok(false) ==> AsReal(other.strategy.value.priority) <= AsReal(strategy.value.priority)
    {
      if strategy.None? || other.strategy.None? then Err(AttributeError)
      else
        var a, b := strategy.value.priority, other.strategy.value.priority;
        if IsNumber(a) && IsNumber(b) then Ok(AsReal(a) < AsReal(b)) else Err(TypeError)
    }

    /** `__eq__` raises ValueError on every comparison. */
    function Equals(other: TradingTrigger): (r: Result<bool>)
      ensures r == Err(ValueError)
    {
      Err(ValueError)
    }
  }

  /** `__lt__` as written answers False for a trigger of lower priority,
      where the intended comparison answers True. */
  lemma LessThanIgnoresOther(a: TradingTrigger, b: TradingTrigger)
    requires a.strategy == Some(Strategy(Str("low"), Int(1), Dict(map[])))
    requires b.strategy == Some(Strategy(Str("high"), Int(2), Dict(map[])))
    ensures a.LessThan(b) == Ok(false)
    ensures a.PriorityLessThan(b) == Ok(true)
  {
  }

  /** The intended comparison is a strict order: never both ways round, and
      never a trigger against itself. */
  lemma PriorityLessThanIsStrict(a: TradingTrigger, b: TradingTrigger)
    ensures a.PriorityLessThan(b) == Ok(true) ==> b.PriorityLessThan(a) == Ok(false)
    ensures a.PriorityLessThan(a) != Ok(true)
  {
  }

  /** The chain `create(env).on(target).when(strategy)`: one fresh trigger whose
      three fields come from the three dicts, or the exception raised by `on`. */
  method Build(envData: map<string, Value>, targetData: map<string, Value>,
               strategyData: map<string, Value>) returns (r: Result<TradingTrigger>)
    ensures var share := HoldingShare(targetData, Some(EnvFromDict(envData)));
            && (share.Err? <==> r.Err?)
            && (share.Err? ==> r.error == share.error)
            && (r.Ok? ==>
                  && fresh(r.value)
                  && r.value.env == Some(EnvFromDict(envData))
                  && r.value.target == Some(TargetFromDict(targetData).(holdingPercentage := share.value))
                  && r.value.strategy == Some(StrategyFromDict(strategyData)))
  {
    var t := TradingTrigger.Create(envData);
    var onResult := t.On(targetData);
    if onResult.Err? {
      return Err(onResult.error);
    }
    var u := onResult.value.When(strategyData);
    r := Ok(u);
  }
}
