/** The three descriptor records and their `from_dict` constructors.
    A constructor keeps only the keys that name a field of the record,
    copies those values unchanged and gives every other field its default. */
module Pojo {
  import opened PyValues

  datatype Env = Env(totalHoldingWeight: Value)
  datatype Target = Target(name: Value, holdingPercentage: Value)
  datatype Strategy = Strategy(name: Value, priority: Value, params: Value)

  const EnvFields: set<string> := {"total_holding_weight"}
  const TargetFields: set<string> := {"name", "holding_percentage"}
  const StrategyFields: set<string> := {"name", "priority", "params"}

  /** The defaults declared on the records. */
  const DefaultTotalHoldingWeight: Value := Real(0.0)
  const DefaultTargetName: Value := Str("")
  const DefaultHoldingPercentage: Value := Real(0.0)
  const DefaultStrategyName: Value := Str("")
  const DefaultPriority: Value := Int(-1)
  const DefaultParams: Value := Dict(map[])

  /** The dict comprehension that drops every key that is not a field name. */
  function Whitelist(data: map<string, Value>, fields: set<string>): (filtered: map<string, Value>)
    ensures filtered.Keys == data.Keys * fields
    ensures forall k :: k in filtered ==> filtered[k] == data[k]
  {
    map k | k in data && k in fields :: data[k]
  }

  /** A keyword argument of the record constructor: the given value or the default. */
  function Field(kwargs: map<string, Value>, name: string, default: Value): Value {
    if name in kwargs then kwargs[name] else default
  }

  /** What a field of a record built from `data` holds. */
  ghost predicate CopiedOrDefault(data: map<string, Value>, name: string, default: Value, v: Value) {
    v == if name in data then data[name] else default
  }

  function EnvFromDict(data: map<string, Value>): (e: Env)
    ensures CopiedOrDefault(data, "total_holding_weight", DefaultTotalHoldingWeight, e.totalHoldingWeight)
  {
    var kwargs := Whitelist(data, EnvFields);
    Env(Field(kwargs, "total_holding_weight", DefaultTotalHoldingWeight))
  }

  function TargetFromDict(data: map<string, Value>): (t: Target)
    ensures CopiedOrDefault(data, "name", DefaultTargetName, t.name)
    ensures CopiedOrDefault(data, "holding_percentage", DefaultHoldingPercentage, t.holdingPercentage)
  {
    var kwargs := Whitelist(data, TargetFields);
    Target(Field(kwargs, "name", DefaultTargetName),
           Field(kwargs, "holding_percentage", DefaultHoldingPercentage))
  }

  function StrategyFromDict(data: map<string, Value>): (s: Strategy)
    ensures CopiedOrDefault(data, "name", DefaultStrategyName, s.name)
    ensures CopiedOrDefault(data, "priority", DefaultPriority, s.priority)
    ensures CopiedOrDefault(data, "params", DefaultParams, s.params)
  {
    var kwargs := Whitelist(data, StrategyFields);
    Strategy(Field(kwargs, "name", DefaultStrategyName),
             Field(kwargs, "priority", DefaultPriority),
             Field(kwargs, "params", DefaultParams))
  }

  /** `dataclasses.asdict`: one entry per field, and `from_dict` rebuilds the record. */
  function EnvAsDict(e: Env): (d: map<string, Value>)
    ensures d.Keys == EnvFields
    ensures EnvFromDict(d) == e
  {
    map["total_holding_weight" := e.totalHoldingWeight]
  }

  function TargetAsDict(t: Target): (d: map<string, Value>)
    ensures d.Keys == TargetFields
    ensures TargetFromDict(d) == t
  {
    map["name" := t.name, "holding_percentage" := t.holdingPercentage]
  }

  function StrategyAsDict(s: Strategy): (d: map<string, Value>)
    ensures d.Keys == StrategyFields
    ensures StrategyFromDict(d) == s
  {
    map["name" := s.name, "priority" := s.priority, "params" := s.params]
  }

  /** Two inputs that agree on the field names build the same record:
      keys outside the whitelist never affect the result. */
  ghost predicate AgreeOn(d1: map<string, Value>, d2: map<string, Value>, fields: set<string>) {
    forall k :: k in fields ==> (k in d1 <==> k in d2) && (k in d1 ==> d1[k] == d2[k])
  }

  lemma FromDictIgnoresExtraKeys(d1: map<string, Value>, d2: map<string, Value>)
    ensures AgreeOn(d1, d2, EnvFields) ==> EnvFromDict(d1) == EnvFromDict(d2)
    ensures AgreeOn(d1, d2, TargetFields) ==> TargetFromDict(d1) == TargetFromDict(d2)
    ensures AgreeOn(d1, d2, StrategyFields) ==> StrategyFromDict(d1) == StrategyFromDict(d2)
  {
    if AgreeOn(d1, d2, EnvFields) {
      assert "total_holding_weight" in EnvFields;
    }
    if AgreeOn(d1, d2, TargetFields) {
      assert "name" in TargetFields && "holding_percentage" in TargetFields;
    }
    if AgreeOn(d1, d2, StrategyFields) {
      assert "name" in StrategyFields && "priority" in StrategyFields && "params" in StrategyFields;
    }
  }

  /** `from_dict(d)` equals `from_dict` of `d` restricted to the field names. */
  lemma FromDictOfWhitelist(d: map<string, Value>)
    ensures EnvFromDict(Whitelist(d, EnvFields)) == EnvFromDict(d)
    ensures TargetFromDict(Whitelist(d, TargetFields)) == TargetFromDict(d)
    ensures StrategyFromDict(Whitelist(d, StrategyFields)) == StrategyFromDict(d)
  {
    FromDictIgnoresExtraKeys(Whitelist(d, EnvFields), d);
    FromDictIgnoresExtraKeys(Whitelist(d, TargetFields), d);
    FromDictIgnoresExtraKeys(Whitelist(d, StrategyFields), d);
  }

  /** An empty input gives the all-defaults record. */
  lemma FromEmptyDictIsDefault()
    ensures EnvFromDict(map[]) == Env(Real(0.0))
    ensures TargetFromDict(map[]) == Target(Str(""), Real(0.0))
    ensures StrategyFromDict(map[]) == Strategy(Str(""), Int(-1), Dict(map[]))
  {
  }
}
