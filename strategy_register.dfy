/** The strategy registry: a table from names to functions, seeded with four
    defaults when it is first built. Later constructions return the same
    registry and leave its environment and its table as they are. */
module Registry {
  import opened PyValues
  import opened Trigger

  /** An argument of a registered function: a configuration value or a trigger. */
  datatype Arg = Val(v: Value) | Trig(t: TradingTrigger)

  /** The functions the table can hold. The defaults are named by what they do;
      a function registered from outside is identified by `id` and carries its
      `__name__`. */
  datatype Fn =
    | TestFn                        // lambda: "test"
    | SumFn                         // lambda a, b: a + b
    | InspectFn                     // def inspect(trigger)
    | MinusFn                       // def add(a, b): return a - b
    | UserFn(id: nat, fnName: string)
  {
    /** The function's `__name__`. */
    function Name(): string {
      match this
      case TestFn => "<lambda>"
      case SumFn => "<lambda>"
      case InspectFn => "inspect"
      case MinusFn => "add"
      case UserFn(_, n) => n
    }
  }

  /** The behaviour of code registered from outside, given as a parameter. */
  type External = (nat, seq<Arg>) -> Result<Value>

  /** Calls `f` with positional arguments `args`. A wrong number of arguments
      or operands that do not support the operator raise TypeError. `inspect`
      first logs `env['vix']`, then asks its argument to log itself; the log
      itself never raises. */
  function Apply(f: Fn, env: map<string, Value>, args: seq<Arg>, external: External): (r: Result<Value>)
    ensures f.TestFn? ==> r == (if args == [] then Ok(Str("test")) else Err(TypeError))
    ensures f.SumFn? && |args| == 2 && args[0].Val? && args[1].Val? ==> r == Add(args[0].v, args[1].v)
    ensures f.MinusFn? && |args| == 2 && args[0].Val? && args[1].Val? ==> r == Sub(args[0].v, args[1].v)
    ensures (f.SumFn? || f.MinusFn?) && (|args| != 2 || args[0].Trig? || args[1].Trig?) ==> r == Err(TypeError)
    ensures f.InspectFn? && |args| == 1 ==>
              r == (if "vix" !in env then Err(KeyError("vix"))
                    else if args[0].Val? then Err(AttributeError)
                    else Ok(NoneV))
    ensures f.UserFn? ==> r == external(f.id, args)
  {
    match f
    case TestFn => if args == [] then Ok(Str("test")) else Err(TypeError)
    case SumFn =>
      if |args| == 2 && args[0].Val? && args[1].Val? then Add(args[0].v, args[1].v) else Err(TypeError)
    case MinusFn =>
      if |args| == 2 && args[0].Val? && args[1].Val? then Sub(args[0].v, args[1].v) else Err(TypeError)
    case InspectFn =>
      if |args| != 1 then Err(TypeError)
      else if "vix" !in env then Err(KeyError("vix"))
      else if args[0].Val? then Err(AttributeError)
      else Ok(NoneV)
    case UserFn(id, _) => external(id, args)
  }

  /** `call` on a table: KeyError for a name that is not registered, otherwise
      the stored function's result, passed on unchanged. The error carries
      the missing name; the Python message around it, "Function '<name>' not
      found", is not modelled. */
  function Lookup(functions: map<string, Fn>, env: map<string, Value>, name: string,
                  args: seq<Arg>, external: External): (r: Result<Value>)
    ensures name !in functions ==> r == Err(KeyError(name))
    ensures name in functions ==> r == Apply(functions[name], env, args, external)
  {
    if name !in functions then Err(KeyError(name)) else Apply(functions[name], env, args, external)
  }

  /** The key `register(name)` stores a function under: `name or func.__name__`,
      so a missing or empty name falls back to the function's own name. */
  function RegisteredName(name: Option<string>, f: Fn): (key: string)
    ensures name.Some? && name.value != "" ==> key == name.value
    ensures name.None? || name.value == "" ==> key == f.Name()
  {
    if name.Some? && name.value != "" then name.value else f.Name()
  }

  /** The table the first construction leaves behind. */
  const DefaultFunctions: map<string, Fn> :=
    map[]["test" := TestFn]["add" := SumFn]["inspect" := InspectFn]["minus" := MinusFn]

  class StrategyRegister {
    var env: map<string, Value>
    var functions: map<string, Fn>

    /** The first `StrategyRegister(env)`: keeps `env`, starts from an empty
        table and seeds the defaults. */
    constructor (env: map<string, Value>)
      ensures this.env == env
      ensures functions == DefaultFunctions
    {
      this.env := env;
      functions := map[];
      new;
      SetupDefaultFunctions();
    }

    /** Every later `StrategyRegister(env)`: the once-only flag is already set,
        so the registry keeps its first environment and its table. */
    method Reinit(env: map<string, Value>)
      ensures unchanged(this)
    {
    }

    /** Inserts or overwrites one entry; the other entries stay. */
    method RegisterFunction(name: string, f: Fn)
      modifies this
      ensures functions == old(functions)[name := f]
      ensures env == old(env)
    {
      functions := functions[name := f];
    }

    /** The `register(name)` decorator applied to `f`: stores it under
        `name or f.__name__` and hands `f` back unchanged. */
    method Register(name: Option<string>, f: Fn) returns (g: Fn)
      modifies this
      ensures g == f
      ensures functions == old(functions)[RegisteredName(name, f) := f]
      ensures env == old(env)
    {
      functions := functions[RegisteredName(name, f) := f];
      g := f;
    }

    /** `call(name, *args)`. */
    function Call(name: string, args: seq<Arg>, external: External): (r: Result<Value>)
      reads this
      ensures name !in functions ==> r == Err(KeyError(name))
      ensures name in functions ==> r == Apply(functions[name], env, args, external)
    {
      Lookup(functions, env, name, args, external)
    }

    /** `__call__(name, *args)` is `call(name, *args)`. */
    function Invoke(name: string, args: seq<Arg>, external: External): (r: Result<Value>)
      reads this
      ensures r == Call(name, args, external)
    {
      Call(name, args, external)
    }

    method SetupDefaultFunctions()
      modifies this
      ensures functions == old(functions)["test" := TestFn]["add" := SumFn]["inspect" := InspectFn]["minus" := MinusFn]
      ensures env == old(env)
    {
      RegisterFunction("test", TestFn);
      RegisterFunction("add", SumFn);
      var inspect := Register(None, InspectFn);
      var minus := Register(Some("minus"), MinusFn);
    }
  }

  /** After a registration under `name`, calling `name` runs the new function
      and every other name answers as before: the last registration wins. */
  lemma {:induction false} CallAfterRegister(functions: map<string, Fn>, env: map<string, Value>,
                                             name: string, f: Fn, other: string,
                                             args: seq<Arg>, external: External)
    ensures Lookup(functions[name := f], env, name, args, external) == Apply(f, env, args, external)
    ensures other != name ==>
              Lookup(functions[name := f], env, other, args, external) == Lookup(functions, env, other, args, external)
  {
  }

  /** What the default entries do: "test" answers "test", "add" adds, "minus"
      (the function whose own name is `add`) subtracts, and "inspect" fails only
      when the registry's environment has no "vix". */
  lemma DefaultEntries(env: map<string, Value>, a: int, b: int, t: TradingTrigger, external: External)
    ensures DefaultFunctions.Keys == {"test", "add", "inspect", "minus"}
    ensures Lookup(DefaultFunctions, env, "test", [], external) == Ok(Str("test"))
    ensures Lookup(DefaultFunctions, env, "add", [Val(Int(a)), Val(Int(b))], external) == Ok(Int(a + b))
    ensures Lookup(DefaultFunctions, env, "minus", [Val(Int(a)), Val(Int(b))], external) == Ok(Int(a - b))
    ensures DefaultFunctions["minus"].Name() == "add"
    ensures Lookup(DefaultFunctions, env, "inspect", [Trig(t)], external) ==
              (if "vix" in env then Ok(NoneV) else Err(KeyError("vix")))
  {
  }
}
