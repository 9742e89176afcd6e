/** JavaScript values as the scenario script and its configuration carry them,
    the truthiness rules the engine branches on, and the engine's configuration. */
module Script {

  datatype Option<+T> = None | Some(value: T)

  /** A JavaScript value. Numbers are integers here (no NaN, no fractions). */
  datatype Value =
    | Undefined
    | Null
    | Bool(b: bool)
    | Num(n: int)
    | Str(s: string)
    | Arr(items: seq<Value>)
    | Obj(fields: map<string, Value>)

  /** JavaScript truthiness: `if (v)`. Arrays and objects are truthy even when empty. */
  predicate Truthy(v: Value)
  {
    match v
    case Undefined => false
    case Null => false
    case Bool(b) => b
    case Num(n) => n != 0
    case Str(s) => s != ""
    case Arr(_) => true
    case Obj(_) => true
  }

  /** The JavaScript expression `a || b`: the first operand when it is truthy, else the second. */
  function Or(a: Value, b: Value): (r: Value)
    ensures Truthy(r) <==> Truthy(a) || Truthy(b)
    ensures Truthy(a) ==> r == a
    ensures !Truthy(a) ==> r == b
  {
    if Truthy(a) then a else b
  }

  /** `typeof v === 'object'`, which holds for null as well as for arrays and objects. */
  predicate IsObjectType(v: Value)
  {
    v.Null? || v.Arr? || v.Obj?
  }

  /** Built-in conversions the engine calls but does not define:
      `stringify` is JSON.stringify, `toStr` is JavaScript's string conversion
      (what `v.toString()` gives for a primitive, and what a property key becomes). */
  datatype Builtins = Builtins(stringify: Value -> string, toStr: Value -> string)

  /** A function of the processor table, known by its identity only. */
  datatype Hook = Hook(id: nat)

  /** The parts of `script.config` the engine reads. An absent `tls` or `engineio`
      section is None; `defaultsThink` is `config.defaults.think`, Undefined when
      either level is absent; `processor` is the hook table, None when absent. */
  datatype Config = Config(
    target: Value,
    tls: Option<map<string, Value>>,
    engineio: Option<map<string, Value>>,
    defaultsThink: Value,
    processor: Option<map<string, Hook>>)

  /** `_.get(config, 'defaults.think', {})`: the configured think defaults, or an empty
      object when the path resolves to undefined. */
  function ThinkDefaults(config: Config): (r: Value)
    ensures r.Undefined? == false
    ensures config.defaultsThink.Undefined? ==> r == Obj(map[])
    ensures !config.defaultsThink.Undefined? ==> r == config.defaultsThink
  {
    if config.defaultsThink.Undefined? then Obj(map[]) else config.defaultsThink
  }

  /** `processor[name]`: the key is the string conversion of `name`; a missing key gives undefined. */
  function LookupHook(js: Builtins, processor: map<string, Hook>, name: Value): Option<Hook>
  {
    var key := js.toStr(name);
    if key in processor then Some(processor[key]) else None
  }
}
