/** Values as `JSON.parse` returns them, and the property accesses the TypeScript code makes on them. */
module Json {
  import opened Text

  datatype Option<+T> = None | Some(value: T) {
    predicate IsFailure() { None? }

    function PropagateFailure<U>(): Option<U>
      requires None?
    {
      None
    }

    function Extract(): T
      requires Some?
    {
      value
    }
  }

  /** A JavaScript call that returns a value or throws. */
  datatype Outcome<+T> = Threw | Returned(value: T)

  /** A number is kept as its canonical text, so `==` is `Object.is` and 0 differs from -0. */
  datatype Value =
    | Null
    | Bool(b: bool)
    | Number(text: string)
    | Str(s: string)
    | Arr(items: seq<Value>)
    | Obj(fields: map<string, Value>)

  type Fields = map<string, Value>

  /** `v?.name`, where None stands for `undefined`. Only plain objects have the properties read here. */
  function Member(v: Option<Value>, name: string): Option<Value> {
    if v.Some? && v.value.Obj? && name in v.value.fields then Some(v.value.fields[name]) else None
  }

  /** `v ?? fallback`. */
  function Nullish(v: Option<Value>, fallback: Value): Value {
    if v.None? || v.value.Null? then fallback else v.value
  }

  predicate Truthy(v: Option<Value>) {
    match v
    case None => false
    case Some(Null) => false
    case Some(Bool(b)) => b
    case Some(Number(t)) => t != "0" && t != "-0"
    case Some(Str(s)) => s != ""
    case Some(_) => true
  }

  /** `Object.keys(v)` for a value that is not null: arrays and strings have their indices as keys. */
  function Keys(v: Value): set<string> {
    match v
    case Obj(fields) => fields.Keys
    case Arr(items) => Indices(|items|)
    case Str(s) => Indices(|s|)
    case _ => {}
  }

  function Indices(n: nat): set<string> {
    set i | 0 <= i < n :: Decimal(i)
  }
}
