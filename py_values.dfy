/** The Python values a decoded JSON document consists of, and the Python
    operations the weather summaries apply to them: truthiness, `dict.get`,
    subscription, the `in` test, iteration, `str.split` and `str()`.
    Every operation that can raise returns a `Result` whose failure names
    the exception Python raises. */
module PyValues {
  import opened PyStrings

  datatype Option<+T> = None | Some(value: T)

  /** A JSON document as Python's `json` module decodes it: `null`, a
      boolean, an integer, a float (kept as its decimal literal
      `mantissa * 10^exponent`), a string, a list, or a dict whose members
      are kept in document order. */
  datatype Json =
    | JNull
    | JBool(b: bool)
    | JInt(i: int)
    | JFloat(mantissa: int, exponent: int)
    | JStr(s: string)
    | JList(items: seq<Json>)
    | JObject(members: seq<(string, Json)>)

  /** The Python class of a decoded value. */
  datatype PyType = NoneType | BoolType | IntType | FloatType | StrType | ListType | DictType

  function TypeOf(v: Json): PyType
  {
    match v
    case JNull => NoneType
    case JBool(_) => BoolType
    case JInt(_) => IntType
    case JFloat(_, _) => FloatType
    case JStr(_) => StrType
    case JList(_) => ListType
    case JObject(_) => DictType
  }

  /** A subscript: a string key (`v['temp']`) or an integer index (`v[0]`). */
  datatype Key = Name(name: string) | Index(index: int)

  /** Why a `TypeError` was raised. */
  datatype TypeErrorKind =
    | NotSubscriptable(t: PyType)        // `None[0]`, `3['x']`
    | IndicesMustBeIntegers(t: PyType)   // `[1]['x']`, `'ab'['x']`
    | NotIterable(t: PyType)             // `for x in None`
    | NotAContainer(t: PyType)           // `'list' in 3`

  /** The exceptions the summaries can provoke; the text Python prints
      for each is left to `Printer.exception`. */
  datatype PyException =
    | KeyError(key: Key)
    | IndexError(sequence: PyType)
    | AttributeError(receiver: PyType, attribute: string)
    | TypeError(kind: TypeErrorKind)

  /** The outcome of a Python expression: a value, or the exception it raises. */
  datatype Result<+T> = Ok(value: T) | Raise(exception: PyException) {
    predicate IsFailure() { Raise? }

    function PropagateFailure<U>(): Result<U>
      requires Raise?
    {
      Raise(exception)
    }

    function Extract(): T
      requires Ok?
    {
      value
    }
  }

  /** Python's truth value of a decoded JSON value. */
  predicate Truthy(v: Json)
  {
    match v
    case JNull => false
    case JBool(b) => b
    case JInt(i) => i != 0
    case JFloat(m, _) => m != 0
    case JStr(s) => s != ""
    case JList(xs) => xs != []
    case JObject(ms) => ms != []
  }

  /** The value stored under `key` in a dict's members. */
  function Lookup(members: seq<(string, Json)>, key: string): (r: Option<Json>)
    ensures r.None? <==> forall k | 0 <= k < |members| :: members[k].0 != key
    ensures r.Some? ==> exists k | 0 <= k < |members| :: members[k] == (key, r.value)
    decreases |members|
  {
    if |members| == 0 then None
    else if members[0].0 == key then Some(members[0].1)
    else
      var r := Lookup(members[1..], key);
      assert forall k | 1 <= k < |members| :: members[k] == members[1..][k - 1];
      r
  }

  /** `v` is a dict holding `x` under `key`. */
  predicate HasField(v: Json, key: string, x: Json)
  {
    v.JObject? && Lookup(v.members, key) == Some(x)
  }

  /** `v` is a dict without `key`. */
  predicate MissingField(v: Json, key: string)
  {
    v.JObject? && Lookup(v.members, key).None?
  }

  /** `v.get(key, default)`: only a dict has a `get` method. */
  function Get(v: Json, key: string, default: Json): (r: Result<Json>)
    ensures r.Ok? <==> v.JObject?
    ensures MissingField(v, key) ==> r == Ok(default)
    ensures forall x :: HasField(v, key, x) ==> r == Ok(x)
    ensures r.Raise? ==> r.exception == AttributeError(TypeOf(v), "get")
  {
    match v
    case JObject(ms) =>
      (match Lookup(ms, key)
       case Some(x) => Ok(x)
       case None => Ok(default))
    case _ => Raise(AttributeError(TypeOf(v), "get"))
  }

  /** The position a possibly negative Python index denotes in a sequence
      of length `n`, if any. */
  function Position(i: int, n: nat): Option<nat>
  {
    if 0 <= i < n then Some(i)
    else if i < 0 && 0 <= i + n then Some(i + n)
    else None
  }

  /** `v[k]`: a dict is looked up by key (any other key is missing), a list
      or string is indexed by integer, everything else refuses
      subscription. */
  function Subscript(v: Json, k: Key): (r: Result<Json>)
    ensures k.Name? ==> (r.Ok? <==> v.JObject? && Lookup(v.members, k.name).Some?)
    ensures forall x :: k.Name? && HasField(v, k.name, x) ==> r == Ok(x)
    ensures k == Index(0) && v.JList? ==>
              if v.items == [] then r == Raise(IndexError(ListType)) else r == Ok(v.items[0])
    ensures k.Name? && MissingField(v, k.name) ==> r == Raise(KeyError(k))
  {
    match v
    case JObject(ms) =>
      (match k
       case Name(n) =>
         (match Lookup(ms, n)
          case Some(x) => Ok(x)
          case None => Raise(KeyError(k)))
       case Index(_) => Raise(KeyError(k)))
    case JList(xs) =>
      (match k
       case Index(i) =>
         (match Position(i, |xs|)
          case Some(p) => Ok(xs[p])
          case None => Raise(IndexError(ListType)))
       case Name(_) => Raise(TypeError(IndicesMustBeIntegers(ListType))))
    case JStr(s) =>
      (match k
       case Index(i) =>
         (match Position(i, |s|)
          case Some(p) => Ok(JStr([s[p]]))
          case None => Raise(IndexError(StrType)))
       case Name(_) => Raise(TypeError(IndicesMustBeIntegers(StrType))))
    case _ => Raise(TypeError(NotSubscriptable(TypeOf(v))))
  }

  /** `s in v`: a key test on a dict, an element test on a list, a
      substring test on a string; other values are not containers. */
  function Contains(v: Json, s: string): (r: Result<bool>)
    ensures v.JObject? ==> r == Ok(!MissingField(v, s))
    ensures r.Raise? <==> !(v.JObject? || v.JList? || v.JStr?)
    ensures r.Raise? ==> r.exception.TypeError?
  {
    match v
    case JObject(ms) => Ok(Lookup(ms, s).Some?)
    case JList(xs) => Ok(JStr(s) in xs)
    case JStr(t) => Ok(IsSubstring(s, t))
    case _ => Raise(TypeError(NotAContainer(TypeOf(v))))
  }

  /** The values a `for` loop over `v` visits: a list's elements, a dict's
      keys, a string's characters. */
  function Iterate(v: Json): (r: Result<seq<Json>>)
    ensures v.JList? ==> r == Ok(v.items)
    ensures r.Ok? ==> |r.value| == match v
                                   case JObject(ms) => |ms|
                                   case JStr(s) => |s|
                                   case JList(xs) => |xs|
                                   case _ => 0
    ensures v.JObject? ==> r.Ok? && forall k | 0 <= k < |v.members| :: r.value[k] == JStr(v.members[k].0)
    ensures v.JStr? ==> r.Ok? && forall k | 0 <= k < |v.s| :: r.value[k] == JStr([v.s[k]])
    ensures r.Raise? <==> !(v.JObject? || v.JList? || v.JStr?)
    ensures r.Raise? ==> r.exception.TypeError?
  {
    match v
    case JList(xs) => Ok(xs)
    case JObject(ms) => Ok(seq(|ms|, k requires 0 <= k < |ms| => JStr(ms[k].0)))
    case JStr(s) => Ok(seq(|s|, k requires 0 <= k < |s| => JStr([s[k]])))
    case _ => Raise(TypeError(NotIterable(TypeOf(v))))
  }

  /** `v.split(sep)`: only a string has a `split` method. */
  function SplitMethod(v: Json, sep: char): (r: Result<seq<string>>)
    ensures r.Ok? <==> v.JStr?
    ensures r.Ok? ==> |r.value| >= 1 && Join([sep], r.value) == v.s
    ensures r.Ok? ==> forall k | 0 <= k < |r.value| :: sep !in r.value[k]
    ensures r.Raise? ==> r.exception == AttributeError(TypeOf(v), "split")
  {
    match v
    case JStr(s) =>
      JoinSplit(s, sep);
      SplitPiecesFree(s, sep);
      Ok(Split(s, sep))
    case _ => Raise(AttributeError(TypeOf(v), "split"))
  }

  /** How the interpreter prints what `str()` does not fix here: the text
      of numbers, lists and dicts, and the message of an exception. */
  datatype Printer = Printer(value: Json -> string, exception: PyException -> string)

  /** `str(v)`, which an f-string placeholder `{v}` inserts. */
  function Str(v: Json, pr: Printer): (r: string)
    ensures v.JStr? ==> r == v.s
  {
    match v
    case JStr(s) => s
    case JNull => "None"
    case JBool(b) => if b then "True" else "False"
    case _ => pr.value(v)
  }
}
