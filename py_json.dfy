/** JSON values as the Python services see them (after `json.loads`/`response.json()`,
    before `jsonify`/`json.dumps`), with the Python operations applied to them. */
module PyJson {
  import opened Text

  datatype Option<+T> = None | Some(value: T)

  /** A JSON value: `null`, a boolean, an integer, a string or a list of strings. */
  datatype Value = Null | Bool(b: bool) | Num(n: int) | Str(s: string) | StrList(items: seq<string>)

  /** A JSON object, i.e. a Python `dict` from field names to values. */
  type Object = map<string, Value>

  /** A Python computation that either returns a value or raises an exception,
      carried as `str(e)`. */
  datatype Py<+T> = Returns(value: T) | Raises(message: string)

  /** An HTTP response: its status code and its JSON body. */
  datatype HttpReply = HttpReply(status: int, body: Object)

  /** Python truthiness (`if v:`): the falsy values are `None`, `False`, `0`, the
      empty string and the empty list. */
  predicate Truthy(v: Value): (b: bool)
    ensures !b <==> v in {Null, Bool(false), Num(0), Str(""), StrList([])}
  {
    match v
    case Null => false
    case Bool(b) => b
    case Num(n) => n != 0
    case Str(s) => s != ""
    case StrList(xs) => xs != []
  }

  /** A `str` or `None`, as a JSON value. */
  function OptStr(o: Option<string>): (v: Value)
    ensures v.Null? <==> o.None?
    ensures o.Some? ==> v == Str(o.value)
  {
    match o
    case None => Null
    case Some(s) => Str(s)
  }

  /** Truthiness of a `str` or `None`. */
  predicate TruthyStr(o: Option<string>) {
    Truthy(OptStr(o))
  }

  /** `type(v).__name__`. */
  function TypeName(v: Value): string {
    match v
    case Null => "NoneType"
    case Bool(_) => "bool"
    case Num(_) => "int"
    case Str(_) => "str"
    case StrList(_) => "list"
  }

  /** The message of the TypeError raised by `x in v` when `v` is not a container. */
  function NotIterableMessage(v: Value): string {
    "argument of type '" + TypeName(v) + "' is not iterable"
  }

  /** The message of the TypeError raised by `re.search`/`re.match` on a non-string
      (wording of Python 3.12). */
  function NotAStringMessage(v: Value): string {
    "expected string or bytes-like object, got '" + TypeName(v) + "'"
  }

  /** The TypeError text of `in` on a value that is not a container (Python 3.12). */
  lemma NotIterableTexts()
    ensures NotIterableMessage(Null) == "argument of type 'NoneType' is not iterable"
    ensures NotIterableMessage(Num(0)) == "argument of type 'int' is not iterable"
  {
  }

  /** The TypeError text of `re.search` on a value that is not a string (Python 3.12). */
  lemma NotAStringTexts()
    ensures NotAStringMessage(Null) == "expected string or bytes-like object, got 'NoneType'"
    ensures NotAStringMessage(StrList([])) == "expected string or bytes-like object, got 'list'"
  {
  }

  /** Python's `sub in v`: a substring test on a string, a membership test on a
      list, and a TypeError on anything else. */
  function In(sub: string, v: Value): (r: Py<bool>)
    ensures r.Raises? <==> !(v.Str? || v.StrList?)
    ensures v.Str? ==> r == Returns(exists j :: OccursAt(v.s, sub, j))
    ensures v.StrList? ==> r == Returns(sub in v.items)
  {
    match v
    case Str(s) => Returns(Contains(s, sub))
    case StrList(xs) => Returns(sub in xs)
    case _ => Raises(NotIterableMessage(v))
  }
}
