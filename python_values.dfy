/**
 * Python 2 data as the modelled code sees it: YAML configuration records and
 * the values handed to `fill`. Booleans are the integers 0 and 1 (Python's
 * `True == 1`), tuples and lists are kept apart, dictionary keys are strings.
 */
module PyValues {
  import opened Wrappers
  import opened PyStrings

  datatype Value =
    | NoneV
    | Int(i: int)
    | Str(s: string)
    | List(items: seq<Value>)
    | Tuple(items: seq<Value>)
    | Dict(entries: map<string, Value>)

  /**
   * The exceptions the modelled code raises or catches. Where the source
   * formats a message with `"...{}...".format(x)`, the template and `x` are
   * kept apart (`NoneV` when the template has no placeholder).
   */
  datatype Exc =
    | KeyError(key: Value)
    | IndexError
    | TypeError(reason: string)
    | ValueError(reason: string)
    | AttributeError(attribute: string)
    | NameError(template: string, arg: Value)
    | UnboundLocalError(variable: string)
    | AssertionError(message: string)
    | NotImplementedError
    | UnknownProviderType(template: string, arg: Value)
    | Exception(template: string, arg: Value)

  type PyResult<T> = Result<T, Exc>

  const True: Value := Int(1)
  const False: Value := Int(0)

  /** `bool(v)` */
  predicate Truthy(v: Value) {
    match v
    case NoneV => false
    case Int(n) => n != 0
    case Str(s) => |s| > 0
    case List(xs) => |xs| > 0
    case Tuple(xs) => |xs| > 0
    case Dict(m) => |m| > 0
  }

  /** `isinstance(v, collections.Sequence)`: strings, lists and tuples. */
  predicate IsSequence(v: Value) {
    v.Str? || v.List? || v.Tuple?
  }

  /** What `for x in v` yields for a sequence; a string yields one-character strings. */
  function SeqItems(v: Value): (xs: seq<Value>)
    requires IsSequence(v)
    ensures v.Str? ==> |xs| == |v.s| && forall i :: 0 <= i < |xs| ==> xs[i] == Str([v.s[i]])
    ensures !v.Str? ==> xs == v.items
  {
    if v.Str? then seq(|v.s|, i requires 0 <= i < |v.s| => Str([v.s[i]])) else v.items
  }

  /** Values that can be dictionary keys or set members. */
  predicate Hashable(v: Value) {
    match v
    case List(_) => false
    case Dict(_) => false
    case Tuple(xs) => forall i :: 0 <= i < |xs| ==> Hashable(xs[i])
    case _ => true
  }

  /** `len(v)` */
  function Len(v: Value): PyResult<nat> {
    match v
    case Str(s) => Ok(|s|)
    case List(xs) => Ok(|xs|)
    case Tuple(xs) => Ok(|xs|)
    case Dict(m) => Ok(|m|)
    case Int(_) => Err(TypeError("object of type 'int' has no len()"))
    case NoneV => Err(TypeError("object of type 'NoneType' has no len()"))
  }

  /** `x` occurs in `s` as a contiguous run. */
  predicate IsSubstring(x: string, s: string)
    decreases |s|
  {
    |x| <= |s| && (s[..|x|] == x || IsSubstring(x, s[1..]))
  }

  /** `x in c` for a string `x`: a key of a dictionary, an item of a list or tuple, a substring of a string. */
  function Contains(c: Value, x: string): (r: PyResult<bool>)
    ensures r.Err? <==> c.NoneV? || c.Int?
    ensures c.Dict? ==> r == Ok(x in c.entries)
    ensures c.List? || c.Tuple? ==> r == Ok(Str(x) in c.items)
  {
    match c
    case Dict(m) => Ok(x in m)
    case List(xs) => Ok(Str(x) in xs)
    case Tuple(xs) => Ok(Str(x) in xs)
    case Str(s) => Ok(IsSubstring(x, s))
    case Int(_) => Err(TypeError("argument of type 'int' is not iterable"))
    case NoneV => Err(TypeError("argument of type 'NoneType' is not iterable"))
  }

  /** One character as `repr` writes it inside quotes `q`. */
  function EscapeChar(c: char, q: char): string {
    if c == '\\' then "\\\\"
    else if c == q then ['\\', q]
    else if c == '\n' then "\\n"
    else if c == '\t' then "\\t"
    else if c == '\r' then "\\r"
    else [c]
  }

  function Escape(s: string, q: char): string {
    if |s| == 0 then "" else EscapeChar(s[0], q) + Escape(s[1..], q)
  }

  /** `repr(s)`: single quotes, or double quotes when `s` holds a single quote and no double quote. */
  function StrRepr(s: string): string {
    var q := if '\'' in s && '"' !in s then '"' else '\'';
    [q] + Escape(s, q) + [q]
  }

  /** `", ".join(parts)` */
  function CommaJoin(parts: seq<string>): string {
    if |parts| == 0 then ""
    else if |parts| == 1 then parts[0]
    else parts[0] + ", " + CommaJoin(parts[1..])
  }

  /**
   * `repr(v)`. A non-empty dictionary is written `{...}`: Python 2 prints
   * its entries in hash order, which is not modelled.
   */
  function Repr(v: Value): string
    decreases v
  {
    match v
    case NoneV => "None"
    case Int(n) => IntToString(n)
    case Str(s) => StrRepr(s)
    case List(xs) => "[" + CommaJoin(seq(|xs|, i requires 0 <= i < |xs| => Repr(xs[i]))) + "]"
    case Tuple(xs) =>
      "(" + CommaJoin(seq(|xs|, i requires 0 <= i < |xs| => Repr(xs[i]))) + (if |xs| == 1 then ",)" else ")")
    case Dict(m) => if |m| == 0 then "{}" else "{...}"
  }

  /** `'{}'.format(v)`, that is `str(v)`: a string as it is, anything else as its `repr`. */
  function Format(v: Value): (r: string)
    ensures v.Str? ==> r == v.s
    ensures v.Int? ==> ParseInt(r) == Some(v.i)
    ensures v.List? ==> |r| >= 2 && r[0] == '[' && r[|r| - 1] == ']'
    ensures v.Tuple? ==> |r| >= 2 && r[0] == '(' && r[|r| - 1] == ')'
  {
    ParseIntToString(if v.Int? then v.i else 0);
    if v.Str? then v.s else Repr(v)
  }

  /** Position `k` of a sequence of length `n`, counting from the end when `k` is negative. */
  function Position(n: nat, k: int): (r: Option<nat>)
    ensures r.Some? <==> 0 - n <= k < n
    ensures r.Some? ==> r.value < n && r.value == (if k < 0 then k + n else k)
  {
    if 0 <= k < n then Some(k) else if 0 - n <= k < 0 then Some(k + n) else None
  }

  /** `o[k]` */
  function Subscript(o: Value, k: Value): (r: PyResult<Value>)
    ensures o.Dict? && k.Str? && k.s in o.entries ==> r == Ok(o.entries[k.s])
    ensures o.Dict? && Hashable(k) && !(k.Str? && k.s in o.entries) ==> r == Err(KeyError(k))
    ensures (o.List? || o.Tuple?) && k.Int? && !(0 - |o.items| <= k.i < |o.items|) ==> r == Err(IndexError)
  {
    match o
    case Dict(m) =>
      if !Hashable(k) then Err(TypeError("unhashable type"))
      else if k.Str? && k.s in m then Ok(m[k.s])
      else Err(KeyError(k))
    case List(xs) =>
      if !k.Int? then Err(TypeError("list indices must be integers"))
      else (match Position(|xs|, k.i)
        case Some(j) => Ok(xs[j])
        case None => Err(IndexError))
    case Tuple(xs) =>
      if !k.Int? then Err(TypeError("tuple indices must be integers"))
      else (match Position(|xs|, k.i)
        case Some(j) => Ok(xs[j])
        case None => Err(IndexError))
    case Str(s) =>
      if !k.Int? then Err(TypeError("string indices must be integers"))
      else (match Position(|s|, k.i)
        case Some(j) => Ok(Str([s[j]]))
        case None => Err(IndexError))
    case Int(_) => Err(TypeError("'int' object has no attribute '__getitem__'"))
    case NoneV => Err(TypeError("'NoneType' object has no attribute '__getitem__'"))
  }

  /** `d.get(key, default)` */
  function DictGet(d: map<string, Value>, key: string, default: Value): (r: Value)
    ensures key in d ==> r == d[key]
    ensures key !in d ==> r == default
  {
    if key in d then d[key] else default
  }
}
