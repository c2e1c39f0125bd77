/**
 * `ProviderFilter` from utils/providers.py: a predicate over one provider,
 * built from key, category and type lists, required fields, required tags,
 * version restrictions, test flags and an `inverted` switch.
 *
 * Each check is a specification function; the checks that the source writes
 * as loops (`_filter_required_fields`, `_filter_restricted_version`) and
 * `__call__` are methods proved equal to those functions.
 */
module ProviderFilters {
  import opened Wrappers
  import opened PyStrings
  import opened PyValues

  /**
   * A provider as the filters see it: its key in the configuration, the
   * category and type of its provider class, and its configuration record.
   */
  datatype Provider = Provider(key: string, category: string, typeName: string, data: map<string, Value>)

  /** How the appliance's current version compares with a given version text. */
  datatype Ordering = Older | Same | Newer

  /** `version.current_version()`: raises when there is no SSH connection. */
  datatype Appliance = Unreachable | Reachable(compareTo: string -> Ordering)

  /** What a filter consults besides the provider: the appliance and `cfme_data['test_flags']`. */
  datatype Env = Env(appliance: Appliance, definedTestFlags: string)

  datatype Op = Ge | Le | Eq | Ne | Gt | Lt

  /** `_version_operator_map`: the operators in the order they are tried. */
  const VersionOperatorMap: seq<(string, Op)> :=
    [(">=", Ge), ("<=", Le), ("==", Eq), ("!=", Ne), (">", Gt), ("<", Lt)]

  /** `comparator(curr_ver, ver)` when the current version is `o` relative to `ver`. */
  predicate Holds(op: Op, o: Ordering) {
    match op
    case Ge => o != Older
    case Le => o != Newer
    case Eq => o == Same
    case Ne => o != Same
    case Gt => o == Newer
    case Lt => o == Older
  }

  /**
   * The attributes of a `ProviderFilter`. `None` for keys, categories or
   * types means "all"; `required_fields or []` and `required_tags or []`
   * turn `None` into an empty list, so those two are plain sequences.
   */
  datatype ProviderFilter = ProviderFilter(
    keys: Option<seq<string>>,
    categories: Option<seq<string>>,
    types: Option<seq<string>>,
    requiredFields: seq<Value>,
    requiredTags: seq<string>,
    restrictVersion: bool,
    inverted: bool,
    testFlags: seq<string>)

  /** `ProviderFilter()` with every argument left at its default. */
  const Defaults: ProviderFilter := ProviderFilter(None, None, None, [], [], true, false, [])

  // ---------------------------------------------------------------- keys, categories, types

  predicate KeysOk(f: ProviderFilter, p: Provider) {
    f.keys.None? || p.key in f.keys.value
  }

  predicate CategoriesOk(f: ProviderFilter, p: Provider) {
    f.categories.None? || p.category in f.categories.value
  }

  predicate TypesOk(f: ProviderFilter, p: Provider) {
    f.types.None? || p.typeName in f.types.value
  }

  /**
   * An accepting, non-inverted filter has the provider's key, category and
   * type in its lists (a `None` list accepts all); a provider whose key is
   * missing from a key list is rejected whatever the other checks say.
   */
  lemma ListChecks(f: ProviderFilter, p: Provider, env: Env)
    requires !f.inverted && Accepts(f, p, env).Ok?
    ensures Accepts(f, p, env).value ==>
      (f.keys.None? || p.key in f.keys.value) &&
      (f.categories.None? || p.category in f.categories.value) &&
      (f.types.None? || p.typeName in f.types.value)
    ensures f.keys.Some? && p.key !in f.keys.value ==> Accepts(f, p, env) == Ok(false)
    ensures f.categories.Some? && p.category !in f.categories.value ==> Accepts(f, p, env) == Ok(false)
    ensures f.types.Some? && p.typeName !in f.types.value ==> Accepts(f, p, env) == Ok(false)
  {
  }

  // ---------------------------------------------------------------- required fields

  /** Unpacks one entry of `required_fields` into `(field_ident, field_value)`. */
  function FieldSpec(entry: Value): (r: PyResult<(Value, Value)>)
    ensures !entry.Tuple? ==> r == Ok((entry, NoneV))
    ensures entry.Tuple? && |entry.items| == 2 ==> r == Ok((entry.items[0], entry.items[1]))
    ensures entry.Tuple? && |entry.items| != 2 ==> r.Err? && r.exc.ValueError?
  {
    if !entry.Tuple? then Ok((entry, NoneV))
    else if |entry.items| == 2 then Ok((entry.items[0], entry.items[1]))
    else if |entry.items| > 2 then Err(ValueError("too many values to unpack"))
    else if |entry.items| == 1 then Err(ValueError("need more than 1 value to unpack"))
    else Err(ValueError("need more than 0 values to unpack"))
  }

  /** `o = o[field]` for each field of the path in turn; the first failing step raises. */
  function WalkPath(o: Value, path: seq<Value>): PyResult<Value>
    decreases |path|
  {
    if |path| == 0 then Ok(o)
    else match Subscript(o, path[0])
      case Err(e) => Err(e)
      case Ok(next) => WalkPath(next, path[1..])
  }

  /** The exceptions `_filter_required_fields` turns into `False`. */
  predicate Caught(e: Exc) {
    e.KeyError? || e.IndexError?
  }

  /** The stored value satisfies the expected one: a falsy expectation only asks for presence. */
  predicate Matches(stored: Value, expected: Value) {
    !Truthy(expected) || stored == expected
  }

  /** One entry of `required_fields` against the provider's data. */
  function FieldOk(entry: Value, data: map<string, Value>): PyResult<bool>
  {
    var (ident, expected) :- FieldSpec(entry);
    if ident.Str? then
      Ok(ident.s in data && Matches(data[ident.s], expected))
    else if ident.List? || ident.Tuple? then
      match WalkPath(Dict(data), ident.items)
      case Err(e) => if Caught(e) then Ok(false) else Err(e)
      case Ok(v) => Ok(Matches(v, expected))
    else
      Err(TypeError("object is not iterable"))
  }

  /** `_filter_required_fields`: every entry in order; the first failing entry decides. */
  function RequiredFieldsOk(fields: seq<Value>, data: map<string, Value>): PyResult<bool>
  {
    if |fields| == 0 then Ok(true)
    else match FieldOk(fields[0], data)
      case Err(e) => Err(e)
      case Ok(false) => Ok(false)
      case Ok(true) => RequiredFieldsOk(fields[1..], data)
  }

  /** One entry of `required_fields`, walking a path by reassigning `o`. */
  method CheckField(entry: Value, data: map<string, Value>) returns (r: PyResult<bool>)
    ensures r == FieldOk(entry, data)
  {
    var ident, expected;
    if entry.Tuple? {
      if |entry.items| != 2 {
        return FieldSpec(entry).PropagateFailure();
      }
      ident, expected := entry.items[0], entry.items[1];
    } else {
      ident, expected := entry, NoneV;
    }
    if ident.Str? {
      if ident.s !in data {
        return Ok(false);
      }
      return Ok(Matches(data[ident.s], expected));
    }
    if !(ident.List? || ident.Tuple?) {
      return Err(TypeError("object is not iterable"));
    }
    var o := Dict(data);
    var j := 0;
    while j < |ident.items|
      invariant 0 <= j <= |ident.items|
      invariant WalkPath(Dict(data), ident.items) == WalkPath(o, ident.items[j..])
    {
      var next := Subscript(o, ident.items[j]);
      assert ident.items[j..][1..] == ident.items[j + 1..];
      if next.Err? {
        if Caught(next.exc) {
          return Ok(false);
        }
        return Err(next.exc);
      }
      o := next.value;
      j := j + 1;
    }
    return Ok(Matches(o, expected));
  }

  /** `_filter_required_fields` */
  method FilterRequiredFields(f: ProviderFilter, p: Provider) returns (r: PyResult<bool>)
    ensures r == RequiredFieldsOk(f.requiredFields, p.data)
  {
    var fields := f.requiredFields;
    var i := 0;
    while i < |fields|
      invariant 0 <= i <= |fields|
      invariant RequiredFieldsOk(fields, p.data) == RequiredFieldsOk(fields[i..], p.data)
    {
      var ok := CheckField(fields[i], p.data);
      if ok.Err? || !ok.value {
        return ok;
      }
      i := i + 1;
    }
    return Ok(true);
  }

  /** Walking a concatenated path is walking the first part, then the rest from where it ended. */
  lemma {:induction false} WalkPathConcat(o: Value, a: seq<Value>, b: seq<Value>)
    ensures WalkPath(o, a + b) ==
      (match WalkPath(o, a) case Err(e) => Err(e) case Ok(v) => WalkPath(v, b))
    decreases |a|
  {
    if |a| > 0 {
      assert (a + b)[0] == a[0] && (a + b)[1..] == a[1..] + b;
      match Subscript(o, a[0])
      case Err(e) =>
      case Ok(next) => WalkPathConcat(next, a[1..], b);
    } else {
      assert a + b == b;
    }
  }

  /**
   * A path that reaches a dictionary without the next key, or a list too
   * short for the next index, makes the field check return False instead of
   * raising, whatever the rest of the path and the expected value are.
   */
  lemma MissingStepRejects(data: map<string, Value>, path: seq<Value>, j: nat, o: Value, expected: Value)
    requires j < |path|
    requires WalkPath(Dict(data), path[..j]) == Ok(o)
    requires Subscript(o, path[j]).Err? && Caught(Subscript(o, path[j]).exc)
    ensures FieldOk(Tuple([List(path), expected]), data) == Ok(false)
    ensures FieldOk(List(path), data) == Ok(false)
  {
    assert path == path[..j] + path[j..];
    WalkPathConcat(Dict(data), path[..j], path[j..]);
    assert path[j..][0] == path[j];
  }

  /**
   * A field named by a string must be present in the data; when its
   * expected value is truthy the stored value must also equal it.
   */
  lemma NamedFieldCheck(name: string, expected: Value, data: map<string, Value>)
    ensures FieldOk(Tuple([Str(name), expected]), data) ==
      Ok(name in data && (Truthy(expected) ==> data[name] == expected))
    ensures FieldOk(Str(name), data) == Ok(name in data)
  {
  }

  /** A field named by a string behaves as the one-step path holding that string. */
  lemma NameIsOneStepPath(name: string, expected: Value, data: map<string, Value>)
    ensures FieldOk(Tuple([Str(name), expected]), data) == FieldOk(Tuple([List([Str(name)]), expected]), data)
    ensures FieldOk(Str(name), data) == FieldOk(List([Str(name)]), data)
  {
    assert [Str(name)][1..] == [];
    assert Hashable(Str(name));
    var walked := WalkPath(Dict(data), [Str(name)]);
    if name in data {
      assert walked == WalkPath(data[name], []) == Ok(data[name]);
    } else {
      assert walked == Err(KeyError(Str(name)));
    }
  }

  // ---------------------------------------------------------------- required tags

  /** `set(v)` for the provider's `tags` entry. */
  function TagSet(v: Value): (r: PyResult<set<Value>>)
    ensures v.List? && (forall i :: 0 <= i < |v.items| ==> Hashable(v.items[i])) ==>
      r == Ok(set i | 0 <= i < |v.items| :: v.items[i])
  {
    match v
    case Str(s) => Ok(set i | 0 <= i < |s| :: Str([s[i]]))
    case List(xs) =>
      if forall i :: 0 <= i < |xs| ==> Hashable(xs[i]) then Ok(set i | 0 <= i < |xs| :: xs[i])
      else Err(TypeError("unhashable type"))
    case Tuple(xs) =>
      if forall i :: 0 <= i < |xs| ==> Hashable(xs[i]) then Ok(set i | 0 <= i < |xs| :: xs[i])
      else Err(TypeError("unhashable type"))
    case Dict(m) => Ok(set k | k in m :: Str(k))
    case Int(_) => Err(TypeError("'int' object is not iterable"))
    case NoneV => Err(TypeError("'NoneType' object is not iterable"))
  }

  /**
   * `_filter_required_tags`: no required tags passes; otherwise `data.tags`
   * must exist and share a tag with them.
   */
  function TagsOk(f: ProviderFilter, data: map<string, Value>): PyResult<bool>
  {
    if |f.requiredTags| == 0 then Ok(true)
    else if "tags" !in data then Err(AttributeError("tags"))
    else
      var tags :- TagSet(data["tags"]);
      Ok(exists t :: t in f.requiredTags && Str(t) in tags)
  }

  /** The strings `ts` as Python values. */
  function Strs(ts: seq<string>): (r: seq<Value>)
    ensures |r| == |ts| && forall i :: 0 <= i < |ts| ==> r[i] == Str(ts[i])
  {
    if |ts| == 0 then [] else [Str(ts[0])] + Strs(ts[1..])
  }

  /**
   * For a provider whose `tags` is a list of strings, the tag check is set
   * intersection: no required tags, or at least one tag in common.
   */
  lemma TagsOkIsIntersection(f: ProviderFilter, data: map<string, Value>, tags: seq<string>)
    requires "tags" in data && data["tags"] == List(Strs(tags))
    ensures TagsOk(f, data) ==
      Ok(|f.requiredTags| == 0 || (set t | t in f.requiredTags) * (set t | t in tags) != {})
  {
    StrsTagSet(tags);
    if |f.requiredTags| > 0 {
      CommonTag(f.requiredTags, tags);
    }
  }

  /** `set(tags)` of a list of strings holds exactly those strings. */
  lemma StrsTagSet(tags: seq<string>)
    ensures TagSet(List(Strs(tags))) == Ok(set t | t in tags :: Str(t))
  {
    var xs := Strs(tags);
    assert forall i :: 0 <= i < |xs| ==> Hashable(xs[i]);
    var l, r := set i | 0 <= i < |xs| :: xs[i], set t | t in tags :: Str(t);
    forall v | v in l ensures v in r {
      var i :| 0 <= i < |xs| && xs[i] == v;
      assert tags[i] in tags;
    }
    forall v | v in r ensures v in l {
      var t :| t in tags && v == Str(t);
      var i :| 0 <= i < |tags| && tags[i] == t;
      assert xs[i] == v;
    }
    assert l == r;
  }

  /** A required tag among the provider's tags is a common element of the two lists. */
  lemma CommonTag(required: seq<string>, tags: seq<string>)
    ensures (exists t :: t in required && Str(t) in (set t | t in tags :: Str(t))) <==>
      (set t | t in required) * (set t | t in tags) != {}
  {
    if exists t :: t in required && Str(t) in (set t | t in tags :: Str(t)) {
      var t :| t in required && Str(t) in (set t | t in tags :: Str(t));
      assert t in (set t | t in required) * (set t | t in tags);
    }
    if (set t | t in required) * (set t | t in tags) != {} {
      var t :| t in (set t | t in required) * (set t | t in tags);
      assert Str(t) in (set t | t in tags :: Str(t));
    }
  }

  // ---------------------------------------------------------------- version restrictions

  /** `'>= {}'.format(since_version)`: formatting accepts any value. */
  function SinceRestriction(since: Value): Value
  {
    Str(">= " + Format(since))
  }

  /** The `version_restrictions` list: `since_version` first, then `restricted_version`, each only when truthy. */
  function Restrictions(data: map<string, Value>): seq<Value>
  {
    var since := DictGet(data, "since_version", NoneV);
    var restricted := DictGet(data, "restricted_version", NoneV);
    var later := if Truthy(restricted) then [restricted] else [];
    if !Truthy(since) then later else [SinceRestriction(since)] + later
  }

  /** The first operator of `table` that `s.partition(op)` finds with a non-empty tail, and that tail. */
  function MatchOperator(s: string, table: seq<(string, Op)>): Option<(Op, string)>
  {
    if |table| == 0 then None
    else
      var ver := PartitionTail(s, table[0].0);
      if ver != "" then Some((table[0].1, ver)) else MatchOperator(s, table[1..])
  }

  /** One restriction: unknown operator raises; no connection or a failed comparison rejects. */
  function RestrictionOk(r: Value, app: Appliance): PyResult<bool>
  {
    if !r.Str? then Err(AttributeError("partition"))
    else match MatchOperator(r.s, VersionOperatorMap)
      case None => Err(Exception("Operator not found in {}", r))
      case Some((op, ver)) => Ok(app.Reachable? && Holds(op, app.compareTo(ver)))
  }

  function RestrictionsOk(rs: seq<Value>, app: Appliance): PyResult<bool>
  {
    if |rs| == 0 then Ok(true)
    else match RestrictionOk(rs[0], app)
      case Err(e) => Err(e)
      case Ok(false) => Ok(false)
      case Ok(true) => RestrictionsOk(rs[1..], app)
  }

  /** `_filter_restricted_version` */
  function VersionOk(f: ProviderFilter, data: map<string, Value>, app: Appliance): PyResult<bool>
  {
    if !f.restrictVersion then Ok(true)
    else
      RestrictionsOk(Restrictions(data), app)
  }

  /** The loop body of `_filter_restricted_version`: try the operators in order on one restriction. */
  method CheckRestriction(restriction: Value, env: Env) returns (r: PyResult<bool>)
    ensures r == RestrictionOk(restriction, env.appliance)
  {
    if !restriction.Str? {
      return Err(AttributeError("partition"));
    }
    var k := 0;
    while k < |VersionOperatorMap|
      invariant 0 <= k <= |VersionOperatorMap|
      invariant MatchOperator(restriction.s, VersionOperatorMap) == MatchOperator(restriction.s, VersionOperatorMap[k..])
    {
      var (op, comparator) := VersionOperatorMap[k];
      var ver := PartitionTail(restriction.s, op);
      if ver != "" {
        if env.appliance.Unreachable? {
          return Ok(false);
        }
        return Ok(Holds(comparator, env.appliance.compareTo(ver)));
      }
      k := k + 1;
    }
    return Err(Exception("Operator not found in {}", restriction));
  }

  /** The start of `_filter_restricted_version`: the restrictions a provider's data asks for. */
  method CollectRestrictions(data: map<string, Value>) returns (r: seq<Value>)
    ensures r == Restrictions(data)
  {
    r := [];
    var since := DictGet(data, "since_version", NoneV);
    if Truthy(since) {
      r := r + [Str(">= " + Format(since))];
    }
    var restricted := DictGet(data, "restricted_version", NoneV);
    if Truthy(restricted) {
      r := r + [restricted];
    }
  }

  /** `_filter_restricted_version`: every restriction must hold; the first failing one decides. */
  method FilterRestrictedVersion(f: ProviderFilter, p: Provider, env: Env) returns (r: PyResult<bool>)
    ensures r == VersionOk(f, p.data, env.appliance)
  {
    if !f.restrictVersion {
      return Ok(true);
    }
    var restrictions := CollectRestrictions(p.data);
    var i := 0;
    while i < |restrictions|
      invariant 0 <= i <= |restrictions|
      invariant RestrictionsOk(restrictions, env.appliance) == RestrictionsOk(restrictions[i..], env.appliance)
    {
      var ok := CheckRestriction(restrictions[i], env);
      if ok.Err? || !ok.value {
        return ok;
      }
      assert restrictions[i..][1..] == restrictions[i + 1..];
      i := i + 1;
    }
    return Ok(true);
  }

  /** No operator is found exactly when every operator's partition tail is empty. */
  lemma {:induction false} MatchOperatorNone(s: string, table: seq<(string, Op)>)
    ensures MatchOperator(s, table).None? <==> forall i :: 0 <= i < |table| ==> PartitionTail(s, table[i].0) == ""
  {
    if |table| > 0 {
      MatchOperatorNone(s, table[1..]);
      assert forall i :: 1 <= i < |table| ==> table[i] == table[1..][i - 1];
    }
  }

  /**
   * The operator found is the first one in table order whose tail is not
   * empty, so `>=` is chosen over `>` whenever something follows `>=`.
   */
  lemma {:induction false} MatchOperatorFirst(s: string, table: seq<(string, Op)>, i: nat)
    requires i < |table| && PartitionTail(s, table[i].0) != ""
    requires forall j :: 0 <= j < i ==> PartitionTail(s, table[j].0) == ""
    ensures MatchOperator(s, table) == Some((table[i].1, PartitionTail(s, table[i].0)))
  {
    if i > 0 {
      MatchOperatorFirst(s, table[1..], i - 1);
    }
  }

  /** A restriction containing none of the six operators raises "Operator not found". */
  lemma NoOperatorRaises(s: string, app: Appliance)
    requires forall i :: 0 <= i < |VersionOperatorMap| ==> Find(s, VersionOperatorMap[i].0).None?
    ensures RestrictionOk(Str(s), app) == Err(Exception("Operator not found in {}", Str(s)))
  {
    MatchOperatorNone(s, VersionOperatorMap);
  }

  /**
   * Any `since_version` becomes the restriction `">= " + str(v)`, which is
   * read as `>=` against `" " + str(v)`: a list or a number is compared
   * like a string, and nothing raises.
   */
  lemma SinceVersionIsGe(v: Value, app: Appliance)
    ensures MatchOperator(">= " + Format(v), VersionOperatorMap) == Some((Ge, " " + Format(v)))
    ensures RestrictionOk(SinceRestriction(v), app) == Ok(app.Reachable? && app.compareTo(" " + Format(v)) != Older)
  {
    GeTail(Format(v));
  }

  /** With only `since_version` set, the version check is the single `>=` comparison. */
  lemma SinceVersionOnly(f: ProviderFilter, data: map<string, Value>, app: Appliance)
    requires f.restrictVersion
    requires Truthy(DictGet(data, "since_version", NoneV)) && !Truthy(DictGet(data, "restricted_version", NoneV))
    ensures VersionOk(f, data, app) ==
      Ok(app.Reachable? && app.compareTo(" " + Format(DictGet(data, "since_version", NoneV))) != Older)
  {
    var since := DictGet(data, "since_version", NoneV);
    SinceVersionIsGe(since, app);
    var rs := Restrictions(data);
    assert rs == [SinceRestriction(since)];
    assert rs[0] == SinceRestriction(since) && rs[1..] == [];
    assert RestrictionsOk(rs[1..], app) == Ok(true);
    assert RestrictionOk(rs[0], app).Ok?;
  }

  lemma GeTail(v: string)
    ensures PartitionTail(">= " + v, ">=") == " " + v
  {
    var s := ">= " + v;
    assert s[0..2] == ">=";
    assert OccursAt(s, ">=", 0);
    var found := Find(s, ">=");
    assert found.Some? && found.value == 0;
    assert s[2..] == " " + v;
  }

  /** A trailing operator has an empty tail and is passed over: "5.6>=" is read as "> '='". */
  lemma TrailingOperatorIsSkipped()
    ensures MatchOperator("5.6>=", VersionOperatorMap) == Some((Gt, "="))
  {
    var s := "5.6>=";
    assert s[0] == '5' && s[1] == '.' && s[2] == '6' && s[3] == '>' && s[4] == '=';
    assert PartitionTail(s, ">=") == "" by {
      NotAt(s, ">=", 0);
      NotAt(s, ">=", 1);
      NotAt(s, ">=", 2);
      assert s[3..5] == ">=";
      assert Find(s, ">=") == Some(3);
    }
    assert PartitionTail(s, "<=") == "" by {
      LeadAbsent(s, "<=");
    }
    assert PartitionTail(s, "==") == "" by {
      NotAt(s, "==", 0);
      NotAt(s, "==", 1);
      NotAt(s, "==", 2);
      NotAt(s, "==", 3);
      assert !OccursAt(s, "==", 4) && !OccursAt(s, "==", 5);
      assert Find(s, "==") == None;
    }
    assert PartitionTail(s, "!=") == "" by {
      LeadAbsent(s, "!=");
    }
    assert PartitionTail(s, ">") == "=" by {
      NotAt(s, ">", 0);
      NotAt(s, ">", 1);
      NotAt(s, ">", 2);
      assert s[3..4] == ">";
      assert Find(s, ">") == Some(3);
      assert s[4..] == "=";
    }
  }

  /** `sub` does not occur at a position holding a different first character. */
  lemma NotAt(s: string, sub: string, j: nat)
    requires j < |s| && |sub| > 0 && s[j] != sub[0]
    ensures !OccursAt(s, sub, j)
  {
    if j + |sub| <= |s| {
      assert s[j..j + |sub|][0] == s[j];
    }
  }

  /** An operator whose first character occurs nowhere in the text is not found. */
  lemma LeadAbsent(s: string, sub: string)
    requires |sub| > 0 && sub[0] !in s
    ensures Find(s, sub) == None
  {
    forall j | 0 <= j <= |s| ensures !OccursAt(s, sub, j) {
      if j < |s| {
        NotAt(s, sub, j);
      }
    }
  }

  // ---------------------------------------------------------------- test flags

  /** The stripped pieces of a comma-separated flag list. */
  function FlagSet(text: string): set<string> {
    set piece | piece in Split(text, ',') :: Strip(piece)
  }

  /**
   * `_filter_test_flags`: runs only when the first requested flag is empty;
   * then every requested flag must be defined and not excluded.
   */
  function TestFlagsOk(f: ProviderFilter, data: map<string, Value>, definedFlags: string): PyResult<bool>
  {
    if |f.testFlags| > 0 && f.testFlags[0] == "" then
      var requested := set flag | flag in f.testFlags :: Strip(flag);
      var excluded := DictGet(data, "excluded_test_flags", Str(""));
      if !excluded.Str? then Err(AttributeError("split"))
      else Ok(requested <= FlagSet(definedFlags) - FlagSet(excluded.s))
    else Ok(true)
  }

  /**
   * Once the check runs, it rejects exactly when some requested flag,
   * stripped, is not among the defined flags or is among the provider's
   * excluded flags.
   */
  lemma TestFlagsSubset(f: ProviderFilter, data: map<string, Value>, definedFlags: string)
    requires |f.testFlags| > 0 && f.testFlags[0] == ""
    requires DictGet(data, "excluded_test_flags", Str("")).Str?
    ensures TestFlagsOk(f, data, definedFlags) == Ok(false) <==>
      exists i :: 0 <= i < |f.testFlags| &&
        (Strip(f.testFlags[i]) !in FlagSet(definedFlags) ||
         Strip(f.testFlags[i]) in FlagSet(DictGet(data, "excluded_test_flags", Str("")).s))
  {
    var allowed := FlagSet(definedFlags) - FlagSet(DictGet(data, "excluded_test_flags", Str("")).s);
    ImageWithin(f.testFlags, Strip, allowed);
  }

  /** The image of a list lies within a set exactly when the image of each element does. */
  lemma ImageWithin(xs: seq<string>, g: string -> string, allowed: set<string>)
    ensures (set x | x in xs :: g(x)) <= allowed <==> forall i :: 0 <= i < |xs| ==> g(xs[i]) in allowed
  {
    if forall i :: 0 <= i < |xs| ==> g(xs[i]) in allowed {
      forall y | y in (set x | x in xs :: g(x)) ensures y in allowed {
        var x :| x in xs && g(x) == y;
        var i :| 0 <= i < |xs| && xs[i] == x;
      }
    }
  }

  /**
   * Because the check only runs when the first flag is empty, "" is always
   * requested, and a provider without `excluded_test_flags` excludes "":
   * such a provider is always rejected once the check runs.
   */
  lemma GuardedFlagsRejectUnflagged(f: ProviderFilter, data: map<string, Value>, definedFlags: string)
    requires |f.testFlags| > 0 && f.testFlags[0] == ""
    requires "excluded_test_flags" !in data
    ensures TestFlagsOk(f, data, definedFlags) == Ok(false)
  {
    assert Split("", ',') == [""];
    assert Strip("") == "";
    assert "" in FlagSet("");
    assert Strip(f.testFlags[0]) == "";
  }

  // ---------------------------------------------------------------- __call__

  /** `all([...])` over the seven checks, evaluated in the source's order; the first raising check raises. */
  function Checks(f: ProviderFilter, p: Provider, env: Env): PyResult<bool>
  {
    var fieldsOk :- RequiredFieldsOk(f.requiredFields, p.data);
    var versionOk :- VersionOk(f, p.data, env.appliance);
    var tagsOk :- TagsOk(f, p.data);
    var flagsOk :- TestFlagsOk(f, p.data, env.definedTestFlags);
    Ok(KeysOk(f, p) && CategoriesOk(f, p) && TypesOk(f, p) && fieldsOk && versionOk && tagsOk && flagsOk)
  }

  /** `__call__`: `not inverted` when every check passes, `inverted` otherwise. */
  function Accepts(f: ProviderFilter, p: Provider, env: Env): PyResult<bool>
  {
    match Checks(f, p, env)
    case Err(e) => Err(e)
    case Ok(all) => Ok(if all then !f.inverted else f.inverted)
  }

  /** `__call__`, evaluating each check in turn. */
  method Call(f: ProviderFilter, p: Provider, env: Env) returns (r: PyResult<bool>)
    ensures r == Accepts(f, p, env)
  {
    var keysOk := KeysOk(f, p);
    var categoriesOk := CategoriesOk(f, p);
    var typesOk := TypesOk(f, p);
    var fieldsOk := FilterRequiredFields(f, p);
    if fieldsOk.Err? { return Err(fieldsOk.exc); }
    var versionOk := FilterRestrictedVersion(f, p, env);
    if versionOk.Err? { return Err(versionOk.exc); }
    var tagsOk := TagsOk(f, p.data);
    if tagsOk.Err? { return Err(tagsOk.exc); }
    var flagsOk := TestFlagsOk(f, p.data, env.definedTestFlags);
    if flagsOk.Err? { return Err(flagsOk.exc); }
    if keysOk && categoriesOk && typesOk && fieldsOk.value && versionOk.value && tagsOk.value && flagsOk.value {
      return Ok(!f.inverted);
    }
    return Ok(f.inverted);
  }

  /** Inverting a filter negates its verdict and raises what the original raises. */
  lemma InvertNegates(f: ProviderFilter, p: Provider, env: Env)
    ensures Accepts(f.(inverted := !f.inverted), p, env) ==
      (match Accepts(f, p, env) case Err(e) => Err(e) case Ok(b) => Ok(!b))
  {
    var g := f.(inverted := !f.inverted);
    assert Checks(g, p, env) == Checks(f, p, env) by {
      assert VersionOk(g, p.data, env.appliance) == VersionOk(f, p.data, env.appliance);
      assert TagsOk(g, p.data) == TagsOk(f, p.data);
      assert TestFlagsOk(g, p.data, env.definedTestFlags) == TestFlagsOk(f, p.data, env.definedTestFlags);
      assert KeysOk(g, p) == KeysOk(f, p) && CategoriesOk(g, p) == CategoriesOk(f, p) && TypesOk(g, p) == TypesOk(f, p);
    }
  }

  /**
   * `__call__` as written: after the first six checks it looks up
   * `self.filter_test_flags`, an attribute the class does not have (the
   * method is `_filter_test_flags`, and `self.test_flags` is never set).
   */
  function CallAsWritten(f: ProviderFilter, p: Provider, env: Env): PyResult<bool>
  {
    var fieldsOk :- RequiredFieldsOk(f.requiredFields, p.data);
    var versionOk :- VersionOk(f, p.data, env.appliance);
    var tagsOk :- TagsOk(f, p.data);
    Err(AttributeError("filter_test_flags"))
  }

  /** As written, calling a filter never returns a verdict. */
  lemma CallAsWrittenNeverDecides(f: ProviderFilter, p: Provider, env: Env)
    ensures CallAsWritten(f, p, env).Err?
    ensures Checks(f, p, env).Ok? ==> CallAsWritten(f, p, env) == Err(AttributeError("filter_test_flags"))
  {
  }
}
