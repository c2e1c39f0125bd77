/**
 * The provider registry of utils/providers.py: building provider objects
 * from the configuration, `list_providers` and the functions built on it,
 * the module-level `global_filters` dictionary, and the narrowing done by
 * `setup_a_provider`.
 */
module Providers {
  import opened Wrappers
  import opened PyValues
  import opened ProviderFilters

  /** One entry of `BaseProvider.type_mapping`: a category and the provider types it registers. */
  datatype ProviderCategory = ProviderCategory(category: string, providerTypes: set<string>)

  /** The provider class found for a type: its category and type name. */
  datatype ProviderClass = ProviderClass(category: string, typeName: string)

  predicate KnowsType(cls: ProviderCategory, t: Value) {
    t.Str? && t.s in cls.providerTypes
  }

  /** Category `i` is the first in `mapping` that registers type `t`. */
  predicate FirstKnowing(mapping: seq<ProviderCategory>, t: Value, i: nat)
    requires i < |mapping|
  {
    KnowsType(mapping[i], t) && forall j :: 0 <= j < i ==> !KnowsType(mapping[j], t)
  }

  /**
   * `_get_provider_class_by_type`: the first category, in iteration order,
   * that registers the type. `provider_types.get` raises on an unhashable type.
   */
  function ClassByType(mapping: seq<ProviderCategory>, provType: Value): (r: PyResult<ProviderClass>)
    ensures r.Ok? ==> provType == Str(r.value.typeName)
    ensures r.Ok? ==> exists i :: 0 <= i < |mapping| && FirstKnowing(mapping, provType, i) && mapping[i].category == r.value.category
    ensures Hashable(provType) ==> (r.Ok? <==> exists i :: 0 <= i < |mapping| && KnowsType(mapping[i], provType))
    ensures Hashable(provType) && r.Err? ==> r.exc == UnknownProviderType("Unknown provider type: {}!", provType)
  {
    if |mapping| == 0 then Err(UnknownProviderType("Unknown provider type: {}!", provType))
    else if !Hashable(provType) then Err(TypeError("unhashable type"))
    else if KnowsType(mapping[0], provType) then Ok(ProviderClass(mapping[0].category, provType.s))
    else
      var r := ClassByType(mapping[1..], provType);
      assert forall i :: 1 <= i < |mapping| ==> mapping[i] == mapping[1..][i - 1];
      assert r.Ok? ==> exists i :: 0 <= i < |mapping| && FirstKnowing(mapping, provType, i) && mapping[i].category == r.value.category by {
        if r.Ok? {
          var i :| 0 <= i < |mapping| - 1 && FirstKnowing(mapping[1..], provType, i) && mapping[1..][i].category == r.value.category;
          assert FirstKnowing(mapping, provType, i + 1) by {
            forall j | 0 <= j < i + 1 ensures !KnowsType(mapping[j], provType) {
              if j > 0 { assert mapping[j] == mapping[1..][j - 1]; }
            }
          }
        }
      }
      r
  }

  // ---------------------------------------------------------------- filtering a list

  /**
   * What the list operations need to know about the filters: each filter's
   * verdict on each provider. The registry uses `Verdict(env)`; the lemmas
   * below hold for any verdict function.
   */
  type Judge = (ProviderFilter, Provider) -> PyResult<bool>

  /** The verdict of `ProviderFilter.__call__` in a given environment. */
  function Verdict(env: Env): Judge {
    (f: ProviderFilter, p: Provider) => Accepts(f, p, env)
  }

  /** `filter(f, ps)`: the providers `f` accepts, in order; the first provider on which `f` raises aborts. */
  function Survivors(ps: seq<Provider>, f: ProviderFilter, judge: Judge): PyResult<seq<Provider>>
  {
    if |ps| == 0 then Ok([])
    else match judge(f, ps[0])
      case Err(e) => Err(e)
      case Ok(keep) =>
        var rest :- Survivors(ps[1..], f, judge);
        Ok(if keep then [ps[0]] + rest else rest)
  }

  /** The loop of `list_providers`: `providers = filter(prov_filter, providers)` for each filter in turn. */
  function ApplyAll(ps: seq<Provider>, fs: seq<ProviderFilter>, judge: Judge): PyResult<seq<Provider>>
    decreases |fs|
  {
    if |fs| == 0 then Ok(ps)
    else
      var next :- Survivors(ps, fs[0], judge);
      ApplyAll(next, fs[1..], judge)
  }

  /** The filters from the `j`-th on: apply the `j`-th, then the rest to what it kept. */
  lemma ApplyAllStep(ps: seq<Provider>, fs: seq<ProviderFilter>, j: nat, judge: Judge)
    requires j < |fs|
    ensures ApplyAll(ps, fs[j..], judge) ==
      match Survivors(ps, fs[j], judge)
      case Err(e) => Err(e)
      case Ok(next) => ApplyAll(next, fs[j + 1..], judge)
  {
    assert fs[j..][0] == fs[j] && fs[j..][1..] == fs[j + 1..];
  }

  /** Every filter of `fs` accepts `p` without raising. */
  predicate AllAccept(fs: seq<ProviderFilter>, p: Provider, judge: Judge) {
    forall i :: 0 <= i < |fs| ==> judge(fs[i], p) == Ok(true)
  }

  /** Reference definition: the providers of `ps`, in order, that every filter of `fs` accepts. */
  function Keep(ps: seq<Provider>, fs: seq<ProviderFilter>, judge: Judge): seq<Provider>
  {
    if |ps| == 0 then []
    else (if AllAccept(fs, ps[0], judge) then [ps[0]] else []) + Keep(ps[1..], fs, judge)
  }

  /** A provider is kept exactly when it is in the list and every filter accepts it. */
  lemma {:induction false} KeepMembers(ps: seq<Provider>, fs: seq<ProviderFilter>, judge: Judge)
    ensures forall p :: p in Keep(ps, fs, judge) <==> p in ps && AllAccept(fs, p, judge)
  {
    if |ps| > 0 {
      KeepMembers(ps[1..], fs, judge);
      assert ps == [ps[0]] + ps[1..];
    }
  }

  lemma KeepCons(p: Provider, rest: seq<Provider>, fs: seq<ProviderFilter>, judge: Judge)
    ensures Keep([p] + rest, fs, judge) == (if AllAccept(fs, p, judge) then [p] else []) + Keep(rest, fs, judge)
  {
    assert ([p] + rest)[0] == p && ([p] + rest)[1..] == rest;
  }

  /** `filter` keeps exactly the providers the filter accepts. */
  lemma {:induction false} SurvivorsIsKeep(ps: seq<Provider>, f: ProviderFilter, judge: Judge)
    requires Survivors(ps, f, judge).Ok?
    ensures Survivors(ps, f, judge).value == Keep(ps, [f], judge)
  {
    if |ps| > 0 {
      SurvivorsIsKeep(ps[1..], f, judge);
      assert AllAccept([f], ps[0], judge) <==> judge(f, ps[0]) == Ok(true) by {
        assert [f][0] == f;
      }
      assert Keep(ps, [f], judge) ==
        (if judge(f, ps[0]) == Ok(true) then [ps[0]] else []) + Keep(ps[1..], [f], judge);
    }
  }

  /** `filter` raises nothing when the filter raises on no provider. */
  lemma {:induction false} SurvivorsTotal(ps: seq<Provider>, f: ProviderFilter, judge: Judge)
    requires forall i :: 0 <= i < |ps| ==> judge(f, ps[i]).Ok?
    ensures Survivors(ps, f, judge).Ok?
  {
    if |ps| > 0 {
      assert judge(f, ps[0]).Ok?;
      SurvivorsTotal(ps[1..], f, judge);
    }
  }

  lemma AllAcceptConcat(a: seq<ProviderFilter>, b: seq<ProviderFilter>, p: Provider, judge: Judge)
    ensures AllAccept(a + b, p, judge) <==> AllAccept(a, p, judge) && AllAccept(b, p, judge)
  {
    if AllAccept(a, p, judge) && AllAccept(b, p, judge) {
      forall i | 0 <= i < |a + b| ensures judge((a + b)[i], p) == Ok(true) {
        if i < |a| { assert (a + b)[i] == a[i]; } else { assert (a + b)[i] == b[i - |a|]; }
      }
    }
    if AllAccept(a + b, p, judge) {
      forall i | 0 <= i < |a| ensures judge(a[i], p) == Ok(true) {
        assert (a + b)[i] == a[i];
      }
      forall i | 0 <= i < |b| ensures judge(b[i], p) == Ok(true) {
        assert (a + b)[|a| + i] == b[i];
      }
    }
  }

  /** Filtering by `a` and then by `b` is filtering by both. */
  lemma {:induction false} KeepTwice(ps: seq<Provider>, a: seq<ProviderFilter>, b: seq<ProviderFilter>, judge: Judge)
    ensures Keep(Keep(ps, a, judge), b, judge) == Keep(ps, a + b, judge)
  {
    if |ps| > 0 {
      var p, rest := ps[0], ps[1..];
      KeepTwice(rest, a, b, judge);
      AllAcceptConcat(a, b, p, judge);
      if AllAccept(a, p, judge) {
        assert Keep(ps, a, judge) == [p] + Keep(rest, a, judge);
        KeepCons(p, Keep(rest, a, judge), b, judge);
      } else {
        assert Keep(ps, a, judge) == Keep(rest, a, judge);
        assert Keep(ps, a + b, judge) == Keep(rest, a + b, judge);
      }
    }
  }

  lemma {:induction false} KeepNone(ps: seq<Provider>, judge: Judge)
    ensures Keep(ps, [], judge) == ps
  {
    if |ps| > 0 {
      KeepNone(ps[1..], judge);
    }
  }

  /** Applying the filters one after the other keeps exactly the providers every filter accepts. */
  lemma {:induction false} ApplyAllIsKeep(ps: seq<Provider>, fs: seq<ProviderFilter>, judge: Judge)
    requires ApplyAll(ps, fs, judge).Ok?
    ensures ApplyAll(ps, fs, judge).value == Keep(ps, fs, judge)
    decreases |fs|
  {
    if |fs| == 0 {
      KeepNone(ps, judge);
    } else {
      SurvivorsIsKeep(ps, fs[0], judge);
      var next := Survivors(ps, fs[0], judge).value;
      ApplyAllIsKeep(next, fs[1..], judge);
      KeepTwice(ps, [fs[0]], fs[1..], judge);
      assert [fs[0]] + fs[1..] == fs;
    }
  }

  /** Applying the filters raises nothing when no filter raises on any of the providers. */
  lemma {:induction false} ApplyAllTotal(ps: seq<Provider>, fs: seq<ProviderFilter>, judge: Judge)
    requires forall i, j :: 0 <= i < |ps| && 0 <= j < |fs| ==> judge(fs[j], ps[i]).Ok?
    ensures ApplyAll(ps, fs, judge).Ok?
    decreases |fs|
  {
    if |fs| > 0 {
      SurvivorsTotal(ps, fs[0], judge);
      SurvivorsIsKeep(ps, fs[0], judge);
      var next := Survivors(ps, fs[0], judge).value;
      KeepMembers(ps, [fs[0]], judge);
      forall i, j | 0 <= i < |next| && 0 <= j < |fs[1..]| ensures judge(fs[1..][j], next[i]).Ok? {
        assert next[i] in ps;
        assert fs[1..][j] == fs[j + 1];
      }
      ApplyAllTotal(next, fs[1..], judge);
    }
  }

  lemma {:induction false} KeepSameFilters(ps: seq<Provider>, a: seq<ProviderFilter>, b: seq<ProviderFilter>, judge: Judge)
    requires forall f :: f in a <==> f in b
    ensures Keep(ps, a, judge) == Keep(ps, b, judge)
  {
    if |ps| > 0 {
      KeepSameFilters(ps[1..], a, b, judge);
      var p := ps[0];
      if AllAccept(a, p, judge) {
        forall j | 0 <= j < |b| ensures judge(b[j], p) == Ok(true) {
          assert b[j] in b;
          var i :| 0 <= i < |a| && a[i] == b[j];
        }
      }
      if AllAccept(b, p, judge) {
        forall j | 0 <= j < |a| ensures judge(a[j], p) == Ok(true) {
          assert a[j] in a;
          var i :| 0 <= i < |b| && b[i] == a[j];
        }
      }
    }
  }

  /**
   * The order in which the filters are applied does not change the result:
   * two orderings of the same filters that both raise nothing select the
   * same providers.
   */
  lemma FilterOrderIrrelevant(ps: seq<Provider>, a: seq<ProviderFilter>, b: seq<ProviderFilter>, judge: Judge)
    requires multiset(a) == multiset(b)
    requires ApplyAll(ps, a, judge).Ok? && ApplyAll(ps, b, judge).Ok?
    ensures ApplyAll(ps, a, judge) == ApplyAll(ps, b, judge)
  {
    ApplyAllIsKeep(ps, a, judge);
    ApplyAllIsKeep(ps, b, judge);
    forall f | true ensures f in a <==> f in b {
      assert f in a <==> f in multiset(a);
      assert f in b <==> f in multiset(b);
    }
    KeepSameFilters(ps, a, b, judge);
  }

  /** `[get_crud(k) for k in keys]` given how each key's crud comes out; the first failing key raises. */
  function Prepend(ps: seq<Provider>, r: PyResult<seq<Provider>>): PyResult<seq<Provider>> {
    match r
    case Err(e) => Err(e)
    case Ok(rest) => Ok(ps + rest)
  }

  /** Writing a dictionary entry twice keeps the second value. */
  lemma UpdateTwice(m: map<string, ProviderFilter>, k: string, a: ProviderFilter, b: ProviderFilter)
    ensures m[k := a][k := b] == m[k := b]
  {
  }

  lemma PrependNothing(r: PyResult<seq<Provider>>)
    ensures Prepend([], r) == r
  {
    if r.Ok? { assert [] + r.value == r.value; }
  }

  lemma PrependTwice(a: seq<Provider>, b: seq<Provider>, r: PyResult<seq<Provider>>)
    ensures Prepend(a, Prepend(b, r)) == Prepend(a + b, r)
  {
    if r.Ok? { assert a + (b + r.value) == (a + b) + r.value; }
  }

  /** The names of `names`, in order, that `m` holds, mapped to their filters. */
  function FiltersNamed(names: seq<string>, m: map<string, ProviderFilter>): (r: seq<ProviderFilter>)
    ensures forall f :: f in r ==> exists n :: n in m && m[n] == f
    ensures forall n :: n in names && n in m ==> m[n] in r
  {
    if |names| == 0 then []
    else (if names[0] in m then [m[names[0]]] else []) + FiltersNamed(names[1..], m)
  }

  /** The problematic filter created when none is registered: an inverted filter over an empty key list. */
  const FreshNonproblematic: ProviderFilter := Defaults.(keys := Some([]), inverted := true)

  /** `setup_a_provider`'s default filters: infrastructure providers. */
  const InfraOnly: ProviderFilter := Defaults.(categories := Some(["infra"]))

  /** Rejects every provider that has a `do_not_prefer` field and passes the other checks. */
  const DoNotPrefer: ProviderFilter := Defaults.(requiredFields := [Tuple([Str("do_not_prefer"), False])], inverted := true)

  /** The filter registered as `global_filters['enabled_only']`. */
  const EnabledOnly: ProviderFilter := Defaults.(requiredTags := ["disabled"], inverted := true)

  const NothingLeft := "All providers have been filtered out, cannot setup any providers"
  const NoneSetUp := "No providers could be set up matching the params"

  /** The filters `setup_a_provider` starts from. */
  function UserFilters(filters: Option<seq<ProviderFilter>>): seq<ProviderFilter> {
    if filters.None? then [InfraOnly] else filters.value
  }

  /** `[prov for prov in providers if not prov.exists]`, with `exists` given as a set of keys. */
  function NotExisting(ps: seq<Provider>, existing: set<string>): (r: seq<Provider>)
    ensures forall p :: p in r <==> p in ps && p.key !in existing
  {
    if |ps| == 0 then []
    else (if ps[0].key in existing then [] else [ps[0]]) + NotExisting(ps[1..], existing)
  }

  function KeysOf(ps: seq<Provider>): (r: seq<string>)
    ensures |r| == |ps| && forall i :: 0 <= i < |ps| ==> r[i] == ps[i].key
  {
    if |ps| == 0 then [] else [ps[0].key] + KeysOf(ps[1..])
  }

  /**
   * The `for ... else` loop at the end of `setup_a_provider`: the first
   * candidate whose setup succeeds is returned; each failing one is appended
   * to the problematic filter's keys (raising if that filter has no key list).
   * Returns the outcome and the problematic keys afterwards.
   */
  function Attempt(candidates: seq<Provider>, failing: set<string>, quarantine: Option<seq<string>>): (PyResult<Provider>, Option<seq<string>>)
    decreases |candidates|
  {
    if |candidates| == 0 then (Err(Exception(NoneSetUp, NoneV)), quarantine)
    else if candidates[0].key !in failing then (Ok(candidates[0]), quarantine)
    else if quarantine.None? then (Err(AttributeError("append")), quarantine)
    else Attempt(candidates[1..], failing, Some(quarantine.value + [candidates[0].key]))
  }

  /**
   * The list `setup_a_provider` finally tries: a single provider as it is;
   * otherwise the preferred listing when it raises nothing and is not
   * empty, the whole pool when it is empty, and no list when it raises.
   */
  function TriedPool(pool: seq<Provider>, preferred: PyResult<seq<Provider>>): Option<seq<Provider>> {
    if |pool| <= 1 then Some(pool)
    else if preferred.Err? then None
    else if |preferred.value| > 0 then Some(preferred.value)
    else Some(pool)
  }

  /** A provider is set up exactly when some candidate is not set up yet and does not fail. */
  predicate SetsUpIff(r: PyResult<Provider>, candidates: seq<Provider>, existing: set<string>, failing: set<string>) {
    r.Ok? <==> exists p :: p in candidates && p.key !in existing && p.key !in failing
  }

  /** `setup_a_provider` goes on to set up a provider: the listing is non-empty and none of it exists. */
  predicate Pooled(all: PyResult<seq<Provider>>, existing: set<string>) {
    all.Ok? && |all.value| > 0 && forall p :: p in all.value ==> p.key !in existing
  }

  /**
   * The outcome of `setup_a_provider` when it stops before setting up: the
   * listing's exception, "All providers have been filtered out" for an empty
   * listing, or the first listed provider that already exists.
   */
  predicate Reused(all: PyResult<seq<Provider>>, existing: set<string>, r: PyResult<Provider>) {
    && (all.Err? ==> r == Err(all.exc))
    && (all.Ok? && |all.value| == 0 ==> r == Err(Exception(NothingLeft, NoneV)))
    && (all.Ok? && (exists p :: p in all.value && p.key in existing) ==>
          r.Ok? && r.value.key in existing &&
          exists i :: 0 <= i < |all.value| && all.value[i] == r.value &&
            forall j :: 0 <= j < i ==> all.value[j].key !in existing)
  }

  /** The position of the first candidate whose setup does not fail (the length when all fail). */
  function FirstSuccess(candidates: seq<Provider>, failing: set<string>): (i: nat)
    ensures i <= |candidates|
    ensures forall j :: 0 <= j < i ==> candidates[j].key in failing
    ensures i < |candidates| ==> candidates[i].key !in failing
  {
    if |candidates| == 0 || candidates[0].key !in failing then 0
    else 1 + FirstSuccess(candidates[1..], failing)
  }

  /**
   * With a key list to append to, the loop returns the first candidate whose
   * setup does not fail, after quarantining every candidate before it; when
   * all fail it raises "No providers could be set up" with all of them
   * quarantined.
   */
  lemma {:induction false} AttemptOutcome(candidates: seq<Provider>, failing: set<string>, q: seq<string>)
    ensures Attempt(candidates, failing, Some(q)) ==
      (var i := FirstSuccess(candidates, failing);
       (if i < |candidates| then Ok(candidates[i]) else Err(Exception(NoneSetUp, NoneV)),
        Some(q + KeysOf(candidates[..i]))))
    decreases |candidates|
  {
    if |candidates| == 0 {
      assert q + KeysOf(candidates[..0]) == q;
    } else if candidates[0].key !in failing {
      assert q + KeysOf(candidates[..0]) == q;
    } else {
      var c, rest := candidates[0], candidates[1..];
      var i := FirstSuccess(rest, failing);
      var keys := q + KeysOf(candidates[..i + 1]);
      assert Attempt(rest, failing, Some(q + [c.key])) ==
          (if i < |rest| then Ok(rest[i]) else Err(Exception(NoneSetUp, NoneV)), Some(keys)) by {
        AttemptOutcome(rest, failing, q + [c.key]);
        KeysOfFirst(candidates, i);
        assert q + [c.key] + KeysOf(rest[..i]) == keys;
      }
      assert FirstSuccess(candidates, failing) == i + 1;
      if i < |rest| {
        assert candidates[i + 1] == rest[i];
      }
    }
  }

  /** With a key list to append to, the loop sets up a provider exactly when some candidate does not fail. */
  lemma AttemptSucceedsIff(candidates: seq<Provider>, failing: set<string>, q: seq<string>)
    ensures Attempt(candidates, failing, Some(q)).0.Ok? <==> exists p :: p in candidates && p.key !in failing
  {
    AttemptOutcome(candidates, failing, q);
    var i := FirstSuccess(candidates, failing);
    if i == |candidates| {
      forall p | p in candidates ensures p.key in failing {
        var j :| 0 <= j < |candidates| && candidates[j] == p;
      }
    }
  }

  /**
   * Trying the providers not yet set up, in any order, sets one up exactly
   * when one of them does not fail.
   */
  lemma ShuffledSucceedsIff(shuffled: seq<Provider>, providers: seq<Provider>, existing: set<string>, failing: set<string>, q: seq<string>)
    requires multiset(shuffled) == multiset(NotExisting(providers, existing))
    ensures Attempt(shuffled, failing, Some(q)).0.Ok? <==> exists p :: p in providers && p.key !in existing && p.key !in failing
  {
    AttemptSucceedsIff(shuffled, failing, q);
    assert forall p :: p in shuffled <==> p in multiset(NotExisting(providers, existing));
  }

  /** The keys of the first `i + 1` candidates: the first key, then the keys of the next `i`. */
  lemma KeysOfFirst(candidates: seq<Provider>, i: nat)
    requires i < |candidates|
    ensures KeysOf(candidates[..i + 1]) == [candidates[0].key] + KeysOf(candidates[1..][..i])
  {
    var l, r := KeysOf(candidates[..i + 1]), [candidates[0].key] + KeysOf(candidates[1..][..i]);
    assert |l| == |r|;
    forall j | 0 <= j < |l| ensures l[j] == r[j] {
      if j > 0 {
        assert candidates[1..][..i][j - 1] == candidates[j];
      }
    }
  }

  /** The setup loop, trying each candidate in turn. */
  method TrySetup(candidates: seq<Provider>, failing: set<string>, quarantine: Option<seq<string>>)
    returns (r: PyResult<Provider>, keys: Option<seq<string>>)
    ensures (r, keys) == Attempt(candidates, failing, quarantine)
  {
    keys := quarantine;
    var i := 0;
    while i < |candidates|
      invariant 0 <= i <= |candidates|
      invariant Attempt(candidates, failing, quarantine) == Attempt(candidates[i..], failing, keys)
    {
      var provider := candidates[i];
      assert candidates[i..][1..] == candidates[i + 1..];
      if provider.key !in failing {
        return Ok(provider), keys;
      }
      if keys.None? {
        return Err(AttributeError("append")), keys;
      }
      keys := Some(keys.value + [provider.key]);
      i := i + 1;
    }
    return Err(Exception(NoneSetUp, NoneV)), keys;
  }

  /**
   * The setup loop as written: `setup_provider` is called without the
   * provider key, which raises a TypeError that the loop catches; the handler
   * then reads `global_filters.problematic`, an attribute a dict does not
   * have, and that AttributeError escapes.
   */
  function AttemptAsWritten(candidates: seq<Provider>): PyResult<Provider>
  {
    if |candidates| == 0 then Err(Exception(NoneSetUp, NoneV))
    else Err(AttributeError("problematic"))
  }

  /** As written, no candidate is ever set up, while the corrected loop sets up any candidate that does not fail. */
  lemma AttemptAsWrittenNeverSetsUp(candidates: seq<Provider>, failing: set<string>, quarantine: seq<string>)
    requires |candidates| > 0 && candidates[0].key !in failing
    ensures AttemptAsWritten(candidates) == Err(AttributeError("problematic"))
    ensures Attempt(candidates, failing, Some(quarantine)).0 == Ok(candidates[0])
  {
  }

  /**
   * An item of the filter list as `list_providers` builds it: the caller's
   * filters are callables, but `global_filters.items()` contributes
   * `(name, filter)` tuples.
   */
  datatype FilterItem = Callable(f: ProviderFilter) | NamedPair(name: string, pf: ProviderFilter)

  /** `filter(item, ps)`: calling a tuple raises a TypeError as soon as there is a provider to call it on. */
  function SurvivorsOfItem(ps: seq<Provider>, item: FilterItem, judge: Judge): PyResult<seq<Provider>>
  {
    match item
    case Callable(f) => Survivors(ps, f, judge)
    case NamedPair(_, _) => if |ps| == 0 then Ok([]) else Err(TypeError("'tuple' object is not callable"))
  }

  function ApplyItems(ps: seq<Provider>, items: seq<FilterItem>, judge: Judge): PyResult<seq<Provider>>
    decreases |items|
  {
    if |items| == 0 then Ok(ps)
    else
      var next :- SurvivorsOfItem(ps, items[0], judge);
      ApplyItems(next, items[1..], judge)
  }

  function Callables(fs: seq<ProviderFilter>): (r: seq<FilterItem>)
    ensures |r| == |fs| && forall i :: 0 <= i < |fs| ==> r[i] == Callable(fs[i])
  {
    if |fs| == 0 then [] else [Callable(fs[0])] + Callables(fs[1..])
  }

  function Items(names: seq<string>, m: map<string, ProviderFilter>): seq<FilterItem>
  {
    if |names| == 0 then []
    else (if names[0] in m then [NamedPair(names[0], m[names[0]])] else []) + Items(names[1..], m)
  }

  lemma {:induction false} ApplyItemsConcat(ps: seq<Provider>, a: seq<FilterItem>, b: seq<FilterItem>, judge: Judge)
    ensures ApplyItems(ps, a + b, judge) ==
      (match ApplyItems(ps, a, judge) case Err(e) => Err(e) case Ok(next) => ApplyItems(next, b, judge))
    decreases |a|
  {
    if |a| == 0 {
      assert a + b == b;
    } else {
      assert (a + b)[0] == a[0] && (a + b)[1..] == a[1..] + b;
      match SurvivorsOfItem(ps, a[0], judge)
      case Err(e) =>
      case Ok(next) => ApplyItemsConcat(next, a[1..], b, judge);
    }
  }

  lemma {:induction false} ApplyCallables(ps: seq<Provider>, fs: seq<ProviderFilter>, judge: Judge)
    ensures ApplyItems(ps, Callables(fs), judge) == ApplyAll(ps, fs, judge)
    decreases |fs|
  {
    if |fs| > 0 {
      assert Callables(fs)[1..] == Callables(fs[1..]);
      match Survivors(ps, fs[0], judge)
      case Err(e) =>
      case Ok(next) => ApplyCallables(next, fs[1..], judge);
    }
  }

  lemma {:induction false} NamedPairsRaise(ps: seq<Provider>, names: seq<string>, m: map<string, ProviderFilter>, judge: Judge)
    requires |ps| > 0
    requires exists n :: n in names && n in m
    ensures ApplyItems(ps, Items(names, m), judge) == Err(TypeError("'tuple' object is not callable"))
  {
    if names[0] !in m {
      assert exists n :: n in names[1..] && n in m by {
        var n :| n in names && n in m;
        assert n != names[0];
        var i :| 0 <= i < |names| && names[i] == n;
        assert names[1..][i - 1] == n;
      }
      NamedPairsRaise(ps, names[1..], m, judge);
      assert Items(names, m) == Items(names[1..], m);
    }
  }

  // ---------------------------------------------------------------- the registry

  /**
   * The module state of utils/providers.py: `providers_data` (with the
   * iteration order of its keys), the type registry, and `global_filters`
   * (with the iteration order of its names).
   */
  class Registry {
    const providerOrder: seq<string>
    const providersData: map<string, map<string, Value>>
    const typeMapping: seq<ProviderCategory>
    var filterNames: seq<string>
    var globalFilters: map<string, ProviderFilter>

    ghost predicate Valid()
      reads this
    {
      (forall i, j :: 0 <= i < j < |providerOrder| ==> providerOrder[i] != providerOrder[j]) &&
      (forall k :: k in providersData <==> k in providerOrder) &&
      (forall i, j :: 0 <= i < j < |filterNames| ==> filterNames[i] != filterNames[j]) &&
      (forall n :: n in globalFilters <==> n in filterNames)
    }

    /** Loading the module: `global_filters` holds only `enabled_only`. */
    constructor (order: seq<string>, data: map<string, map<string, Value>>, mapping: seq<ProviderCategory>)
      requires forall i, j :: 0 <= i < j < |order| ==> order[i] != order[j]
      requires forall k :: k in data <==> k in order
      ensures Valid()
      ensures providerOrder == order && providersData == data && typeMapping == mapping
      ensures filterNames == ["enabled_only"] && globalFilters == map["enabled_only" := EnabledOnly]
    {
      providerOrder, providersData, typeMapping := order, data, mapping;
      filterNames := ["enabled_only"];
      globalFilters := map["enabled_only" := EnabledOnly];
    }

    /** `get_crud`: the provider object for a configured key. */
    function GetCrud(key: string): (r: PyResult<Provider>)
      ensures key !in providersData ==> r == Err(KeyError(Str(key)))
      ensures r.Ok? ==> r.value.key == key && key in providersData && r.value.data == providersData[key]
      ensures r.Ok? ==> DictGet(providersData[key], "type", NoneV) == Str(r.value.typeName)
      ensures key in providersData && Hashable(DictGet(providersData[key], "type", NoneV)) ==>
        (r.Ok? <==> exists i :: 0 <= i < |typeMapping| && KnowsType(typeMapping[i], DictGet(providersData[key], "type", NoneV)))
    {
      if key !in providersData then Err(KeyError(Str(key)))
      else
        var config := providersData[key];
        var cls :- ClassByType(typeMapping, DictGet(config, "type", NoneV));
        Ok(Provider(key, cls.category, cls.typeName, config))
    }

    /** `[get_crud(k) for k in keys]` */
    function Cruds(keys: seq<string>): (r: PyResult<seq<Provider>>)
      ensures r.Ok? ==> |r.value| == |keys| && forall i :: 0 <= i < |keys| ==> GetCrud(keys[i]) == Ok(r.value[i])
      ensures r.Err? ==> exists i :: 0 <= i < |keys| && GetCrud(keys[i]).Err?
    {
      if |keys| == 0 then Ok([])
      else
        var p :- GetCrud(keys[0]);
        var rest := Cruds(keys[1..]);
        Prepend([p], rest)
    }

    /** The global filters in iteration order. */
    function GlobalFilters(): seq<ProviderFilter>
      reads this
    {
      FiltersNamed(filterNames, globalFilters)
    }

    /** The filters `list_providers` applies (with the global ones taken as callables). */
    function ActiveFilters(filters: seq<ProviderFilter>, useGlobal: bool): seq<ProviderFilter>
      reads this
    {
      filters + (if useGlobal then GlobalFilters() else [])
    }

    /** `list_providers` */
    function ListProvidersSpec(filters: seq<ProviderFilter>, useGlobal: bool, env: Env): PyResult<seq<Provider>>
      reads this
    {
      var all :- Cruds(providerOrder);
      ApplyAll(all, ActiveFilters(filters, useGlobal), Verdict(env))
    }

    /** `list_providers` as written: `global_filters.items()` adds `(name, filter)` tuples to the filter list. */
    function ListProvidersAsWritten(filters: seq<ProviderFilter>, useGlobal: bool, env: Env): PyResult<seq<Provider>>
      reads this
    {
      var all :- Cruds(providerOrder);
      ApplyItems(all, Callables(filters) + (if useGlobal then Items(filterNames, globalFilters) else []), Verdict(env))
    }

    /**
     * As written, `list_providers` with the global filters on raises a
     * TypeError whenever some provider survives the caller's filters and a
     * global filter is registered (and `enabled_only` always is).
     */
    lemma ListProvidersAsWrittenRaises(filters: seq<ProviderFilter>, env: Env)
      requires Valid() && |filterNames| > 0
      requires ListProvidersSpec(filters, false, env).Ok? && |ListProvidersSpec(filters, false, env).value| > 0
      ensures ListProvidersAsWritten(filters, true, env) == Err(TypeError("'tuple' object is not callable"))
    {
      var all := Cruds(providerOrder).value;
      assert ActiveFilters(filters, false) == filters;
      ApplyItemsConcat(all, Callables(filters), Items(filterNames, globalFilters), Verdict(env));
      ApplyCallables(all, filters, Verdict(env));
      assert filterNames[0] in filterNames && filterNames[0] in globalFilters;
      NamedPairsRaise(ListProvidersSpec(filters, false, env).value, filterNames, globalFilters, Verdict(env));
    }

    /** `filter(f, ps)` as a loop over the providers. */
    method FilterProviders(f: ProviderFilter, ps: seq<Provider>, env: Env) returns (r: PyResult<seq<Provider>>)
      ensures r == Survivors(ps, f, Verdict(env))
    {
      var kept: seq<Provider> := [];
      var i := 0;
      assert ps[0..] == ps;
      PrependNothing(Survivors(ps, f, Verdict(env)));
      while i < |ps|
        invariant 0 <= i <= |ps|
        invariant Survivors(ps, f, Verdict(env)) == Prepend(kept, Survivors(ps[i..], f, Verdict(env)))
      {
        var keep := Call(f, ps[i], env);
        assert Verdict(env)(f, ps[i]) == keep;
        assert ps[i..][0] == ps[i] && ps[i..][1..] == ps[i + 1..];
        if keep.Err? {
          return Err(keep.exc);
        }
        if keep.value {
          assert Survivors(ps[i..], f, Verdict(env)) == Prepend([ps[i]], Survivors(ps[i + 1..], f, Verdict(env)));
          PrependTwice(kept, [ps[i]], Survivors(ps[i + 1..], f, Verdict(env)));
          kept := kept + [ps[i]];
        } else {
          assert Survivors(ps[i..], f, Verdict(env)) == Survivors(ps[i + 1..], f, Verdict(env));
        }
        i := i + 1;
      }
      assert kept + [] == kept;
      return Ok(kept);
    }

    /** The providers from the `i`-th key on: build the `i`-th, then the rest unless it raised. */
    lemma CrudsStep(keys: seq<string>, i: nat)
      requires i < |keys|
      ensures Cruds(keys[i..]) ==
        match GetCrud(keys[i])
        case Err(e) => Err(e)
        case Ok(p) => Prepend([p], Cruds(keys[i + 1..]))
    {
      assert keys[i..][0] == keys[i] && keys[i..][1..] == keys[i + 1..];
    }

    /** `[get_crud(k) for k in providers_data]`, one key at a time. */
    method BuildCruds(keys: seq<string>) returns (r: PyResult<seq<Provider>>)
      ensures r == Cruds(keys)
    {
      var providers: seq<Provider> := [];
      var i := 0;
      assert keys[0..] == keys;
      PrependNothing(Cruds(keys));
      while i < |keys|
        invariant 0 <= i <= |keys|
        invariant Cruds(keys) == Prepend(providers, Cruds(keys[i..]))
      {
        CrudsStep(keys, i);
        var p := GetCrud(keys[i]);
        if p.Err? {
          return Err(p.exc);
        }
        PrependTwice(providers, [p.value], Cruds(keys[i + 1..]));
        providers := providers + [p.value];
        i := i + 1;
      }
      assert keys[|keys|..] == [];
      assert providers + [] == providers;
      return Ok(providers);
    }

    /** `list_providers`: build every configured provider, then narrow the list by each filter in turn. */
    method ListProviders(filters: seq<ProviderFilter>, useGlobal: bool, env: Env) returns (r: PyResult<seq<Provider>>)
      ensures r == ListProvidersSpec(filters, useGlobal, env)
    {
      var active := filters;
      if useGlobal {
        active := active + GlobalFilters();
      }
      var built := BuildCruds(providerOrder);
      if built.Err? {
        return Err(built.exc);
      }
      assert active == ActiveFilters(filters, useGlobal);
      r := ApplyFilters(built.value, active, env);
    }

    /** `for f in filters: providers = filter(f, providers)`. */
    method ApplyFilters(ps: seq<Provider>, fs: seq<ProviderFilter>, env: Env) returns (r: PyResult<seq<Provider>>)
      ensures r == ApplyAll(ps, fs, Verdict(env))
    {
      var providers := ps;
      var j := 0;
      assert fs[0..] == fs;
      while j < |fs|
        invariant 0 <= j <= |fs|
        invariant ApplyAll(ps, fs, Verdict(env)) == ApplyAll(providers, fs[j..], Verdict(env))
      {
        ApplyAllStep(providers, fs, j, Verdict(env));
        var next := FilterProviders(fs[j], providers, env);
        if next.Err? {
          return Err(next.exc);
        }
        providers := next.value;
        j := j + 1;
      }
      return Ok(providers);
    }

    /**
     * `list_providers` returns exactly the configured providers that every
     * active filter accepts, in configuration order.
     */
    lemma ListedAreAccepted(filters: seq<ProviderFilter>, useGlobal: bool, env: Env)
      requires ListProvidersSpec(filters, useGlobal, env).Ok?
      ensures Cruds(providerOrder).Ok?
      ensures ListProvidersSpec(filters, useGlobal, env).value == Keep(Cruds(providerOrder).value, ActiveFilters(filters, useGlobal), Verdict(env))
      ensures forall p :: p in ListProvidersSpec(filters, useGlobal, env).value ==>
        p in Cruds(providerOrder).value && AllAccept(filters, p, Verdict(env)) && (useGlobal ==> AllAccept(GlobalFilters(), p, Verdict(env)))
    {
      var all := Cruds(providerOrder).value;
      ApplyAllIsKeep(all, ActiveFilters(filters, useGlobal), Verdict(env));
      KeepMembers(all, ActiveFilters(filters, useGlobal), Verdict(env));
      forall p | p in ListProvidersSpec(filters, useGlobal, env).value
        ensures AllAccept(filters, p, Verdict(env)) && (useGlobal ==> AllAccept(GlobalFilters(), p, Verdict(env)))
      {
        AllAcceptConcat(filters, if useGlobal then GlobalFilters() else [], p, Verdict(env));
      }
    }

    /** With the global filters on, `list_providers` returns a sub-list of what it returns with them off. */
    lemma GlobalFiltersNarrow(filters: seq<ProviderFilter>, env: Env)
      requires ListProvidersSpec(filters, true, env).Ok? && ListProvidersSpec(filters, false, env).Ok?
      ensures ListProvidersSpec(filters, true, env).value ==
        Keep(ListProvidersSpec(filters, false, env).value, GlobalFilters(), Verdict(env))
    {
      var all := Cruds(providerOrder).value;
      ListedAreAccepted(filters, true, env);
      ListedAreAccepted(filters, false, env);
      assert ActiveFilters(filters, false) == filters;
      KeepTwice(all, filters, GlobalFilters(), Verdict(env));
    }

    /** Adding filters to a listing with the global filters on only narrows it. */
    lemma ExtraFiltersNarrow(filters: seq<ProviderFilter>, extra: seq<ProviderFilter>, env: Env)
      requires ListProvidersSpec(filters + extra, true, env).Ok? && ListProvidersSpec(filters, true, env).Ok?
      ensures forall p :: p in ListProvidersSpec(filters + extra, true, env).value ==> p in ListProvidersSpec(filters, true, env).value
    {
      var all := Cruds(providerOrder).value;
      ListedAreAccepted(filters + extra, true, env);
      ListedAreAccepted(filters, true, env);
      KeepMembers(all, ActiveFilters(filters + extra, true), Verdict(env));
      KeepMembers(all, ActiveFilters(filters, true), Verdict(env));
      forall p | p in ListProvidersSpec(filters + extra, true, env).value
        ensures p in ListProvidersSpec(filters, true, env).value
      {
        AllAcceptConcat(filters + extra, GlobalFilters(), p, Verdict(env));
        AllAcceptConcat(filters, extra, p, Verdict(env));
        AllAcceptConcat(filters, GlobalFilters(), p, Verdict(env));
      }
    }

    /**
     * The list the last stage of `setup_a_provider` tries is never empty,
     * keeps to the caller's filters, and is drawn from the pool or from
     * the providers the non-problematic filter lets through.
     */
    lemma TriedPoolFrom(fs: seq<ProviderFilter>, npf: ProviderFilter, pool: seq<Provider>, env: Env)
      requires Eligible(pool, fs, env) && |pool| > 0
      ensures var t := TriedPool(pool, ListProvidersSpec(fs + [npf, DoNotPrefer], true, env));
        t.Some? ==> |t.value| > 0 && Eligible(t.value, fs, env)
      ensures var t := TriedPool(pool, ListProvidersSpec(fs + [npf, DoNotPrefer], true, env));
        var listing := ListProvidersSpec(fs + [npf], true, env);
        t.Some? && listing.Ok? ==> forall p :: p in t.value ==> p in pool || p in listing.value
    {
      var preferred := ListProvidersSpec(fs + [npf, DoNotPrefer], true, env);
      if |pool| > 1 && preferred.Ok? && |preferred.value| > 0 {
        ProvidersPassUser(fs, [npf, DoNotPrefer], true, env);
        if ListProvidersSpec(fs + [npf], true, env).Ok? {
          assert fs + [npf, DoNotPrefer] == (fs + [npf]) + [DoNotPrefer];
          ExtraFiltersNarrow(fs + [npf], [DoNotPrefer], env);
        }
      }
    }

    /** `list_provider_keys` */
    function ListProviderKeys(filters: seq<ProviderFilter>, useGlobal: bool, env: Env): (r: PyResult<seq<string>>)
      reads this
      ensures r.Ok? <==> ListProvidersSpec(filters, useGlobal, env).Ok?
      ensures r.Ok? ==> r.value == KeysOf(ListProvidersSpec(filters, useGlobal, env).value)
    {
      var ps :- ListProvidersSpec(filters, useGlobal, env);
      Ok(KeysOf(ps))
    }

    /**
     * `list_provider_keys` returns exactly the configured keys whose
     * providers every active filter accepts.
     */
    lemma ListedKeysAccepted(filters: seq<ProviderFilter>, useGlobal: bool, env: Env, k: string)
      requires ListProviderKeys(filters, useGlobal, env).Ok?
      ensures k in ListProviderKeys(filters, useGlobal, env).value <==>
        k in providerOrder && GetCrud(k).Ok? && AllAccept(ActiveFilters(filters, useGlobal), GetCrud(k).value, Verdict(env))
      ensures k in ListProviderKeys(filters, useGlobal, env).value ==>
        AllAccept(filters, GetCrud(k).value, Verdict(env)) &&
        (useGlobal ==> AllAccept(GlobalFilters(), GetCrud(k).value, Verdict(env)))
    {
      if k in ListProviderKeys(filters, useGlobal, env).value {
        ListedKeyAccepted(filters, useGlobal, env, k);
      }
      if k in providerOrder && GetCrud(k).Ok? && AllAccept(ActiveFilters(filters, useGlobal), GetCrud(k).value, Verdict(env)) {
        AcceptedKeyListed(filters, useGlobal, env, k);
      }
    }

    /** A listed key is configured and its crud passes every active filter. */
    lemma ListedKeyAccepted(filters: seq<ProviderFilter>, useGlobal: bool, env: Env, k: string)
      requires ListProviderKeys(filters, useGlobal, env).Ok?
      requires k in ListProviderKeys(filters, useGlobal, env).value
      ensures k in providerOrder && GetCrud(k).Ok?
      ensures AllAccept(ActiveFilters(filters, useGlobal), GetCrud(k).value, Verdict(env))
      ensures AllAccept(filters, GetCrud(k).value, Verdict(env))
      ensures useGlobal ==> AllAccept(GlobalFilters(), GetCrud(k).value, Verdict(env))
    {
      var all := Cruds(providerOrder).value;
      var ps := ListProvidersSpec(filters, useGlobal, env).value;
      var j :| 0 <= j < |ps| && KeysOf(ps)[j] == k;
      var p := ps[j];
      CrudOfListed(filters, useGlobal, env, p);
      ListedAreAccepted(filters, useGlobal, env);
      AllAcceptConcat(filters, if useGlobal then GlobalFilters() else [], p, Verdict(env));
      var i :| 0 <= i < |all| && all[i] == p;
      assert providerOrder[i] == k;
    }

    /** A configured key whose crud passes every active filter is listed. */
    lemma AcceptedKeyListed(filters: seq<ProviderFilter>, useGlobal: bool, env: Env, k: string)
      requires ListProviderKeys(filters, useGlobal, env).Ok?
      requires k in providerOrder && GetCrud(k).Ok?
      requires AllAccept(ActiveFilters(filters, useGlobal), GetCrud(k).value, Verdict(env))
      ensures k in ListProviderKeys(filters, useGlobal, env).value
    {
      var all := Cruds(providerOrder).value;
      var ps := ListProvidersSpec(filters, useGlobal, env).value;
      ListedAreAccepted(filters, useGlobal, env);
      KeepMembers(all, ActiveFilters(filters, useGlobal), Verdict(env));
      var i :| 0 <= i < |providerOrder| && providerOrder[i] == k;
      assert all[i] == GetCrud(k).value;
      var j :| 0 <= j < |ps| && ps[j] == all[i];
      assert KeysOf(ps)[j] == k;
    }

    /**
     * `existing_providers`: the providers `list_providers()` returns (no
     * filters of the caller's, the global ones applied) that are already
     * set up, with `exists` given as the set of keys set up.
     */
    function ExistingProviders(env: Env, existing: set<string>): (r: PyResult<seq<Provider>>)
      reads this
      ensures r.Ok? <==> ListProvidersSpec([], true, env).Ok?
      ensures r.Err? ==> r == Err(ListProvidersSpec([], true, env).exc)
      ensures r.Ok? ==> forall p :: p in r.value <==> p in ListProvidersSpec([], true, env).value && p.key in existing
    {
      var ps :- ListProvidersSpec([], true, env);
      Ok(Existing(ps, existing))
    }

    /**
     * A provider is among the existing ones exactly when it is set up,
     * configured, built by `get_crud` and let through by every global filter.
     */
    lemma ExistingProvidersAccepted(env: Env, existing: set<string>, p: Provider)
      requires ExistingProviders(env, existing).Ok?
      ensures p in ExistingProviders(env, existing).value <==>
        p.key in existing && p.key in providerOrder && GetCrud(p.key) == Ok(p) && AllAccept(GlobalFilters(), p, Verdict(env))
    {
      var ps := ListProvidersSpec([], true, env).value;
      assert ActiveFilters([], true) == GlobalFilters();
      if p in ps {
        var j :| 0 <= j < |ps| && ps[j] == p;
        assert KeysOf(ps)[j] == p.key;
        ListedKeyAccepted([], true, env, p.key);
        CrudOfListed([], true, env, p);
      }
      if p.key in providerOrder && GetCrud(p.key) == Ok(p) && AllAccept(GlobalFilters(), p, Verdict(env)) {
        AcceptedKeyListed([], true, env, p.key);
        var j :| 0 <= j < |ps| && KeysOf(ps)[j] == p.key;
        CrudOfListed([], true, env, ps[j]);
      }
    }

    /** The configured provider `k` has `name` as its `name` field. */
    predicate HasName(k: string, name: Value)
      reads this
    {
      k in providersData && DictGet(providersData[k], "name", NoneV) == name
    }

    /**
     * `get_crud_by_name`: the crud of the first configured provider whose
     * `name` equals the argument, or `NameError` when there is none.
     */
    function GetCrudByName(name: Value): (r: PyResult<Provider>)
      reads this
      ensures (forall k :: k in providerOrder ==> !HasName(k, name)) <==> r == Err(NameError("Could not find provider {}", name))
      ensures forall i :: (0 <= i < |providerOrder| && HasName(providerOrder[i], name) &&
        forall j :: 0 <= j < i ==> !HasName(providerOrder[j], name)) ==> r == GetCrud(providerOrder[i])
    {
      CrudByNameFirst(providerOrder, name);
      CrudByNameIn(providerOrder, name)
    }

    /** The loop of `get_crud_by_name` over the keys `keys`. */
    function CrudByNameIn(keys: seq<string>, name: Value): (r: PyResult<Provider>)
      reads this
      ensures (forall k :: k in keys ==> !HasName(k, name)) <==> r == Err(NameError("Could not find provider {}", name))
    {
      if |keys| == 0 then Err(NameError("Could not find provider {}", name))
      else if HasName(keys[0], name) then GetCrud(keys[0])
      else
        assert forall k :: k in keys ==> k == keys[0] || k in keys[1..];
        CrudByNameIn(keys[1..], name)
    }

    /** The first key whose `name` matches decides `CrudByNameIn`. */
    lemma {:induction false} CrudByNameFirst(keys: seq<string>, name: Value)
      ensures forall i :: (0 <= i < |keys| && HasName(keys[i], name) &&
        forall j :: 0 <= j < i ==> !HasName(keys[j], name)) ==> CrudByNameIn(keys, name) == GetCrud(keys[i])
    {
      forall i | 0 <= i < |keys| && HasName(keys[i], name) && forall j :: 0 <= j < i ==> !HasName(keys[j], name)
        ensures CrudByNameIn(keys, name) == GetCrud(keys[i])
      {
        if i > 0 {
          assert !HasName(keys[0], name);
          CrudByNameFirst(keys[1..], name);
          assert keys[1..][i - 1] == keys[i];
          assert forall j :: 0 <= j < i - 1 ==> keys[1..][j] == keys[j + 1];
        }
      }
    }

    /** `global_filters[name] = f` */
    method SetGlobalFilter(name: string, f: ProviderFilter)
      requires Valid()
      modifies this
      ensures Valid()
      ensures globalFilters == old(globalFilters)[name := f]
      ensures filterNames == if name in old(globalFilters) then old(filterNames) else old(filterNames) + [name]
    {
      if name !in globalFilters {
        filterNames := filterNames + [name];
      }
      globalFilters := globalFilters[name := f];
    }

    /** The providers that pass `filters` and are configured cruds. */
    /** The problematic filter, when registered, has a key list that failures can be appended to. */
    predicate QuarantineListed()
      reads this
    {
      "problematic" in globalFilters ==> globalFilters["problematic"].keys.Some?
    }

    ghost predicate Eligible(ps: seq<Provider>, filters: seq<ProviderFilter>, env: Env) {
      forall p :: p in ps ==> GetCrud(p.key) == Ok(p) && AllAccept(filters, p, Verdict(env))
    }

    /**
     * `setup_a_provider` with `exists` given as the set of keys already set
     * up and the setup outcome as the set of keys whose setup raises.
     * Returns the provider and the final filter list (the caller's list,
     * which the source appends to in place); `tried` holds the keys
     * quarantined by this call and `reset` whether the quarantine was cleared.
     */
    method SetupAProvider(filters: Option<seq<ProviderFilter>>, useGlobal: bool, env: Env,
                          existing: set<string>, failing: set<string>)
      returns (r: PyResult<Provider>, filtersAfter: seq<ProviderFilter>, ghost tried: seq<string>, ghost reset: bool,
               ghost candidates: Option<seq<Provider>>)
      requires Valid()
      modifies this
      ensures Valid()
      ensures filterNames == old(filterNames)
      ensures "problematic" !in old(globalFilters) ==> globalFilters == old(globalFilters)
      ensures "problematic" in old(globalFilters) ==>
        "problematic" in globalFilters && globalFilters == old(globalFilters)["problematic" := globalFilters["problematic"]]
      ensures |filtersAfter| >= |UserFilters(filters)| && filtersAfter[..|UserFilters(filters)|] == UserFilters(filters)
      ensures r.Ok? ==> GetCrud(r.value.key) == Ok(r.value) && AllAccept(UserFilters(filters), r.value, Verdict(env))
      ensures r.Ok? ==> r.value.key in existing || r.value.key !in failing
      ensures forall k :: k in tried ==> k in failing && k !in existing
      ensures "problematic" in old(globalFilters) && old(globalFilters)["problematic"].keys.Some? ==>
        globalFilters["problematic"].keys ==
          Some((if reset then [] else old(globalFilters)["problematic"].keys.value) + tried)
      ensures !Pooled(old(ListProvidersSpec(UserFilters(filters), useGlobal, env)), existing) ==>
        Reused(old(ListProvidersSpec(UserFilters(filters), useGlobal, env)), existing, r)
      ensures candidates.Some? ==> Pooled(old(ListProvidersSpec(UserFilters(filters), useGlobal, env)), existing)
      ensures candidates.Some? ==> |candidates.value| > 0 && Eligible(candidates.value, UserFilters(filters), env)
      ensures candidates.Some? && old(QuarantineListed()) ==> SetsUpIff(r, candidates.value, existing, failing)
    {
      tried, reset, candidates := [], false, None;
      var fs := UserFilters(filters);
      filtersAfter := fs;
      PrefixKept(fs, []);
      assert fs + [] == fs;
      var early, listed := ReusableOrPool(fs, useGlobal, env, existing);
      if early.Some? {
        if "problematic" in globalFilters && globalFilters["problematic"].keys.Some? {
          assert globalFilters["problematic"].keys.value + [] == globalFilters["problematic"].keys.value;
        }
        return early.value, filtersAfter, tried, reset, candidates;
      }

      r, filtersAfter, tried, reset, candidates := SetupFromPool(fs, listed, env, existing, failing);
    }

    /**
     * `setup_a_provider` once no listed provider exists: drop the
     * quarantined providers (clearing the quarantine when that leaves
     * none), then prefer and try. `candidates` is the list the last stage
     * tried, or None when a listing raised first.
     */
    method SetupFromPool(fs: seq<ProviderFilter>, listed: seq<Provider>, env: Env, existing: set<string>, failing: set<string>)
      returns (r: PyResult<Provider>, filtersAfter: seq<ProviderFilter>, ghost tried: seq<string>, ghost reset: bool,
               ghost candidates: Option<seq<Provider>>)
      requires Valid() && Eligible(listed, fs, env) && |listed| > 0
      modifies this
      ensures Valid() && filterNames == old(filterNames)
      ensures "problematic" !in old(globalFilters) ==> globalFilters == old(globalFilters)
      ensures "problematic" in old(globalFilters) ==>
        "problematic" in globalFilters && globalFilters == old(globalFilters)["problematic" := globalFilters["problematic"]]
      ensures |filtersAfter| >= |fs| && filtersAfter[..|fs|] == fs
      ensures r.Ok? ==> GetCrud(r.value.key) == Ok(r.value) && AllAccept(fs, r.value, Verdict(env))
      ensures r.Ok? ==> r.value.key !in failing
      ensures forall k :: k in tried ==> k in failing && k !in existing
      ensures "problematic" in old(globalFilters) && old(globalFilters)["problematic"].keys.Some? ==>
        globalFilters["problematic"].keys ==
          Some((if reset then [] else old(globalFilters)["problematic"].keys.value) + tried)
      ensures var base := old(if "problematic" in globalFilters then globalFilters["problematic"] else FreshNonproblematic);
        var listing := old(ListProvidersSpec(fs + [base], true, env));
        listing.Err? ==> r == Err(listing.exc) && candidates.None?
      ensures candidates.None? ==> r.Err?
      ensures candidates.Some? ==> |candidates.value| > 0 && Eligible(candidates.value, fs, env)
      ensures var base := old(if "problematic" in globalFilters then globalFilters["problematic"] else FreshNonproblematic);
        var listing := old(ListProvidersSpec(fs + [base], true, env));
        candidates.Some? && !reset ==> listing.Ok? && forall p :: p in candidates.value ==> p in listing.value
      ensures candidates.Some? && old(QuarantineListed()) ==> SetsUpIff(r, candidates.value, existing, failing)
    {
      tried, candidates := [], None;
      ghost var g0 := globalFilters;
      ghost var base := if "problematic" in globalFilters then globalFilters["problematic"] else FreshNonproblematic;
      ghost var listing := ListProvidersSpec(fs + [base], true, env);
      var pool, npf;
      pool, npf, reset := DropAndRecord(fs, listed, env);
      if pool.Err? {
        assert base.keys.Some? ==> base.keys.value + [] == base.keys.value;
        filtersAfter := fs + [npf];
        PrefixKept(fs, [npf]);
        return Err(pool.exc), filtersAfter, tried, reset, candidates;
      }
      TriedPoolFrom(fs, npf, pool.value, env);
      r, filtersAfter, tried, candidates := PreferAndTry(fs, npf, pool.value, env, existing, failing);
      if "problematic" in g0 {
        UpdateTwice(g0, "problematic", npf, globalFilters["problematic"]);
      }
    }

    /**
     * `DropProblematic`, then store the filter back: `nonproblematic_filter.keys = []`
     * clears the very object registered as `problematic`.
     */
    method DropAndRecord(fs: seq<ProviderFilter>, listed: seq<Provider>, env: Env)
      returns (pool: PyResult<seq<Provider>>, npf: ProviderFilter, reset: bool)
      requires Valid() && Eligible(listed, fs, env) && |listed| > 0
      modifies this
      ensures Valid() && filterNames == old(filterNames)
      ensures var base := old(if "problematic" in globalFilters then globalFilters["problematic"] else FreshNonproblematic);
        var listing := old(ListProvidersSpec(fs + [base], true, env));
        && npf == (if reset then base.(keys := Some([])) else base)
        && (reset <==> listing.Ok? && |listing.value| == 0)
        && pool == (if reset then Ok(listed) else listing)
      ensures pool.Ok? ==> Eligible(pool.value, fs, env) && |pool.value| > 0
      ensures "problematic" !in old(globalFilters) || !reset ==> globalFilters == old(globalFilters)
      ensures "problematic" in old(globalFilters) ==> globalFilters == old(globalFilters)["problematic" := npf]
      ensures old(QuarantineListed()) ==> npf.keys.Some?
    {
      ghost var g0 := globalFilters;
      pool, npf, reset := DropProblematic(fs, listed, env);
      RecordQuarantine(npf);
      if "problematic" in g0 && !reset {
        UpdateTwice(g0, "problematic", g0["problematic"], g0["problematic"]);
        assert g0["problematic" := g0["problematic"]] == g0;
      }
    }

    /**
     * The last stages of `setup_a_provider`: prefer the eligible providers,
     * try them, and store the problematic filter with this call's failures.
     */
    method PreferAndTry(fs: seq<ProviderFilter>, npf: ProviderFilter, pool: seq<Provider>, env: Env,
                        existing: set<string>, failing: set<string>)
      returns (r: PyResult<Provider>, filtersAfter: seq<ProviderFilter>, ghost tried: seq<string>,
               ghost candidates: Option<seq<Provider>>)
      requires Valid() && Eligible(pool, fs, env) && |pool| > 0
      requires "problematic" in globalFilters ==> globalFilters["problematic"] == npf
      modifies this
      ensures Valid() && filterNames == old(filterNames)
      ensures "problematic" !in old(globalFilters) ==> globalFilters == old(globalFilters)
      ensures "problematic" in old(globalFilters) ==>
        globalFilters == old(globalFilters)["problematic" := npf.(keys := if npf.keys.Some? then Some(npf.keys.value + tried) else None)]
      ensures |filtersAfter| >= |fs| && filtersAfter[..|fs|] == fs
      ensures r.Ok? ==> GetCrud(r.value.key) == Ok(r.value) && AllAccept(fs, r.value, Verdict(env))
      ensures r.Ok? ==> r.value.key !in failing
      ensures r.Ok? ==>
        var preferred := old(ListProvidersSpec(fs + [npf, DoNotPrefer], true, env));
        if |pool| > 1 && preferred.Ok? && |preferred.value| > 0 then r.value in preferred.value else r.value in pool
      ensures forall k :: k in tried ==> k in failing && k !in existing
      ensures var preferred := old(ListProvidersSpec(fs + [npf, DoNotPrefer], true, env));
        candidates == TriedPool(pool, preferred) && (candidates.None? ==> preferred.Err? && r == Err(preferred.exc))
      ensures candidates.Some? && npf.keys.Some? ==> SetsUpIff(r, candidates.value, existing, failing)
    {
      tried, candidates := [], None;
      var preferred, preferredUsed := PreferEligible(fs, npf, pool, env);
      if preferred.Err? {
        assert npf.keys.Some? ==> npf.keys.value + [] == npf.keys.value;
        assert npf.(keys := npf.keys) == npf;
        RecordQuarantine(npf);
        filtersAfter := fs + [npf];
        PrefixKept(fs, [npf]);
        return Err(preferred.exc), filtersAfter, tried, candidates;
      }
      candidates := Some(preferred.value);
      var quarantine;
      r, quarantine, tried := TryPool(fs, env, preferred.value, npf.keys, existing, failing);
      RecordQuarantine(npf.(keys := quarantine));
      filtersAfter := fs + ([npf.(keys := quarantine)] + (if preferredUsed then [DoNotPrefer] else []));
      PrefixKept(fs, [npf.(keys := quarantine)] + (if preferredUsed then [DoNotPrefer] else []));
    }

    /**
     * The start of `setup_a_provider`: list the providers, raise when none
     * pass, and reuse the first one already set up. `early` is the result
     * when one of these ends the call; otherwise `listed` is the pool.
     */
    method ReusableOrPool(fs: seq<ProviderFilter>, useGlobal: bool, env: Env, existing: set<string>)
      returns (early: Option<PyResult<Provider>>, listed: seq<Provider>)
      ensures early.Some? && early.value.Ok? ==>
        early.value.value.key in existing && GetCrud(early.value.value.key) == early.value &&
        AllAccept(fs, early.value.value, Verdict(env))
      ensures early.None? ==> Eligible(listed, fs, env) && |listed| > 0 && forall p :: p in listed ==> p.key !in existing
      ensures Pooled(ListProvidersSpec(fs, useGlobal, env), existing) <==> early.None?
      ensures early.Some? ==> Reused(ListProvidersSpec(fs, useGlobal, env), existing, early.value)
      ensures early.None? ==> listed == ListProvidersSpec(fs, useGlobal, env).value
    {
      listed := [];
      var all := ListProviders(fs, useGlobal, env);
      if all.Err? {
        return Some(Err(all.exc)), listed;
      }
      if |all.value| == 0 {
        return Some(Err(Exception(NothingLeft, NoneV))), listed;
      }
      var reuse := FirstExisting(all.value, existing);
      if reuse.Some? {
        CrudOfListed(fs, useGlobal, env, reuse.value);
        return Some(Ok(reuse.value)), listed;
      }
      assert fs + [] == fs;
      ProvidersPassUser(fs, [], useGlobal, env);
      return None, all.value;
    }

    /**
     * The middle of `setup_a_provider`: take the registered problematic
     * filter (or a fresh, unregistered one) and drop the providers it
     * rejects; when none are left, clear its key list and keep the pool.
     * The caller stores the cleared filter back with `RecordQuarantine`.
     */
    method DropProblematic(fs: seq<ProviderFilter>, providers: seq<Provider>, env: Env)
      returns (pool: PyResult<seq<Provider>>, npf: ProviderFilter, reset: bool)
      requires Eligible(providers, fs, env)
      ensures var base := if "problematic" in globalFilters then globalFilters["problematic"] else FreshNonproblematic;
        var listing := ListProvidersSpec(fs + [base], true, env);
        && npf == (if reset then base.(keys := Some([])) else base)
        && (reset <==> listing.Ok? && |listing.value| == 0)
        && pool == (if reset then Ok(providers) else listing)
      ensures pool.Ok? ==> Eligible(pool.value, fs, env)
      ensures pool.Ok? && !reset ==> Eligible(pool.value, fs + [npf], env) && |pool.value| > 0
    {
      reset := false;
      var registered := "problematic" in globalFilters;
      npf := if registered then globalFilters["problematic"] else FreshNonproblematic;
      var nonproblematic := ListProviders(fs + [npf], true, env);
      if nonproblematic.Err? {
        return Err(nonproblematic.exc), npf, reset;
      }
      ProvidersPassUser(fs, [npf], true, env);
      assert fs + [npf] + [] == fs + [npf];
      ProvidersPassUser(fs + [npf], [], true, env);
      if |nonproblematic.value| == 0 {
        npf := npf.(keys := Some([]));
        reset := true;
        return Ok(providers), npf, reset;
      }
      return nonproblematic, npf, reset;
    }

    /**
     * With more than one provider left, narrow to those without a
     * `do_not_prefer` field when there are any; reports whether the
     * `do_not_prefer` filter was added.
     */
    method PreferEligible(fs: seq<ProviderFilter>, npf: ProviderFilter, providers: seq<Provider>, env: Env)
      returns (r: PyResult<seq<Provider>>, used: bool)
      requires Eligible(providers, fs, env)
      ensures r.Ok? ==> Eligible(r.value, fs, env)
      ensures r.Ok? && !used ==> r.value == providers
      ensures r.Ok? && used ==> |providers| > 1 && |r.value| > 0 && Eligible(r.value, fs + [npf, DoNotPrefer], env)
      ensures |providers| <= 1 ==> r == Ok(providers) && !used
      ensures |providers| > 1 ==>
        var listing := ListProvidersSpec(fs + [npf, DoNotPrefer], true, env);
        && (used <==> listing.Ok? && |listing.value| > 0)
        && r == (if listing.Ok? && |listing.value| == 0 then Ok(providers) else listing)
    {
      if |providers| <= 1 {
        return Ok(providers), false;
      }
      var preferred := ListProviders(fs + [npf, DoNotPrefer], true, env);
      if preferred.Err? {
        return preferred, false;
      }
      ProvidersPassUser(fs, [npf, DoNotPrefer], true, env);
      assert fs + [npf, DoNotPrefer] + [] == fs + [npf, DoNotPrefer];
      ProvidersPassUser(fs + [npf, DoNotPrefer], [], true, env);
      if |preferred.value| > 0 {
        return preferred, true;
      }
      return Ok(providers), false;
    }

    /**
     * The end of `setup_a_provider`: shuffle the providers not yet set up
     * and try them in turn, quarantining each one whose setup fails.
     */
    method TryPool(ghost fs: seq<ProviderFilter>, ghost env: Env, providers: seq<Provider>, keys: Option<seq<string>>,
                   existing: set<string>, failing: set<string>)
      returns (r: PyResult<Provider>, quarantine: Option<seq<string>>, ghost tried: seq<string>)
      requires Eligible(providers, fs, env)
      ensures r.Ok? ==> r.value in providers && r.value.key !in failing
      ensures r.Ok? ==> GetCrud(r.value.key) == Ok(r.value) && AllAccept(fs, r.value, Verdict(env))
      ensures forall k :: k in tried ==> k in failing && k !in existing
      ensures keys.Some? ==> quarantine == Some(keys.value + tried)
      ensures keys.None? ==> quarantine == None && tried == []
      ensures r.Err? && keys.Some? ==> r == Err(Exception(NoneSetUp, NoneV))
      ensures exists s :: multiset(s) == multiset(NotExisting(providers, existing)) && (r, quarantine) == Attempt(s, failing, keys)
      ensures keys.Some? ==> SetsUpIff(r, providers, existing, failing)
    {
      tried := [];
      var nonExisting := NotExisting(providers, existing);
      var shuffled :| multiset(shuffled) == multiset(nonExisting);
      r, quarantine := TrySetup(shuffled, failing, keys);
      assert multiset(shuffled) == multiset(NotExisting(providers, existing)) && (r, quarantine) == Attempt(shuffled, failing, keys);
      if keys.Some? {
        ShuffledSucceedsIff(shuffled, providers, existing, failing, keys.value);
      }
      if keys.Some? {
        QuarantineFailed(shuffled, failing, keys.value, existing, providers);
        AttemptOutcome(shuffled, failing, keys.value);
        tried := quarantine.value[|keys.value|..];
        assert quarantine.value == keys.value + tried;
      } else if r.Ok? {
        assert r.value == shuffled[0] && r.value in multiset(shuffled);
        assert r.value in nonExisting;
      }
    }

    /** Stores the updated problematic filter back in `global_filters` when it is registered there. */
    method RecordQuarantine(npf: ProviderFilter)
      requires Valid()
      modifies this
      ensures Valid()
      ensures filterNames == old(filterNames)
      ensures "problematic" !in old(globalFilters) ==> globalFilters == old(globalFilters)
      ensures "problematic" in old(globalFilters) ==> globalFilters == old(globalFilters)["problematic" := npf]
    {
      if "problematic" in globalFilters {
        globalFilters := globalFilters["problematic" := npf];
      }
    }

    lemma PrefixKept(a: seq<ProviderFilter>, b: seq<ProviderFilter>)
      ensures |a + b| >= |a| && (a + b)[..|a|] == a
    {
    }

    /** The first provider of the list that is already set up. */
    method FirstExisting(ps: seq<Provider>, existing: set<string>) returns (found: Option<Provider>)
      ensures found.Some? ==> found.value.key in existing
      ensures found.Some? ==> exists i :: 0 <= i < |ps| && ps[i] == found.value && forall j :: 0 <= j < i ==> ps[j].key !in existing
      ensures found.None? ==> forall p :: p in ps ==> p.key !in existing
    {
      var i := 0;
      while i < |ps|
        invariant 0 <= i <= |ps|
        invariant forall j :: 0 <= j < i ==> ps[j].key !in existing
      {
        if ps[i].key in existing {
          return Some(ps[i]);
        }
        i := i + 1;
      }
      return None;
    }

    /** The providers `list_providers` returns are configured cruds accepted by the caller's filters. */
    lemma CrudOfListed(filters: seq<ProviderFilter>, useGlobal: bool, env: Env, p: Provider)
      requires ListProvidersSpec(filters, useGlobal, env).Ok?
      requires p in ListProvidersSpec(filters, useGlobal, env).value
      ensures GetCrud(p.key) == Ok(p) && AllAccept(filters, p, Verdict(env))
    {
      ListedAreAccepted(filters, useGlobal, env);
      var i :| 0 <= i < |Cruds(providerOrder).value| && Cruds(providerOrder).value[i] == p;
    }

    /** Adding filters to the caller's list keeps only configured providers the caller's filters accept. */
    lemma ProvidersPassUser(filters: seq<ProviderFilter>, extra: seq<ProviderFilter>, useGlobal: bool, env: Env)
      requires ListProvidersSpec(filters + extra, useGlobal, env).Ok?
      ensures forall p :: p in ListProvidersSpec(filters + extra, useGlobal, env).value ==>
        GetCrud(p.key) == Ok(p) && AllAccept(filters, p, Verdict(env))
    {
      forall p | p in ListProvidersSpec(filters + extra, useGlobal, env).value
        ensures GetCrud(p.key) == Ok(p) && AllAccept(filters, p, Verdict(env))
      {
        CrudOfListed(filters + extra, useGlobal, env, p);
        AllAcceptConcat(filters, extra, p, Verdict(env));
      }
    }
  }

  /** `[prov for prov in ps if prov.exists]` */
  function Existing(ps: seq<Provider>, existing: set<string>): (r: seq<Provider>)
    ensures forall p :: p in r <==> p in ps && p.key in existing
  {
    if |ps| == 0 then []
    else (if ps[0].key in existing then [ps[0]] else []) + Existing(ps[1..], existing)
  }

  /**
   * Every key the setup loop appends to the quarantine belongs to a
   * candidate whose setup failed, and the candidates are the providers not
   * yet set up.
   */
  lemma QuarantineFailed(candidates: seq<Provider>, failing: set<string>, q: seq<string>,
                         existing: set<string>, pool: seq<Provider>)
    requires multiset(candidates) == multiset(NotExisting(pool, existing))
    ensures var (r, q') := Attempt(candidates, failing, Some(q));
      q'.Some? && |q'.value| >= |q| && q'.value[..|q|] == q &&
      (forall k :: k in q'.value[|q|..] ==> k in failing && k !in existing) &&
      (r.Ok? ==> r.value.key !in failing && r.value in pool)
  {
    AttemptOutcome(candidates, failing, q);
    var i := FirstSuccess(candidates, failing);
    var added := KeysOf(candidates[..i]);
    assert (q + added)[|q|..] == added && (q + added)[..|q|] == q;
    forall k | k in added ensures k in failing && k !in existing {
      var j :| 0 <= j < |added| && added[j] == k;
      assert candidates[j] in multiset(candidates);
    }
    if i < |candidates| {
      assert candidates[i] in multiset(candidates);
    }
  }
}
