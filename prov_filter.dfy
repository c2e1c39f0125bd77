/**
 * fixtures/prov_filter.py: the `--use-provider` command-line values become
 * a `ProviderFilter` (a provider key, or else a list of tags) that
 * `pytest_configure` registers as the global filter `use_provider`.
 */
module ProvFilter {
  import opened Wrappers
  import opened PyValues
  import opened ProviderFilters
  import opened Providers

  /** `cmd_filter or ["default"]`: an empty option list stands for the `default` tag. */
  function Requested(useProvider: seq<string>): (r: seq<string>)
    ensures |r| > 0
    ensures |useProvider| > 0 ==> r == useProvider
    ensures |useProvider| == 0 ==> r == ["default"]
  {
    if |useProvider| > 0 then useProvider else ["default"]
  }

  /** The filter `ProviderFilter(keys=[key])`. */
  function KeyFilter(key: string): ProviderFilter {
    Defaults.(keys := Some([key]))
  }

  /** The filter `ProviderFilter(required_tags=tags)`. */
  function TagFilter(tags: seq<string>): ProviderFilter {
    Defaults.(requiredTags := tags)
  }

  /**
   * `parse_filter`, with the key lookup made on the option value itself: a
   * single value that `get_crud` resolves is a key filter; a value the
   * configuration does not hold (`KeyError`), or more than one value, is a
   * tag filter; any other error from `get_crud` propagates.
   */
  function ParseFilter(reg: Registry, args: seq<string>): (r: PyResult<ProviderFilter>)
    ensures |args| == 1 && reg.GetCrud(args[0]).Ok? ==> r == Ok(KeyFilter(args[0]))
    ensures |args| != 1 ==> r == Ok(TagFilter(args))
    ensures |args| == 1 && args[0] !in reg.providersData ==> r == Ok(TagFilter(args))
    ensures r.Err? <==> |args| == 1 && reg.GetCrud(args[0]).Err? && !reg.GetCrud(args[0]).exc.KeyError?
    ensures r.Err? ==> r == Err(reg.GetCrud(args[0]).exc)
    ensures r.Ok? ==> (|args| == 1 && r.value == KeyFilter(args[0])) || r.value == TagFilter(args)
  {
    if |args| != 1 then Ok(TagFilter(args))
    else match reg.GetCrud(args[0])
      case Ok(_) => Ok(KeyFilter(args[0]))
      case Err(e) => if e.KeyError? then Ok(TagFilter(args)) else Err(e)
  }

  /**
   * What `parse_filter` produces sets exactly one of `keys` and
   * `required_tags` from the input, and leaves every other attribute at
   * its default.
   */
  lemma ParsedFilterShape(reg: Registry, args: seq<string>)
    requires ParseFilter(reg, args).Ok?
    ensures var f := ParseFilter(reg, args).value;
      (f.keys == Some(args) && f.requiredTags == []) || (f.keys == None && f.requiredTags == args)
    ensures var f := ParseFilter(reg, args).value;
      f.categories == None && f.types == None && f.requiredFields == [] &&
      f.restrictVersion && !f.inverted && f.testFlags == []
  {
    if |args| == 1 && reg.GetCrud(args[0]).Ok? {
      assert [args[0]] == args;
    }
  }

  /** A key filter accepts a provider only if it is the provider with that key. */
  lemma KeyFilterSelectsKey(key: string, p: Provider, env: Env)
    requires Accepts(KeyFilter(key), p, env) == Ok(true)
    ensures p.key == key
  {
    var f := KeyFilter(key);
    var fieldsOk := RequiredFieldsOk(f.requiredFields, p.data);
    assert fieldsOk.Ok?;
    var all := Checks(f, p, env);
    assert all == Ok(true);
    assert KeysOk(f, p);
  }

  /**
   * A key filter accepts the provider with that key whenever the provider
   * carries no version restriction.
   */
  lemma KeyFilterAcceptsKey(key: string, p: Provider, env: Env)
    requires p.key == key
    requires "restricted_version" !in p.data && "since_version" !in p.data
    ensures Accepts(KeyFilter(key), p, env) == Ok(true)
  {
    var f := KeyFilter(key);
    assert DictGet(p.data, "restricted_version", NoneV) == NoneV;
    assert DictGet(p.data, "since_version", NoneV) == NoneV;
    assert Restrictions(p.data) == [];
    assert VersionOk(f, p.data, env.appliance) == Ok(true);
    assert Checks(f, p, env) == Ok(true);
  }

  /**
   * A tag filter for the listed tags accepts a provider only if the
   * provider's tags share one with them.
   */
  lemma TagFilterNeedsTag(args: seq<string>, p: Provider, env: Env, tags: seq<string>)
    requires |args| > 0
    requires "tags" in p.data && p.data["tags"] == List(Strs(tags))
    requires Accepts(TagFilter(args), p, env) == Ok(true)
    ensures (set t | t in args) * (set t | t in tags) != {}
  {
    var f := TagFilter(args);
    TagsOkIsIntersection(f, p.data, tags);
    assert RequiredFieldsOk(f.requiredFields, p.data).Ok?;
    assert Checks(f, p, env) == Ok(true);
  }

  /**
   * `get_crud(k)` for an arbitrary Python value `k`: a dictionary lookup,
   * so an unhashable key raises before the configuration is consulted.
   */
  function GetCrudOfValue(reg: Registry, k: Value): (r: PyResult<Provider>)
    ensures !Hashable(k) ==> r == Err(TypeError("unhashable type"))
    ensures k.Str? ==> r == reg.GetCrud(k.s)
  {
    if !Hashable(k) then Err(TypeError("unhashable type"))
    else if k.Str? then reg.GetCrud(k.s)
    else Err(KeyError(k))
  }

  /** `parse_filter` as written: the whole option list is passed to `get_crud`. */
  function ParseFilterAsWritten(reg: Registry, args: seq<string>): PyResult<ProviderFilter> {
    var cmdFilter := List(Strs(args));
    match GetCrudOfValue(reg, cmdFilter)
    case Ok(_) => Ok(Defaults.(keys := Some([])))
    case Err(e) => if e.KeyError? then Ok(TagFilter(args)) else Err(e)
  }

  /**
   * As written, `parse_filter` raises for every option list, including
   * the single configured key and the default `["default"]`, where the
   * corrected reading returns a filter.
   */
  lemma ParseFilterAsWrittenRaises(reg: Registry, args: seq<string>)
    ensures ParseFilterAsWritten(reg, args) == Err(TypeError("unhashable type"))
    ensures |args| != 1 ==> ParseFilter(reg, args) == Ok(TagFilter(args))
    ensures |args| == 1 && reg.GetCrud(args[0]).Ok? ==> ParseFilter(reg, args) == Ok(KeyFilter(args[0]))
  {
    assert !Hashable(List(Strs(args)));
  }

  /**
   * `pytest_configure`: parse the option values (an empty list meaning
   * `["default"]`), store the filter as `global_filters['use_provider']`
   * and evaluate `list_providers()` for the debug line, whose keys are
   * returned as `leaves`. Other global filters are untouched.
   */
  method PytestConfigure(reg: Registry, useProvider: seq<string>, env: Env) returns (leaves: PyResult<seq<string>>)
    requires reg.Valid()
    modifies reg
    ensures reg.Valid()
    ensures ParseFilter(reg, Requested(useProvider)).Err? ==>
      leaves == Err(ParseFilter(reg, Requested(useProvider)).exc) &&
      reg.globalFilters == old(reg.globalFilters) && reg.filterNames == old(reg.filterNames)
    ensures ParseFilter(reg, Requested(useProvider)).Ok? ==>
      reg.globalFilters == old(reg.globalFilters)["use_provider" := ParseFilter(reg, Requested(useProvider)).value] &&
      reg.filterNames == (if "use_provider" in old(reg.globalFilters) then old(reg.filterNames) else old(reg.filterNames) + ["use_provider"]) &&
      leaves == reg.ListProviderKeys([], true, env)
  {
    var cmdFilter := useProvider;
    if |cmdFilter| == 0 {
      cmdFilter := ["default"];
    }
    var newFilter := ParseFilter(reg, cmdFilter);
    if newFilter.Err? {
      return Err(newFilter.exc);
    }
    reg.SetGlobalFilter("use_provider", newFilter.value);
    var listed := reg.ListProviders([], true, env);
    if listed.Err? {
      return Err(listed.exc);
    }
    leaves := Ok(KeysOf(listed.value));
  }

  /**
   * After `pytest_configure`, every provider that `list_providers()` still
   * returns passes the `use_provider` filter.
   */
  lemma ConfiguredFilterApplies(reg: Registry, args: seq<string>, env: Env, p: Provider)
    requires reg.Valid()
    requires ParseFilter(reg, args).Ok?
    requires "use_provider" in reg.globalFilters && reg.globalFilters["use_provider"] == ParseFilter(reg, args).value
    requires reg.ListProvidersSpec([], true, env).Ok?
    requires p in reg.ListProvidersSpec([], true, env).value
    ensures Accepts(ParseFilter(reg, args).value, p, env) == Ok(true)
  {
    reg.ListedAreAccepted([], true, env);
    var f := reg.globalFilters["use_provider"];
    var gf := reg.GlobalFilters();
    assert f in gf;
    var i :| 0 <= i < |gf| && gf[i] == f;
    assert Verdict(env)(gf[i], p) == Ok(true);
  }
}
