# Provider selection and report-fill normalisation of cfme_tests

This project is a Dafny model of the parts of the cfme_tests UI test suite that hold
logic rather than browser locators:

- `ProviderFilter` (`utils/providers.py`) is a predicate over one configured provider.
  It combines key, category and type lists, required fields (a name or a key path,
  with an optional expected value), required tags, version restrictions parsed
  against an ordered operator table, test flags, and an `inverted` switch.
- The registry around it (`utils/providers.py`) covers several operations.
  `get_crud` builds a provider object from the configuration and the type registry.
  `list_providers` applies each filter in turn, and `list_provider_keys` and
  `existing_providers` build on it. `get_crud_by_name` searches the configuration by name. The module-level
  `global_filters` dictionary is the registry's mutable state.
- `setup_a_provider` narrows the pool in stages:
  - reuse a provider that is already set up;
  - drop quarantined ("problematic") providers, clearing the quarantine when that
    leaves none;
  - prefer providers without `do_not_prefer`;
  - try the rest in some order, quarantining each one whose setup fails.
- `parse_filter` and `pytest_configure` (`fixtures/prov_filter.py`) turn the
  `--use-provider` values into a key filter or a tag filter. They register it as
  `global_filters['use_provider']`.
- The report-editor fills (`cfme/intelligence/reports/ui_elements.py`) normalise
  user values into widget actions. This covers pivot checkboxes from a mapping or
  a callable, column styles, column header/format pairs, menu shortcuts and
  dashboard widgets.
- `PolicyProfileAssignable` (`cfme/common/__init__.py`) keeps a lazily created set
  of assigned policy profiles. `GetDetailMixin._on_detail_page` chooses the title
  it looks for.

Python data is the `PyValues.Value` datatype. Exceptions are the `Exc` datatype,
and every raising path returns `Err`. Python's `str` operations that the code
relies on (`strip`, `split`, `partition`, `int`, `str`) are written out in
`PyStrings`.

Things outside the program become parameters:
- the appliance version and whether it can be reached (`Env`);
- which providers already exist and which fail to set up (sets of keys);
- the order `random.shuffle` produces (any permutation);
- the order in which `providers_data` yields its keys (`providerOrder`, a given list of the configured keys);
- the menu select's options;
- a pivot callable's results.

A fill is modelled as the sequence of widget actions it performs (`Run`), plus the
exception that stopped it, if any.

Where the code cannot do what its authors evidently meant, the model has two
members. One follows the code as written and shows the failure. The other is the
corrected behaviour, which the rest of the model uses (see "## Findings").
Other modelling choices:
- `_on_detail_page` tests `'title_text' in self.dict`, and no class in the modelled
  files defines a `dict` attribute. `Common.OnDetailPageAsWritten` models that
  lookup, which raises `AttributeError`. `Common.OnDetailPage` reads `self.dict` as
  the instance's attribute dictionary, which is what the class documentation
  describes (see "## Findings").
- `_filter_test_flags` only runs its comparison when the FIRST requested flag is
  empty (`not self.test_flags[0]`). This is modelled as written, and
  `ProviderFilters.GuardedFlagsRejectUnflagged` states the consequence.
- `self.test_flags` is never set by `__init__`. The model gives every filter a
  `testFlags` field that defaults to the empty list.
- A one-element sequence in a column header/format fill is accepted by the code as
  a header alone. That case is modelled too.

## Model

| member | source | states |
|---|---|---|
| `ProviderFilters.ListChecks` | utils/providers.py:62-69 | A `None` key, category or type list accepts every provider. Otherwise an accepting, non-inverted filter has the provider's key, category and type in its lists, and a provider missing from a list is rejected. |
| `ProviderFilters.FieldSpec` | utils/providers.py:73-76 | A tuple entry unpacks into (field, expected) and must have two elements, otherwise `ValueError`. Any other entry has expected value None. |
| `ProviderFilters.NamedFieldCheck` | utils/providers.py:77-83 | A field named by a string must exist in the data. When the expected value is truthy, the stored value must also equal it. |
| `ProviderFilters.MissingStepRejects` | utils/providers.py:84-93 | When a path reaches a missing key or an out-of-range index, the check returns False instead of raising, whatever the rest of the path and the expected value. |
| `ProviderFilters.NameIsOneStepPath` | utils/providers.py:77-93 | A field named by a string is checked exactly as the one-step key path holding that string. |
| `ProviderFilters.WalkPathConcat` | utils/providers.py:85-88 | Walking a path step by step equals walking a prefix and then the rest from where the prefix ended. |
| `ProviderFilters.CheckField` | utils/providers.py:72-93 | The loop that walks a path by reassigning `o` gives the verdict of the specification `FieldOk`. |
| `ProviderFilters.FilterRequiredFields` | utils/providers.py:71-94 | All entries are checked in order, and the first failing or raising entry decides. The result equals `RequiredFieldsOk`. |
| `ProviderFilters.TagSet` | utils/providers.py:97 | For a list of hashable tags, `set(tags)` is the set of its elements. |
| `ProviderFilters.TagsOkIsIntersection` | utils/providers.py:96-99 | No required tags passes. Otherwise the provider passes exactly when its tags intersect the required ones. |
| `ProviderFilters.StrsTagSet` | utils/providers.py:96-99 | `set(tags)` of a list of strings holds exactly those strings. |
| `ProviderFilters.CommonTag` | utils/providers.py:96-99 | Some required tag is among the provider's tags exactly when the two tag sets intersect. |
| `ProviderFilters.CollectRestrictions` | utils/providers.py:107-113 | The restriction list is `">= " + str(since_version)` when `since_version` is truthy, whatever its type, followed by `restricted_version` when that is truthy. |
| `ProviderFilters.SinceVersionIsGe` | utils/providers.py:109-111 | For any `since_version` value `v`, `">= {}".format(v)` matches the operator `>=` with the tail `" " + str(v)`, leading space included. The check passes exactly when the appliance is reachable and not older than that tail. |
| `ProviderFilters.SinceVersionOnly` | utils/providers.py:101-131 | With `restrict_version` on, a truthy `since_version` and no `restricted_version`, the version check passes exactly when the appliance is reachable and not older than `" " + str(since_version)`. |
| `ProviderFilters.MatchOperatorFirst` | utils/providers.py:45-50 | Operators are tried in the table order `>=, <=, ==, !=, >, <`, and the first one with a non-empty tail is used. So `>=` is matched before `>`. |
| `ProviderFilters.MatchOperatorNone` | utils/providers.py:117-121 | No operator matches exactly when every operator's `partition` tail is empty. |
| `ProviderFilters.TrailingOperatorIsSkipped` | utils/providers.py:117-121 | An operator at the end of the text has an empty tail and is skipped: `"5.6>="` is read as `>` with version `"="`. |
| `ProviderFilters.NoOperatorRaises` | utils/providers.py:129-130 | A restriction containing none of the six operators raises "Operator not found". |
| `ProviderFilters.CheckRestriction` | utils/providers.py:115-130 | The loop over the operator map equals `RestrictionOk`: an unknown operator raises, and an unreachable appliance or a failed comparison gives False. |
| `ProviderFilters.FilterRestrictedVersion` | utils/providers.py:101-131 | With `restrict_version` off the check passes. Otherwise every restriction must hold, and the first failing one decides. |
| `ProviderFilters.TestFlagsSubset` | utils/providers.py:133-151 | Once the check runs, it rejects exactly when some stripped requested flag is undefined or excluded by the provider, that is, when the requested flags are not a subset of defined minus excluded. |
| `ProviderFilters.ImageWithin` | utils/providers.py:143-145 | The stripped requested flags lie within the allowed set exactly when each one does. |
| `ProviderFilters.GuardedFlagsRejectUnflagged` | utils/providers.py:134-145 | Because the check runs only when the first flag is empty, a provider without `excluded_test_flags` is always rejected once it runs. |
| `ProviderFilters.Call` | utils/providers.py:153-180 | `__call__` runs every check and returns `not inverted` when all pass and `inverted` otherwise. The first raising check raises. |
| `ProviderFilters.InvertNegates` | utils/providers.py:178-180 | Flipping `inverted` negates the verdict and keeps any exception. |
| `ProviderFilters.CallAsWrittenNeverDecides` | utils/providers.py:170-176 | As written, `__call__` never returns a verdict: it raises `AttributeError` for `filter_test_flags`. |
| `Providers.ClassByType` | utils/providers.py:241-246 | The class is the first category that registers the type. It raises `UnknownProviderType` exactly when no category does. |
| `Providers.SurvivorsIsKeep` | utils/providers.py:200-201 | `filter(f, ps)` keeps exactly the providers `f` accepts, in order. |
| `Providers.SurvivorsTotal` | utils/providers.py:200-201 | `filter` raises nothing when the filter raises on no provider. |
| `Providers.KeepMembers` | utils/providers.py:196-202 | A provider is kept exactly when it is in the list and every filter accepts it. |
| `Providers.KeepTwice` | utils/providers.py:200-201 | Filtering by one list of filters and then another is filtering by both lists. |
| `Providers.ApplyAllIsKeep` | utils/providers.py:199-202 | Applying the filters one after the other keeps exactly the providers that every filter accepts. |
| `Providers.ApplyAllTotal` | utils/providers.py:199-202 | The filter loop raises nothing when no filter raises on any provider. |
| `Providers.AllAcceptConcat` | utils/providers.py:196-201 | A provider passes a concatenation of filter lists exactly when it passes both lists. |
| `Providers.KeepCons` | utils/providers.py:201 | `filter` keeps the first provider exactly when every filter accepts it, then filters the rest. |
| `Providers.KeepNone` | utils/providers.py:199-202 | With no filters, every provider is listed, in order. |
| `Providers.KeepSameFilters` | utils/providers.py:199-202 | Two filter lists with the same members, whatever their order and repetitions, select the same providers. |
| `Providers.ApplyItemsConcat` | utils/providers.py:199-202 | Running two lists of filter items one after the other is running their concatenation. |
| `Providers.ApplyCallables` | utils/providers.py:199-202 | When every item is a callable filter, the loop is exactly the corrected filter loop. |
| `Providers.FilterOrderIrrelevant` | utils/providers.py:200-201 | Two orderings of the same filters that raise nothing select the same providers. |
| `Providers.FiltersNamed` | utils/providers.py:197-198 | The global filters used are exactly the registered ones. |
| `Providers.NamedPairsRaise` | utils/providers.py:197-201 | Once a `(name, filter)` pair from `global_filters.items()` is called on a provider, it raises `TypeError`. |
| `Providers.NotExisting` | utils/providers.py:310 | The candidates are exactly the pool's providers that do not exist yet. |
| `Providers.Existing` | utils/providers.py:238 | The existing providers are exactly the listed providers whose `exists` holds. |
| `Providers.FirstSuccess` | utils/providers.py:312-317 | It gives the position of the first candidate whose setup does not fail. Every candidate before it fails. |
| `Providers.AttemptOutcome` | utils/providers.py:309-335 | The setup loop returns the first candidate that sets up and quarantines every candidate before it. When all fail, it raises "No providers could be set up" with all of them quarantined. |
| `Providers.TrySetup` | utils/providers.py:312-335 | The `for ... else` loop gives the outcome and the quarantine list of `Attempt`. |
| `Providers.QuarantineFailed` | utils/providers.py:310-325 | Every quarantined key belongs to a candidate that failed and did not exist. A returned provider comes from the pool and did not fail. |
| `Providers.AttemptAsWrittenNeverSetsUp` | utils/providers.py:316-325 | As written, the first candidate raises `AttributeError` for `problematic`. The corrected loop sets up any candidate that does not fail. |
| `Providers.Registry.constructor` | utils/providers.py:186 | At module load, `global_filters` holds only `enabled_only`: required tag `disabled`, inverted. |
| `Providers.Registry.GetCrud` | utils/providers.py:340-352 | An unknown key raises `KeyError`. The provider gets the key, the configuration record and the type's category. It is built exactly when some category registers the type. |
| `Providers.Registry.Cruds` | utils/providers.py:199 | It builds one provider per configured key, in order. It raises exactly when some key's `get_crud` raises. |
| `Providers.Registry.BuildCruds` | utils/providers.py:199 | The list comprehension over the configured keys returns exactly `Cruds`: every provider in order, or the first `get_crud` exception. |
| `Providers.Registry.FilterProviders` | utils/providers.py:201 | The loop over providers equals `filter(f, ps)`. |
| `Providers.Registry.ListProviders` | utils/providers.py:189-202 | It builds every configured provider, then narrows by the caller's filters and, when asked, the global ones. The result equals `ListProvidersSpec`. |
| `Providers.Registry.ApplyFilters` | utils/providers.py:200-201 | The loop `providers = filter(f, providers)` returns exactly `ApplyAll` with the filters' verdicts. |
| `Providers.Registry.ListedAreAccepted` | utils/providers.py:196-202 | The result is exactly the configured providers, in configuration order, that every caller filter accepts, and every global filter too when global filters are on. |
| `Providers.Registry.GlobalFiltersNarrow` | utils/providers.py:197-198 | With global filters on, the result is the result without them, narrowed by the global filters. |
| `Providers.Registry.ListProvidersAsWrittenRaises` | utils/providers.py:196-201 | As written, a non-empty result combined with any registered global filter raises `TypeError`. |
| `Providers.Registry.ListProviderKeys` | utils/providers.py:225-233 | It returns keys exactly when `list_providers` returns providers, and then the keys are those providers' keys, in the same order. |
| `Providers.Registry.ListedKeysAccepted` | utils/providers.py:232-233 | A key is listed exactly when it is configured, it has a crud, and every active filter accepts that crud. So a listed provider passes the caller's filters, plus the global filters when they are on. |
| `Providers.Registry.ListedKeyAccepted` | utils/providers.py:232-233 | A listed key is configured, and its crud passes the active filters, the caller's filters, and the global filters when they are on. |
| `Providers.Registry.AcceptedKeyListed` | utils/providers.py:232-233 | A configured key whose crud passes every active filter is listed. |
| `Providers.Registry.ExistingProviders` | utils/providers.py:236-238 | It raises exactly when `list_providers()` raises, and with the same exception. Otherwise a provider is in the result exactly when `list_providers()` returns it and it already exists. |
| `Providers.Registry.ExistingProvidersAccepted` | utils/providers.py:236-238 | A provider is among the existing providers exactly when it is set up, configured, built by `get_crud` for its key, and accepted by every global filter. |
| `Providers.Registry.GetCrudByName` | utils/providers.py:355-368 | It returns `get_crud` of the first configured key whose `name` matches. When none matches, it raises `NameError("Could not find provider ...")`, and only then. |
| `Providers.Registry.CrudByNameIn` | utils/providers.py:364-368 | Over the given keys, it raises `NameError` exactly when no key's `name` matches, and that is the only `NameError` it raises. |
| `Providers.Registry.CrudByNameFirst` | utils/providers.py:364-366 | The first key whose `name` matches decides the result, which is that key's `get_crud`. |
| `Providers.Registry.SetGlobalFilter` | fixtures/prov_filter.py:26 | `global_filters[name] = f` sets that entry and leaves every other entry as it was. |
| `Providers.Registry.ReusableOrPool` | utils/providers.py:268-278 | A listing error is raised as it is. An empty listing raises `Exception("All providers have been filtered out, ...")`. When some listed provider exists, the first one that does is returned. The call goes on to the pool exactly when the listing is non-empty and none of it exists, and the pool is then the whole listing. |
| `Providers.Registry.FirstExisting` | utils/providers.py:276-278 | It finds the first listed provider that exists, or reports that none does. |
| `Providers.Registry.DropProblematic` | utils/providers.py:280-295 | The problematic filter is the registered one or a fresh inverted empty-key filter. When it accepts some providers, the pool is exactly `list_providers` with it appended. When it accepts none, the pool stays as it was and the filter's keys are cleared. |
| `Providers.Registry.PreferEligible` | utils/providers.py:297-307 | With more than one provider, the `do_not_prefer` filter is added exactly when its listing is non-empty, and the pool becomes that listing. Otherwise the pool is unchanged. |
| `Providers.Registry.TryPool` | utils/providers.py:309-335 | Result and quarantine are exactly those of `Attempt` on some ordering of the pool's providers that do not exist yet. With a quarantine list, a provider is set up exactly when some pool provider neither exists nor fails; otherwise it raises "No providers could be set up ...". A returned provider is from the pool, did not fail and passes the filters. Every quarantined key failed and did not exist, and it is appended to the existing key list. |
| `Providers.AttemptSucceedsIff` | utils/providers.py:316-335 | Trying candidates in order succeeds exactly when some candidate does not fail. |
| `Providers.ShuffledSucceedsIff` | utils/providers.py:313-335 | Whatever order the shuffle picks, trying the providers that do not exist succeeds exactly when one of them does not fail. |
| `Providers.Registry.RecordQuarantine` | utils/providers.py:289 | The updated problematic filter is what `global_filters['problematic']` holds afterwards, and nothing else changes. |
| `Providers.Registry.SetupAProvider` | utils/providers.py:255-337 | Unless the listing is non-empty with no existing provider, the result is what `ReusableOrPool` states: the listing error, the "filtered out" exception, or the first existing provider. Otherwise the last stage tries a non-empty list of providers that pass the caller's filters. When the problematic quarantine is a list, a provider is then set up exactly when one of those neither exists nor fails. A returned provider is configured, passes the caller's filters, and either exists already or did not fail setup. The caller's filter list is only appended to. Only the problematic entry of `global_filters` changes, by this call's failures or a reset. |
| `Providers.Registry.SetupFromPool` | utils/providers.py:280-335 | The cleared problematic filter is stored before the preferring stage, so that stage lists against it. The caller's list grows by that filter. The problematic keys are the old ones, or none after a reset, followed by exactly the keys that failed. An error of the non-problematic listing is raised as it is. Otherwise, unless the preferred listing raises, the last stage tries a non-empty list that passes the caller's filters and, without a reset, lies within the non-problematic listing. When the quarantine is a list, a provider is set up exactly when one of those neither exists nor fails. |
| `Providers.Registry.DropAndRecord` | utils/providers.py:280-295 | The filter, reset and pool are those `DropProblematic` computes. Afterwards `global_filters['problematic']` holds the filter, with its keys cleared after a reset, and nothing else changes. A quarantine that was a list stays a list. |
| `Providers.Registry.PreferAndTry` | utils/providers.py:297-335 | The list tried is `TriedPool`: the pool when it has one provider, otherwise the non-empty preferred listing, or the pool when that listing is empty. When the preferred listing raises, so does the call. When the quarantine is a list, a provider is set up exactly when one of the tried providers neither exists nor fails. A returned provider comes from the list tried, is configured, passes the caller's filters and did not fail. Every tried key failed and did not exist. Only the problematic filter's keys grow, by exactly the tried keys. |
| `Providers.Registry.TriedPoolFrom` | utils/providers.py:297-307 | The list the last stage tries is non-empty, passes the caller's filters, and is drawn from the pool or from what the non-problematic listing returns. |
| `Providers.Registry.ExtraFiltersNarrow` | utils/providers.py:199-201 | Adding filters to a listing only removes providers from it. |
| `Providers.Registry.CrudOfListed` | utils/providers.py:199-202 | A listed provider is the configured provider for its key and passes the caller's filters. |
| `Providers.Registry.ProvidersPassUser` | utils/providers.py:284-304 | Adding filters to the caller's list only keeps providers that the caller's own filters accept. |
| `ProvFilter.Requested` | fixtures/prov_filter.py:21-23 | An empty `--use-provider` list becomes `["default"]`. Any other list is kept. |
| `ProvFilter.ParseFilter` | fixtures/prov_filter.py:32-48 | A key that `get_crud` resolves gives `keys=[key]`. A `KeyError` gives `required_tags` equal to the arguments. Other errors propagate. |
| `ProvFilter.ParsedFilterShape` | fixtures/prov_filter.py:41-48 | Exactly one of `keys` and `required_tags` comes from the input, and every other attribute keeps its default. |
| `ProvFilter.KeyFilterSelectsKey` | fixtures/prov_filter.py:44 | A key filter accepts only the provider with that key. |
| `ProvFilter.KeyFilterAcceptsKey` | fixtures/prov_filter.py:44 | A key filter accepts its provider when that provider has no version restriction. |
| `ProvFilter.TagFilterNeedsTag` | fixtures/prov_filter.py:47 | A tag filter accepts only providers sharing a tag with the arguments. |
| `ProvFilter.GetCrudOfValue` | fixtures/prov_filter.py:43 | Looking up an unhashable value such as a list raises `TypeError` before the configuration is consulted. |
| `ProvFilter.ParseFilterAsWrittenRaises` | fixtures/prov_filter.py:41-47 | As written, every option list, `["default"]` included, raises `TypeError`. The corrected parse returns a filter. |
| `ProvFilter.PytestConfigure` | fixtures/prov_filter.py:14-29 | The parsed filter is stored as `global_filters['use_provider']`, other global filters are untouched, and the listed keys come from `list_providers()`. |
| `ProvFilter.ConfiguredFilterApplies` | fixtures/prov_filter.py:25-29 | After configuration, every provider `list_providers()` returns passes the `use_provider` filter. |
| `ReportUiElements.PcsMapActions` | cfme/intelligence/reports/ui_elements.py:151-161 | Item i is checked when its value is truthy and unchecked otherwise, and the boxes are closed last. |
| `ReportUiElements.FillPcsMap` | cfme/intelligence/reports/ui_elements.py:151-161 | The loop over `m.iteritems()` performs exactly `PcsMapActions`. |
| `ReportUiElements.PcsMapChecksTruthy` | cfme/intelligence/reports/ui_elements.py:154-160 | Exactly the items with truthy values are checked and exactly the others are unchecked. Items not in the mapping are untouched. |
| `ReportUiElements.FillPcsCallable` | cfme/intelligence/reports/ui_elements.py:137-148 | The loop over `o.items()` equals `PcsCallableRun`. |
| `ReportUiElements.CallableIsMapFill` | cfme/intelligence/reports/ui_elements.py:140-147 | A callable fill does what the mapping fill `{item: c(item)}` does. When `c` raises, the fill raises what `c` raises on the first item it fails on. |
| `ReportUiElements.CallableOkRun` | cfme/intelligence/reports/ui_elements.py:138-147 | When `c` succeeds on every item, the callable fill performs exactly the mapping fill of the items paired with their results. |
| `ReportUiElements.CallableErrRun` | cfme/intelligence/reports/ui_elements.py:138-147 | When `c` raises on some item and on none before it, the callable fill raises exactly that exception. |
| `ReportUiElements.CstFormattersAsWritten` | cfme/intelligence/reports/ui_elements.py:244-247 | As written, a non-sequence, non-string value becomes one formatter. A sequence, strings included, is taken element by element and must have 1 to 3 elements, otherwise the assertion fails. |
| `ReportUiElements.CstFormatters` | cfme/intelligence/reports/ui_elements.py:244-247 | A scalar or a string is one formatter. A list or tuple must have 1 to 3 formatters, otherwise the assertion fails. |
| `ReportUiElements.CstFormatter` | cfme/intelligence/reports/ui_elements.py:248-255 | A string formatter is `[s, "Default"]`. Others need length 2 or 3, otherwise the assertion fails. Elements 0 and 1 give style and operator, and element 2, when present, gives the value. |
| `ReportUiElements.FillColumnStyle` | cfme/intelligence/reports/ui_elements.py:244-255 | The loop over `enumerate(values)` performs exactly the column's `ColumnRun`. |
| `ReportUiElements.FillColumnStyles` | cfme/intelligence/reports/ui_elements.py:241-255 | The loop over the mapping's items performs each column in turn and stops at the first failure. |
| `ReportUiElements.ColumnFillsRows` | cfme/intelligence/reports/ui_elements.py:248-255 | Formatter i fills sub-row i with its style and operator. The value input is filled exactly for formatters with a third element, and only in their own sub-row. |
| `ReportUiElements.RowFilled` | cfme/intelligence/reports/ui_elements.py:252-255 | Every fill of formatter i's sub-row is performed. |
| `ReportUiElements.InputFilled` | cfme/intelligence/reports/ui_elements.py:254-255 | Every value input filled belongs to a sub-row whose formatter has that third element. |
| `ReportUiElements.ScalarIsOneFormatter` | cfme/intelligence/reports/ui_elements.py:245-247 | A value that is neither a sequence nor a string is wrapped into a one-element list. |
| `ReportUiElements.StringFormatterSplit` | cfme/intelligence/reports/ui_elements.py:245-251 | As written, `"Red"` fills three sub-rows with `"R"`, `"e"` and `"d"`, and `"Blue"` fails the assertion. Taken whole, `"Red"` fills one sub-row with `["Red", "Default"]`. |
| `ReportUiElements.HeaderFormat` | cfme/intelligence/reports/ui_elements.py:268-282 | A dict gives `(get("header"), get("format"))`, and a string gives `(s, None)`. A 2-sequence gives its elements, and a 1-sequence gives the header alone. Other lengths raise `ValueError`, and other types raise `Exception`. |
| `ReportUiElements.FillHeaderFormats` | cfme/intelligence/reports/ui_elements.py:263-285 | The loop over the mapping's items performs exactly `ChftRun`. |
| `ReportUiElements.ChftFillsEveryColumn` | cfme/intelligence/reports/ui_elements.py:266-285 | Every column of a fill that completes gets the header and the format that its value normalises to. |
| `ReportUiElements.OneSequenceFormat` | cfme/intelligence/reports/ui_elements.py:274-278 | As written, a first 1-sequence leaves `format` unbound, and a later one reuses the previous format. Taken as the header alone, both fill the format with None. |
| `ReportUiElements.MappingOfSpec` | cfme/intelligence/reports/ui_elements.py:334-339 | A menu is mapped exactly when some option with its text has a value `int` accepts. It maps to the last such option's id, and options without such a value are omitted. |
| `ReportUiElements.MappingHas` | cfme/intelligence/reports/ui_elements.py:334-339 | For any reading of option values, a menu is mapped exactly when one of its options has an id. |
| `ReportUiElements.MappingWitness` | cfme/intelligence/reports/ui_elements.py:334-339 | A mapped menu's id comes from the last of its options that has one. |
| `ReportUiElements.MenuShortcuts.constructor` | cfme/intelligence/reports/ui_elements.py:288-322 | A new widget has no cached mapping and an empty log, reads option values with `int`, and so evaluates `mapping` to `MappingOf(options)`. |
| `ReportUiElements.MenuShortcuts.BuildMapping` | cfme/intelligence/reports/ui_elements.py:334-339 | The loop over the select's options builds exactly `MappingWith(options, idOf)`, where the constructor sets `idOf` to the `int(o.value)` reading, so it is `MappingOf(options)`. |
| `ReportUiElements.MenuShortcuts.Mapping` | cfme/intelligence/reports/ui_elements.py:321-345 | The first access builds and caches the mapping, and later accesses return the cached one. |
| `ReportUiElements.AddSelectsMappedOption` | cfme/intelligence/reports/ui_elements.py:352-363 | `add` raises `NameError` exactly for a menu with no numeric option. Otherwise it selects the option whose value parses back to the menu's id and sets the alias exactly when one is given. |
| `ReportUiElements.MenuShortcuts.Add` | cfme/intelligence/reports/ui_elements.py:352-363 | The widget log grows by exactly `AddRun`'s actions, and the exception is `AddRun`'s. |
| `ReportUiElements.MenuShortcuts.AddAll` | cfme/intelligence/reports/ui_elements.py:369-370 | The menus are added in turn, stopping at the first `NameError`. |
| `ReportUiElements.MenuShortcuts.AddItem` | cfme/intelligence/reports/ui_elements.py:369-370 | One round of the loop adds the item's actions to the log. When the item raises, the whole fill ends there. Otherwise the rest of the fill is the remaining items. |
| `ReportUiElements.MenuShortcuts.FillMap` | cfme/intelligence/reports/ui_elements.py:366-370 | The shortcuts are cleared, then each menu is added with its alias. |
| `ReportUiElements.WithoutAlias` | cfme/intelligence/reports/ui_elements.py:376-377 | A sequence fill adds each menu without an alias. |
| `ReportUiElements.MenuShortcuts.FillSeq` | cfme/intelligence/reports/ui_elements.py:373-377 | The shortcuts are cleared, then each menu is added without an alias. |
| `ReportUiElements.MenuShortcuts.FillStr` | cfme/intelligence/reports/ui_elements.py:380-382 | Filling with a string does exactly what filling with `[s]` does. |
| `ReportUiElements.SingleMenuFill` | cfme/intelligence/reports/ui_elements.py:380-382 | A one-string fill succeeds exactly when the menu is mapped, and then it selects that one option. |
| `ReportUiElements.SelectInto` | cfme/intelligence/reports/ui_elements.py:470-474 | `select` keeps the widgets already selected, in order, and adds the items. Afterwards the selection holds exactly the old widgets and the items. |
| `ReportUiElements.SelectIntoNoRepeats` | cfme/intelligence/reports/ui_elements.py:470-474 | Because an item already selected is skipped, `select` never selects a widget twice. |
| `ReportUiElements.DwsSeqSelects` | cfme/intelligence/reports/ui_elements.py:470-485 | After a sequence fill, exactly the listed widgets are selected, each once, led by the first one listed, whatever was selected before. |
| `ReportUiElements.DwsStrSelects` | cfme/intelligence/reports/ui_elements.py:488-490 | After a string fill, that one widget is the whole selection. |
| `PyStrings.PartitionTail` | utils/providers.py:119 | The tail is what follows the first occurrence of the operator, or empty when the operator does not occur. |
| `PyStrings.Split` | utils/providers.py:137-141 | `split(',')` pieces contain no comma and join back to the text. |
| `PyStrings.ParseIntToString` | cfme/intelligence/reports/ui_elements.py:361 | `int(str(n)) == n`, so the option selected by `str(id)` is the one whose value was read as `id`. |
| `PyStrings.NatDigitsValue` | cfme/intelligence/reports/ui_elements.py:336 | The decimal digits `str` writes for a natural number read back as that number. |
| `PyValues.Subscript` | utils/providers.py:88 | A missing dict key raises `KeyError`, and an out-of-range list index raises `IndexError`. |
| `PyValues.Format` | utils/providers.py:111 | `'{}'.format(v)` gives a string unchanged, an integer as digits that read back as it, a list in brackets and a tuple in parentheses. |
| `PyValues.Contains` | cfme/common/__init__.py:133-135 | `x in c` tests the keys of a dictionary and the items of a list or tuple. It raises `TypeError` exactly for `None` and integers. |
| `Common.AddEachMembers` | cfme/common/__init__.py:34 | After assigning, the set holds exactly the names it held and the given names. |
| `Common.RemoveEachMembers` | cfme/common/__init__.py:44-48 | After unassigning, the set holds exactly the names it held minus the given ones. Absent names are ignored. |
| `Common.AssignIdempotent` | cfme/common/__init__.py:34 | Assigning the same names twice is assigning them once. |
| `Common.UnassignAfterAssign` | cfme/common/__init__.py:27-49 | Unassigning the names just assigned leaves the earlier set minus those names. |
| `Common.OthersUnchanged` | cfme/common/__init__.py:34-48 | A name passed to neither operation is in the set afterwards exactly when it was before. |
| `Common.ProfileSet.constructor` | cfme/common/__init__.py:24 | A new set is empty. |
| `Common.TreeActions` | cfme/common/__init__.py:62-66 | Each given name is checked in the policy tree (assign) or unchecked (unassign), in order. |
| `Common.PolicyProfileAssignable.AssignedPolicyProfiles` | cfme/common/__init__.py:19-25 | The first access creates and stores an empty set. Later accesses return that same object. |
| `Common.PolicyProfileAssignable.AssignPolicyProfiles` | cfme/common/__init__.py:27-35 | Every name is added to the stored set, which is the same object when it existed, and each name is checked in the tree. |
| `Common.PolicyProfileAssignable.UnassignPolicyProfiles` | cfme/common/__init__.py:37-49 | Each name is removed if present, and the set is created only when a name is given. Each name is unchecked in the tree. |
| `Common.DetailTitle` | cfme/common/__init__.py:133-138 | Reading `self.dict` as the instance's attributes (the corrected reading in "## Findings"), the title is `title_text` when present, otherwise `name`. With neither, it raises `NotImplementedError`. |
| `Common.OnDetailPage` | cfme/common/__init__.py:128-140 | It raises exactly when no title can be chosen. Otherwise the verdict is whether the summary header for that title is shown. |
| `Common.GetAttr` | cfme/common/__init__.py:134-136 | An attribute lookup returns the attribute when the instance has it. Otherwise it raises `AttributeError` naming it. |
| `Common.OnDetailPageAsWritten` | cfme/common/__init__.py:133-135 | Without a `dict` attribute, the method raises `AttributeError("dict")`. It answers only when `dict` exists and supports `in`. |
| `Common.DictAttributeMissing` | cfme/common/__init__.py:133-140 | On an instance with a title or a name but no `dict` attribute, the code as written raises, while the attribute-dictionary reading answers. |
| `Common.AsWrittenWithAttributeDict` | cfme/common/__init__.py:133-140 | When `dict` holds the instance's other attributes, the code as written and the corrected reading give the same result. |
| `Common.TitleTextWins` | cfme/common/__init__.py:133-136 | When `title_text` is present, changing or removing `name` does not change the title. |
| `Common.NameFallback` | cfme/common/__init__.py:135-136 | Without `title_text`, the title is `name`. |

## Findings

| source | as written | input that shows it | evidently intended | confidence | as-written member | corrected member |
|---|---|---|---|---|---|---|
| utils/providers.py:176 | `__call__` calls `self.filter_test_flags`, but the method is `_filter_test_flags` (and `self.test_flags` is never set) | any provider on which the first six checks do not raise | call `_filter_test_flags` on a filter whose test flags default to none | high, not executed | `ProviderFilters.CallAsWrittenNeverDecides` | `ProviderFilters.Call` |
| utils/providers.py:198 | `filters + global_filters.items()` adds `(name, filter)` tuples, which `filter` then calls | one configured provider passing the caller's filters while `enabled_only` is registered | add `global_filters.values()` | high, not executed | `Providers.Registry.ListProvidersAsWrittenRaises` | `Providers.Registry.ListProviders` |
| fixtures/prov_filter.py:43 | `get_crud(cmd_filter)` looks the whole option list up in a dictionary, which raises `TypeError` (unhashable), not `KeyError` | `--use-provider` absent, so `["default"]` | look up the single option value as a key, and fall back to tags | medium, not executed | `ProvFilter.ParseFilterAsWrittenRaises` | `ProvFilter.ParseFilter` |
| utils/providers.py:316-325 | `setup_provider` is called without the provider key, and the handler then reads `global_filters.problematic` as an attribute of a dict | any pool with one provider that does not exist yet | set up the candidate, return it as the function's last line (`return provider`) does, and append a failing key to the problematic filter's keys | high, not executed | `Providers.AttemptAsWrittenNeverSetsUp` | `Providers.TrySetup` |
| cfme/common/__init__.py:133 | `'title_text' in self.dict` reads an attribute `dict` that the class does not define | any instance with a `name`, such as one named `ose3` | test the instance's own attributes (`self.__dict__`) | medium, not executed | `Common.OnDetailPageAsWritten` | `Common.OnDetailPage` |
| cfme/intelligence/reports/ui_elements.py:274-276 | a 1-sequence sets only `header`, so `format` is unbound on the first item and stale afterwards | `{"a": ("x", "f"), "b": ["y"]}` fills b's format with `"f"` | a 1-sequence is the header with no format | medium, not executed | `ReportUiElements.OneSequenceFormat` | `ReportUiElements.FillHeaderFormats` |
| cfme/intelligence/reports/ui_elements.py:245 | a string column value is not wrapped, so it is iterated one character per formatter | `{"c": "Red"}` fills three sub-rows with `"R"`, `"e"`, `"d"` | a single string is one formatter `[s, "Default"]` | medium, not executed | `ReportUiElements.StringFormatterSplit` | `ReportUiElements.FillColumnStyle` |

## Left out

- Browser work is not modelled: Selenium locators and XPath strings, `PivotCalcSelect` box handling (`_fill_pcs_str`, `_fill_pcs_seq`, `close_all_boxes` internals), `RecordGrouper`, `Timer`, `ExternalRSSFeed`, and the combo box and remove buttons of `DashboardWidgetSelector`. Fills are modelled as the widget actions they issue. The widget selection is modelled as a list of selected items.
- ReportUiElements.SelectInto: assumes that clicking the combo entry picked by `contains(., item)` selects `item` itself. A widget whose title contains another's title is browser behaviour and is not modelled.
- ReportUiElements.AddRun: assumes that the browser selects an option by its value `str(id)`. Option values written differently from `str` (`"07"`, `" 7"`) read back to the same id but would not be selected, and that browser behaviour is not modelled.
- `MenuShortcuts.mapping` closes the opened shortcut boxes and restores them afterwards. That browser round trip is not modelled; only the option-to-id dictionary is.
- `MenuShortcuts.clear` is one `ClearShortcuts` action, and `load_details`, `get_detail`, `TagMixin` and the "Manage Policies" navigation, save and flash check around the policy tree are left out: they drive the browser only.
- `version.current_version()` is a parameter (`Appliance`), including the unreachable case. How it compares versions is a given function `compareTo`, not a model of version ordering.
- `random.shuffle` is "some permutation". `provider.exists` and setup failure are given sets of keys. Provider creation, deletion, `wait_for_delete`, logging and terminal output are left out.
- `get_mgmt`, YAML loading of `conf`, `list_provider_categories` and `list_provider_types` are not modelled: they only read configuration and the class registry. `BaseProvider.type_mapping` is a sequence of categories with their type names.
- `ProviderFilter.copy` is not modelled: filters are values, so a copy is the filter itself. As a consequence, the in-place reset `nonproblematic_filter.keys = []` is modelled by storing the updated filter back (`RecordQuarantine`). `SetupFromPool` does that before the preferring stage, as the shared object does in the code.
- Floats, `unicode` versus `str`, and string encodings are not modelled. YAML values are `None`, integers (booleans as 0 and 1), strings, lists, tuples and string-keyed dictionaries.
- Providers.Registry.SetupAProvider: names the list its last stage tries only as a non-empty list of providers passing the caller's filters. Which stage that list comes from (non-problematic, preferred) is stated one level down, by `SetupFromPool` and `PreferAndTry` through `TriedPool`.
- SetupFromPool: states that a provider is set up exactly when some tried provider neither exists nor fails only when the registered problematic filter holds a key list. With `keys=None` the first failure raises `AttributeError` from `.append`, which `Attempt` models, and no such equivalence holds.
- PreferAndTry: states the same equivalence only when the filter's keys are a list, for the same reason.
- GlobalFilters: applies the global filters in the order they were registered. Python 2 `dict.items()` uses hash order instead. Filtering does not depend on the order (`FilterOrderIrrelevant`); only which filter's exception is raised first, when several raise, can differ.
- SinceRestriction: formats `since_version` with `str`. A non-empty dictionary is written `{...}` because Python 2 prints its entries in hash order, and the `u` prefix and `\x` escapes of `unicode` values are not modelled.
- FieldOk: a required-field path held in a dictionary is iterated by its keys in hash order. The model raises `TypeError` for such a path, as it does for `None` and integers.
- TrySetup: returns the candidate it set up, as the corrected code's `return provider` would. The source's `setup_provider` returns `create()`'s result instead, which the model leaves out with provider creation.
