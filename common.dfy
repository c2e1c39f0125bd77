/**
 * cfme/common/__init__.py: the in-memory bookkeeping of the policy profiles
 * assigned to an object (`PolicyProfileAssignable`) and the title used to
 * recognise an object's summary page (`GetDetailMixin._on_detail_page`).
 * The browser work around them (navigating, the "Manage Policies" button,
 * saving, flash messages) is not modelled; the checks and unchecks on the
 * policy tree are recorded as a log.
 */
module Common {
  import opened Wrappers
  import opened PyValues

  // ---------------------------------------------------------------- assigned profiles

  /** Adds each name in turn, as `map(s.add, names)` does. */
  function AddEach(s: set<string>, names: seq<string>): set<string>
    decreases |names|
  {
    if |names| == 0 then s else AddEach(s + {names[0]}, names[1..])
  }

  /** Removes each name in turn, skipping the ones not present (`KeyError` is swallowed). */
  function RemoveEach(s: set<string>, names: seq<string>): set<string>
    decreases |names|
  {
    if |names| == 0 then s
    else if names[0] in s then RemoveEach(s - {names[0]}, names[1..])
    else RemoveEach(s, names[1..])
  }

  /** Assigning adds every given name and keeps every name already there; nothing else enters. */
  lemma {:induction false} AddEachMembers(s: set<string>, names: seq<string>)
    ensures forall n :: n in AddEach(s, names) <==> n in s || n in names
    decreases |names|
  {
    if |names| > 0 {
      AddEachMembers(s + {names[0]}, names[1..]);
      assert forall n :: n in names <==> n == names[0] || n in names[1..];
    }
  }

  /** Unassigning removes every given name and keeps every other name; a name not present is ignored. */
  lemma {:induction false} RemoveEachMembers(s: set<string>, names: seq<string>)
    ensures forall n :: n in RemoveEach(s, names) <==> n in s && n !in names
    decreases |names|
  {
    if |names| > 0 {
      if names[0] in s {
        RemoveEachMembers(s - {names[0]}, names[1..]);
      } else {
        RemoveEachMembers(s, names[1..]);
      }
      assert forall n :: n in names <==> n == names[0] || n in names[1..];
    }
  }

  /** Assigning the same names twice is assigning them once. */
  lemma AssignIdempotent(s: set<string>, names: seq<string>)
    ensures AddEach(AddEach(s, names), names) == AddEach(s, names)
  {
    AddEachMembers(s, names);
    AddEachMembers(AddEach(s, names), names);
  }

  /** Unassigning names just assigned leaves the names that were there, less those names. */
  lemma UnassignAfterAssign(s: set<string>, names: seq<string>)
    ensures RemoveEach(AddEach(s, names), names) == s - (set n | n in names)
  {
    AddEachMembers(s, names);
    RemoveEachMembers(AddEach(s, names), names);
  }

  /** A name passed to neither operation is in the set afterwards exactly when it was before. */
  lemma OthersUnchanged(s: set<string>, added: seq<string>, removed: seq<string>, n: string)
    requires n !in added && n !in removed
    ensures n in AddEach(s, added) <==> n in s
    ensures n in RemoveEach(s, removed) <==> n in s
  {
    AddEachMembers(s, added);
    RemoveEachMembers(s, removed);
  }

  /** A Python `set` object: mutable, and shared by every holder of the reference. */
  class ProfileSet {
    var items: set<string>

    /** `set([])` */
    constructor ()
      ensures items == {}
    {
      items := {};
    }
  }

  /** A call on the manage-policies tree. */
  datatype TreeAction = CheckNode(profile: string) | UncheckNode(profile: string)

  /** The tree calls `_assign_unassign_policy_profiles` makes: one per name, in order. */
  function TreeActions(assign: bool, names: seq<string>): (r: seq<TreeAction>)
    ensures |r| == |names|
    ensures forall i :: 0 <= i < |names| ==> r[i] == (if assign then CheckNode(names[i]) else UncheckNode(names[i]))
  {
    seq(|names|, i requires 0 <= i < |names| => if assign then CheckNode(names[i]) else UncheckNode(names[i]))
  }

  /**
   * An object with `PolicyProfileAssignable` mixed in: its
   * `_assigned_policy_profiles` attribute (`null` until first read) and the
   * calls made on its policy tree so far.
   */
  class PolicyProfileAssignable {
    var profiles: ProfileSet?
    var tree: seq<TreeAction>

    /** The names assigned so far (none before the attribute exists). */
    function Assigned(): set<string>
      reads this, profiles
    {
      if profiles == null then {} else profiles.items
    }

    constructor ()
      ensures profiles == null && tree == []
    {
      profiles := null;
      tree := [];
    }

    /**
     * The `assigned_policy_profiles` property: the first read creates an
     * empty set and stores it; every later read returns that same object.
     */
    method AssignedPolicyProfiles() returns (s: ProfileSet)
      modifies this
      ensures old(profiles) == null ==> fresh(s) && s.items == {}
      ensures old(profiles) != null ==> s == old(profiles)
      ensures profiles == s && tree == old(tree)
      ensures Assigned() == old(Assigned())
    {
      if profiles == null {
        profiles := new ProfileSet();
      }
      s := profiles;
    }

    /** `assign_policy_profiles(*names)`: add every name to the set, then check each in the tree. */
    method AssignPolicyProfiles(names: seq<string>)
      modifies this, profiles
      ensures profiles != null && (old(profiles) != null ==> profiles == old(profiles))
      ensures Assigned() == AddEach(old(Assigned()), names)
      ensures tree == old(tree) + TreeActions(true, names)
    {
      ghost var before := Assigned();
      var s := AssignedPolicyProfiles();
      var i := 0;
      while i < |names|
        invariant 0 <= i <= |names|
        invariant profiles == s && tree == old(tree)
        invariant AddEach(before, names) == AddEach(s.items, names[i..])
      {
        assert names[i..][0] == names[i] && names[i..][1..] == names[i + 1..];
        s.items := s.items + {names[i]};
        i := i + 1;
      }
      tree := tree + TreeActions(true, names);
    }

    /**
     * `unassign_policy_profiles(*names)`: remove each name from the set,
     * ignoring names not in it, then uncheck each in the tree.
     */
    method UnassignPolicyProfiles(names: seq<string>)
      modifies this, profiles
      ensures old(profiles) != null ==> profiles == old(profiles)
      ensures profiles == null <==> old(profiles) == null && |names| == 0
      ensures Assigned() == RemoveEach(old(Assigned()), names)
      ensures tree == old(tree) + TreeActions(false, names)
    {
      ghost var before := Assigned();
      var i := 0;
      while i < |names|
        invariant 0 <= i <= |names|
        invariant tree == old(tree)
        invariant old(profiles) != null ==> profiles == old(profiles)
        invariant profiles == null <==> old(profiles) == null && i == 0
        invariant old(profiles) == null && i > 0 ==> fresh(profiles)
        invariant RemoveEach(before, names) == RemoveEach(Assigned(), names[i..])
      {
        assert names[i..][0] == names[i] && names[i..][1..] == names[i + 1..];
        var s := AssignedPolicyProfiles();
        if names[i] in s.items {
          s.items := s.items - {names[i]};
        }
        i := i + 1;
      }
      tree := tree + TreeActions(false, names);
    }
  }

  // ---------------------------------------------------------------- detail page

  /**
   * The title `_on_detail_page` looks for: the instance's `title_text`
   * when it has one, else its `name`; with neither it raises
   * `NotImplementedError`.
   */
  function DetailTitle(attrs: map<string, Value>): (r: PyResult<Value>)
    ensures r.Err? <==> "title_text" !in attrs && "name" !in attrs
    ensures r.Err? ==> r.exc == NotImplementedError
    ensures r.Ok? ==> exists k :: k in attrs && attrs[k] == r.value
  {
    if "title_text" in attrs then Ok(attrs["title_text"])
    else if "name" in attrs then Ok(attrs["name"])
    else Err(NotImplementedError)
  }

  /** `_on_detail_page`, with the browser's "is a `<title> (Summary)` header shown" check given. */
  function OnDetailPage(attrs: map<string, Value>, summaryShown: Value -> bool): (r: PyResult<bool>)
    ensures r.Err? <==> DetailTitle(attrs).Err?
    ensures r.Ok? ==> r.value == summaryShown(DetailTitle(attrs).value)
  {
    var title :- DetailTitle(attrs);
    Ok(summaryShown(title))
  }

  /** `obj.name` on an instance whose attributes are `attrs`. */
  function GetAttr(attrs: map<string, Value>, name: string): (r: PyResult<Value>)
    ensures r.Ok? <==> name in attrs
    ensures r.Ok? ==> r.value == attrs[name]
    ensures r.Err? ==> r.exc == AttributeError(name)
  {
    if name in attrs then Ok(attrs[name]) else Err(AttributeError(name))
  }

  /**
   * `_on_detail_page` as written: both membership tests read the attribute
   * `dict`, which the class and its documented users do not define, so the
   * lookup raises `AttributeError` before any title is chosen.
   */
  function OnDetailPageAsWritten(attrs: map<string, Value>, summaryShown: Value -> bool): (r: PyResult<bool>)
    ensures "dict" !in attrs ==> r == Err(AttributeError("dict"))
    ensures r.Ok? ==> "dict" in attrs && Contains(attrs["dict"], "title_text").Ok?
  {
    var d :- GetAttr(attrs, "dict");
    var hasTitle :- Contains(d, "title_text");
    if hasTitle then
      var title :- GetAttr(attrs, "title_text");
      Ok(summaryShown(title))
    else
      // `Contains` fails on the same values for every key.
      var hasName := Contains(d, "name").value;
      if hasName then
        var title :- GetAttr(attrs, "name");
        Ok(summaryShown(title))
      else Err(NotImplementedError)
  }

  /**
   * An instance with a `title_text` or a `name` but no `dict` attribute: the
   * code as written raises `AttributeError`, where reading the instance's own
   * attributes chooses a title and answers.
   */
  lemma DictAttributeMissing(attrs: map<string, Value>, summaryShown: Value -> bool)
    requires "dict" !in attrs && ("title_text" in attrs || "name" in attrs)
    ensures OnDetailPageAsWritten(attrs, summaryShown) == Err(AttributeError("dict"))
    ensures OnDetailPage(attrs, summaryShown).Ok?
  {
  }

  /**
   * When `dict` does hold the instance's other attributes, the code as
   * written and the corrected reading agree.
   */
  lemma AsWrittenWithAttributeDict(attrs: map<string, Value>, summaryShown: Value -> bool)
    requires "dict" in attrs && attrs["dict"] == Dict(attrs - {"dict"})
    ensures OnDetailPageAsWritten(attrs, summaryShown) == OnDetailPage(attrs, summaryShown)
  {
  }

  /** A `title_text` wins over `name`: changing or dropping the name does not change the title. */
  lemma TitleTextWins(attrs: map<string, Value>, name: Value)
    requires "title_text" in attrs
    ensures DetailTitle(attrs["name" := name]) == Ok(attrs["title_text"])
    ensures DetailTitle(attrs - {"name"}) == Ok(attrs["title_text"])
  {
  }

  /** Without a `title_text`, the title is the name. */
  lemma NameFallback(attrs: map<string, Value>)
    requires "title_text" !in attrs && "name" in attrs
    ensures DetailTitle(attrs) == Ok(attrs["name"])
    ensures DetailTitle(attrs["title_text" := attrs["name"]]) == DetailTitle(attrs)
  {
  }
}
