/**
 * cfme/intelligence/reports/ui_elements.py: how report-editor widgets are
 * filled from user-supplied values. Each fill is modelled by the sequence of
 * widget actions it performs and the exception, if any, that stops it; the
 * locators and the browser calls behind each action are not modelled.
 */
module ReportUiElements {
  import opened Wrappers
  import opened PyStrings
  import opened PyValues

  /** One widget action of a fill. */
  datatype Action =
    // PivotCalcSelect
    | Check(item: Value)
    | Uncheck(item: Value)
    | CloseBoxes
    // ColumnStyleTable: sub-row `row` of the column's row
    | FillStyle(column: string, row: nat, value: Value)
    | FillOperator(column: string, row: nat, value: Value)
    | FillInput(column: string, row: nat, value: Value)
    // ColumnHeaderFormatTable
    | FillHeader(column: string, value: Value)
    | FillFormat(column: string, value: Value)
    // MenuShortcuts
    | ClearShortcuts
    | SelectShortcut(optionValue: string)
    | SetShortcutText(id: int, text: Value)
    // DashboardWidgetSelector
    | ClearWidgets
    | SelectWidgets(items: seq<Value>)

  /** The actions a fill performed, and the exception that ended it early, if any. */
  datatype Run = Run(done: seq<Action>, raised: Option<Exc>)

  /** `actions` followed by what `r` does. */
  function Then(actions: seq<Action>, r: Run): Run {
    Run(actions + r.done, r.raised)
  }

  /** `first`, and then `second` unless `first` raised. */
  function Chain(first: Run, second: Run): Run {
    if first.raised.Some? then first else Then(first.done, second)
  }

  lemma ThenThen(a: seq<Action>, b: seq<Action>, r: Run)
    ensures Then(a, Then(b, r)) == Then(a + b, r)
  {
    assert a + (b + r.done) == (a + b) + r.done;
  }

  // ---------------------------------------------------------------- PivotCalcSelect

  /** `o.check(item)` when `on`, `o.uncheck(item)` otherwise. */
  function Toggle(item: Value, on: bool): Action {
    if on then Check(item) else Uncheck(item)
  }

  /** `_fill_pcs_map`: each item checked when its value is truthy and unchecked otherwise, then the boxes closed. */
  function PcsMapActions(m: seq<(Value, Value)>): (r: seq<Action>)
    ensures |r| == |m| + 1 && r[|m|] == CloseBoxes
    ensures forall i :: 0 <= i < |m| ==> r[i] == Toggle(m[i].0, Truthy(m[i].1))
  {
    seq(|m|, i requires 0 <= i < |m| => Toggle(m[i].0, Truthy(m[i].1))) + [CloseBoxes]
  }

  /** `_fill_pcs_map` as a loop over `m.iteritems()`. */
  method FillPcsMap(m: seq<(Value, Value)>) returns (actions: seq<Action>)
    ensures actions == PcsMapActions(m)
  {
    actions := [];
    var i := 0;
    while i < |m|
      invariant 0 <= i <= |m|
      invariant |actions| == i && forall j :: 0 <= j < i ==> actions[j] == Toggle(m[j].0, Truthy(m[j].1))
    {
      var (item, value) := m[i];
      if Truthy(value) {
        actions := actions + [Check(item)];
      } else {
        actions := actions + [Uncheck(item)];
      }
      i := i + 1;
    }
    actions := actions + [CloseBoxes];
  }

  /** The items of a mapping are distinct. */
  predicate DistinctItems(m: seq<(Value, Value)>) {
    forall i, j :: 0 <= i < j < |m| ==> m[i].0 != m[j].0
  }

  /**
   * A mapping fill checks exactly the items whose value is truthy and
   * unchecks exactly the others; it touches no other item.
   */
  lemma PcsMapChecksTruthy(m: seq<(Value, Value)>, item: Value)
    requires DistinctItems(m)
    ensures Check(item) in PcsMapActions(m) <==> exists i :: 0 <= i < |m| && m[i].0 == item && Truthy(m[i].1)
    ensures Uncheck(item) in PcsMapActions(m) <==> exists i :: 0 <= i < |m| && m[i].0 == item && !Truthy(m[i].1)
    ensures (forall i :: 0 <= i < |m| ==> m[i].0 != item) ==>
      Check(item) !in PcsMapActions(m) && Uncheck(item) !in PcsMapActions(m)
  {
    var r := PcsMapActions(m);
    if Check(item) in r {
      var k :| 0 <= k < |r| && r[k] == Check(item);
      assert k < |m|;
    }
    if Uncheck(item) in r {
      var k :| 0 <= k < |r| && r[k] == Uncheck(item);
      assert k < |m|;
    }
    if exists i :: 0 <= i < |m| && m[i].0 == item && Truthy(m[i].1) {
      var i :| 0 <= i < |m| && m[i].0 == item && Truthy(m[i].1);
      assert r[i] == Check(item);
    }
    if exists i :: 0 <= i < |m| && m[i].0 == item && !Truthy(m[i].1) {
      var i :| 0 <= i < |m| && m[i].0 == item && !Truthy(m[i].1);
      assert r[i] == Uncheck(item);
    }
  }

  /** A Python callable on one item: its return value, or what it raises. */
  type Callable = Value -> PyResult<Value>

  /**
   * `_fill_pcs_callable` over the box's items (`o.items()`, given): each item
   * checked when `bool(c(item))` is true and unchecked otherwise; an
   * exception from `c` stops the fill.
   */
  function PcsCallableRun(items: seq<Value>, c: Callable): Run
  {
    if |items| == 0 then Run([CloseBoxes], None)
    else match c(items[0])
      case Err(e) => Run([], Some(e))
      case Ok(v) => Then([Toggle(items[0], Truthy(v))], PcsCallableRun(items[1..], c))
  }

  /** `_fill_pcs_callable` as a loop over the items. */
  method FillPcsCallable(items: seq<Value>, c: Callable) returns (run: Run)
    ensures run == PcsCallableRun(items, c)
  {
    var actions: seq<Action> := [];
    var i := 0;
    assert items[0..] == items;
    while i < |items|
      invariant 0 <= i <= |items|
      invariant PcsCallableRun(items, c) == Then(actions, PcsCallableRun(items[i..], c))
    {
      assert items[i..][0] == items[i] && items[i..][1..] == items[i + 1..];
      var result := c(items[i]);
      if result.Err? {
        return Run(actions, Some(result.exc));
      }
      ThenThen(actions, [Toggle(items[i], Truthy(result.value))], PcsCallableRun(items[i + 1..], c));
      if Truthy(result.value) {
        actions := actions + [Check(items[i])];
      } else {
        actions := actions + [Uncheck(items[i])];
      }
      i := i + 1;
    }
    assert actions + [CloseBoxes] == actions + PcsCallableRun([], c).done;
    return Run(actions + [CloseBoxes], None);
  }

  /** `{item: c(item) for item in items}`, when `c` raises on none of them. */
  function Results(items: seq<Value>, c: Callable): (r: seq<(Value, Value)>)
    requires forall i :: 0 <= i < |items| ==> c(items[i]).Ok?
    ensures |r| == |items| && forall i :: 0 <= i < |items| ==> r[i] == (items[i], c(items[i]).value)
  {
    seq(|items|, i requires 0 <= i < |items| => (items[i], c(items[i]).value))
  }

  /**
   * When `c` raises on no item, filling with `c` does what filling with
   * the mapping `{item: c(item)}` does; otherwise the fill raises what `c`
   * raises on the first item it fails on.
   */
  lemma CallableIsMapFill(items: seq<Value>, c: Callable)
    ensures (forall i :: 0 <= i < |items| ==> c(items[i]).Ok?) ==>
      PcsCallableRun(items, c) == Run(PcsMapActions(Results(items, c)), None)
    ensures forall i :: 0 <= i < |items| && c(items[i]).Err? && (forall j :: 0 <= j < i ==> c(items[j]).Ok?) ==>
      PcsCallableRun(items, c).raised == Some(c(items[i]).exc)
  {
    if forall i :: 0 <= i < |items| ==> c(items[i]).Ok? {
      CallableOkRun(items, c);
    }
    forall i | 0 <= i < |items| && c(items[i]).Err? && (forall j :: 0 <= j < i ==> c(items[j]).Ok?)
      ensures PcsCallableRun(items, c).raised == Some(c(items[i]).exc)
    {
      CallableErrRun(items, c, i);
    }
  }

  /** The mapping fill of one more item toggles it first. */
  lemma PcsMapActionsCons(x: (Value, Value), m: seq<(Value, Value)>)
    ensures PcsMapActions([x] + m) == [Toggle(x.0, Truthy(x.1))] + PcsMapActions(m)
  {
    var l, r := PcsMapActions([x] + m), [Toggle(x.0, Truthy(x.1))] + PcsMapActions(m);
    assert |l| == |r|;
    forall i | 0 <= i < |l| ensures l[i] == r[i] {
      if 0 < i < |l| - 1 {
        assert ([x] + m)[i] == m[i - 1];
      }
    }
  }

  /** A callable that raises on no item fills as its mapping does. */
  lemma {:induction false} CallableOkRun(items: seq<Value>, c: Callable)
    requires forall i :: 0 <= i < |items| ==> c(items[i]).Ok?
    ensures PcsCallableRun(items, c) == Run(PcsMapActions(Results(items, c)), None)
  {
    if |items| > 0 {
      assert forall i :: 0 <= i < |items| - 1 ==> items[1..][i] == items[i + 1];
      CallableOkRun(items[1..], c);
      var head := (items[0], c(items[0]).value);
      assert Results(items, c) == [head] + Results(items[1..], c);
      PcsMapActionsCons(head, Results(items[1..], c));
    }
  }

  /** A callable that raises stops the fill with what it raises on the first item it fails on. */
  lemma {:induction false} CallableErrRun(items: seq<Value>, c: Callable, i: nat)
    requires i < |items| && c(items[i]).Err?
    requires forall j :: 0 <= j < i ==> c(items[j]).Ok?
    ensures PcsCallableRun(items, c).raised == Some(c(items[i]).exc)
  {
    if i > 0 {
      assert c(items[0]).Ok?;
      assert forall j :: 0 <= j < i - 1 ==> items[1..][j] == items[j + 1];
      CallableErrRun(items[1..], c, i - 1);
      assert items[1..][i - 1] == items[i];
    }
  }

  // ---------------------------------------------------------------- ColumnStyleTable

  const MaxFormatters := "Maximum 3 formatters"
  const BadFormatter := "Must be string or 2-or-3-tuple"

  /**
   * The formatter list of one column in `_fill_cst_map` as written: a value
   * that is neither a sequence nor a string is wrapped in a list; a string,
   * being a sequence, is taken character by character.
   */
  function CstFormattersAsWritten(values: Value): (r: PyResult<seq<Value>>)
    ensures !IsSequence(values) ==> r == Ok([values])
    ensures IsSequence(values) && 1 <= |SeqItems(values)| <= 3 ==> r == Ok(SeqItems(values))
    ensures IsSequence(values) && !(1 <= |SeqItems(values)| <= 3) ==> r == Err(AssertionError(MaxFormatters))
    ensures r.Ok? ==> 1 <= |r.value| <= 3
  {
    var vs := if IsSequence(values) then values else List([values]);
    var n := |SeqItems(vs)|;
    if 1 <= n <= 3 then Ok(SeqItems(vs)) else Err(AssertionError(MaxFormatters))
  }

  /**
   * The formatter list of one column with a single string taken as one
   * formatter, as scalars are.
   */
  function CstFormatters(values: Value): (r: PyResult<seq<Value>>)
    ensures !IsSequence(values) || values.Str? ==> r == Ok([values])
    ensures (values.List? || values.Tuple?) && 1 <= |values.items| <= 3 ==> r == Ok(values.items)
    ensures (values.List? || values.Tuple?) && !(1 <= |values.items| <= 3) ==> r == Err(AssertionError(MaxFormatters))
    ensures r.Ok? ==> 1 <= |r.value| <= 3
  {
    var vs := if IsSequence(values) && !values.Str? then values else List([values]);
    var n := |SeqItems(vs)|;
    if 1 <= n <= 3 then Ok(SeqItems(vs)) else Err(AssertionError(MaxFormatters))
  }

  /** One formatter: the style, the operator and, for a 3-element formatter, the value. */
  datatype Formatter = Formatter(style: Value, operator: Value, input: Option<Value>)

  /**
   * One formatter of `_fill_cst_map`: a string `s` stands for
   * `[s, "Default"]`; anything else must have length 2 or 3 and is indexed
   * by 0, 1 and (for length 3) 2. Indexing a list or tuple of that length
   * cannot fail, and `value[0]` on a dict (whose keys are strings) raises
   * `KeyError(0)` before anything is filled.
   */
  function CstFormatter(value: Value): (r: PyResult<Formatter>)
    ensures value.Str? ==> r == Ok(Formatter(value, Str("Default"), None))
    ensures (value.List? || value.Tuple?) && |value.items| == 2 ==> r == Ok(Formatter(value.items[0], value.items[1], None))
    ensures (value.List? || value.Tuple?) && |value.items| == 3 ==>
      r == Ok(Formatter(value.items[0], value.items[1], Some(value.items[2])))
    ensures (value.List? || value.Tuple? || value.Dict?) && Len(value).Ok? && !(2 <= Len(value).value <= 3) ==>
      r == Err(AssertionError(BadFormatter))
    ensures value.Dict? && 2 <= |value.entries| <= 3 ==> r == Err(KeyError(Int(0)))
    ensures value.Int? || value.NoneV? ==> r.Err? && r.exc.TypeError?
  {
    var v := if value.Str? then List([value, Str("Default")]) else value;
    match Len(v)
    case Err(e) => Err(e)
    case Ok(n) =>
      if !(2 <= n <= 3) then Err(AssertionError(BadFormatter))
      else if v.Dict? then Err(KeyError(Int(0)))
      else Ok(Formatter(v.items[0], v.items[1], if n == 3 then Some(v.items[2]) else None))
  }

  /** The fills of sub-row `row`: style, operator and, when there is one, the value input. */
  function RowActions(column: string, row: nat, f: Formatter): seq<Action> {
    [FillStyle(column, row, f.style), FillOperator(column, row, f.operator)] +
    (if f.input.Some? then [FillInput(column, row, f.input.value)] else [])
  }

  /** The formatters `fs`, the first of them filling sub-row `row`. */
  function ColumnRun(column: string, fs: seq<Value>, row: nat): Run
    decreases |fs|
  {
    if |fs| == 0 then Run([], None)
    else match CstFormatter(fs[0])
      case Err(e) => Run([], Some(e))
      case Ok(f) => Then(RowActions(column, row, f), ColumnRun(column, fs[1..], row + 1))
  }

  /** A way of turning a column's value into its formatter list. */
  type Normaliser = Value -> PyResult<seq<Value>>

  /** One `key, values` item of `_fill_cst_map`. */
  function CstColumn(column: string, values: Value, normalise: Normaliser): Run {
    match normalise(values)
    case Err(e) => Run([], Some(e))
    case Ok(fs) => ColumnRun(column, fs, 0)
  }

  /** `_fill_cst_map` over the items of the mapping, in iteration order. */
  function CstRun(d: seq<(string, Value)>, normalise: Normaliser): Run {
    if |d| == 0 then Run([], None)
    else Chain(CstColumn(d[0].0, d[0].1, normalise), CstRun(d[1..], normalise))
  }

  /** The formatters from the `i`-th on: the `i`-th fills sub-row `i`, then the rest follow. */
  lemma ColumnRunStep(column: string, fs: seq<Value>, i: nat)
    requires i < |fs|
    ensures ColumnRun(column, fs[i..], i) ==
      match CstFormatter(fs[i])
      case Err(e) => Run([], Some(e))
      case Ok(f) => Then(RowActions(column, i, f), ColumnRun(column, fs[i + 1..], i + 1))
  {
    assert fs[i..][0] == fs[i] && fs[i..][1..] == fs[i + 1..];
  }

  /** One column of `_fill_cst_map`, as the loop over `enumerate(values)`. */
  method FillColumnStyle(column: string, values: Value) returns (run: Run)
    ensures run == CstColumn(column, values, CstFormatters)
  {
    var fs := CstFormatters(values);
    if fs.Err? {
      return Run([], Some(fs.exc));
    }
    var actions: seq<Action> := [];
    var i := 0;
    assert fs.value[0..] == fs.value;
    while i < |fs.value|
      invariant 0 <= i <= |fs.value|
      invariant ColumnRun(column, fs.value, 0) == Then(actions, ColumnRun(column, fs.value[i..], i))
    {
      ColumnRunStep(column, fs.value, i);
      var f := CstFormatter(fs.value[i]);
      if f.Err? {
        return Run(actions, Some(f.exc));
      }
      var row := [FillStyle(column, i, f.value.style), FillOperator(column, i, f.value.operator)];
      if f.value.input.Some? {
        row := row + [FillInput(column, i, f.value.input.value)];
      }
      assert row == RowActions(column, i, f.value);
      ThenThen(actions, row, ColumnRun(column, fs.value[i + 1..], i + 1));
      actions := actions + row;
      i := i + 1;
    }
    assert actions + [] == actions;
    return Run(actions, None);
  }

  /** `_fill_cst_map` as a loop over `d.iteritems()`. */
  method FillColumnStyles(d: seq<(string, Value)>) returns (run: Run)
    ensures run == CstRun(d, CstFormatters)
  {
    var actions: seq<Action> := [];
    var i := 0;
    assert d[0..] == d;
    while i < |d|
      invariant 0 <= i <= |d|
      invariant CstRun(d, CstFormatters) == Then(actions, CstRun(d[i..], CstFormatters))
    {
      assert d[i..][0] == d[i] && d[i..][1..] == d[i + 1..];
      var column := FillColumnStyle(d[i].0, d[i].1);
      if column.raised.Some? {
        return Run(actions + column.done, column.raised);
      }
      ThenThen(actions, column.done, CstRun(d[i + 1..], CstFormatters));
      actions := actions + column.done;
      i := i + 1;
    }
    assert actions + [] == actions;
    return Run(actions, None);
  }

  /**
   * When a column's formatters all normalise, formatter `i` fills sub-row
   * `row + i`: its style and operator, and the value input exactly when it
   * has a third element; nothing outside those sub-rows is filled.
   */
  lemma {:induction false} ColumnFillsRows(column: string, fs: seq<Value>, row: nat)
    requires ColumnRun(column, fs, row).raised.None?
    ensures forall i :: 0 <= i < |fs| ==> CstFormatter(fs[i]).Ok?
    ensures forall i :: 0 <= i < |fs| ==>
      FillStyle(column, row + i, CstFormatter(fs[i]).value.style) in ColumnRun(column, fs, row).done &&
      FillOperator(column, row + i, CstFormatter(fs[i]).value.operator) in ColumnRun(column, fs, row).done
    ensures forall a :: a in ColumnRun(column, fs, row).done && a.FillInput? ==>
      a.column == column && row <= a.row < row + |fs| && CstFormatter(fs[a.row - row]).value.input == Some(a.value)
    ensures forall i :: 0 <= i < |fs| && CstFormatter(fs[i]).value.input.Some? ==>
      FillInput(column, row + i, CstFormatter(fs[i]).value.input.value) in ColumnRun(column, fs, row).done
  {
    forall i | 0 <= i < |fs|
      ensures CstFormatter(fs[i]).Ok?
      ensures forall a :: a in RowActions(column, row + i, CstFormatter(fs[i]).value) ==> a in ColumnRun(column, fs, row).done
    {
      RowFilled(column, fs, row, i);
    }
    forall a | a in ColumnRun(column, fs, row).done && a.FillInput?
      ensures a.column == column && row <= a.row < row + |fs| && CstFormatter(fs[a.row - row]).value.input == Some(a.value)
    {
      InputFilled(column, fs, row, a);
    }
  }

  /** Formatter `i` normalises and all of its sub-row's fills are done. */
  lemma {:induction false} RowFilled(column: string, fs: seq<Value>, row: nat, i: nat)
    requires ColumnRun(column, fs, row).raised.None? && i < |fs|
    ensures CstFormatter(fs[i]).Ok?
    ensures forall a :: a in RowActions(column, row + i, CstFormatter(fs[i]).value) ==> a in ColumnRun(column, fs, row).done
    decreases i
  {
    var head := CstFormatter(fs[0]);
    assert head.Ok?;
    var tail := ColumnRun(column, fs[1..], row + 1);
    assert ColumnRun(column, fs, row).done == RowActions(column, row, head.value) + tail.done;
    if i > 0 {
      RowFilled(column, fs[1..], row + 1, i - 1);
      assert fs[1..][i - 1] == fs[i];
    }
  }

  /** Every value input the column fills belongs to a sub-row whose formatter has that third element. */
  lemma {:induction false} InputFilled(column: string, fs: seq<Value>, row: nat, a: Action)
    requires ColumnRun(column, fs, row).raised.None?
    requires a in ColumnRun(column, fs, row).done && a.FillInput?
    ensures a.column == column && row <= a.row < row + |fs| && CstFormatter(fs[a.row - row]).Ok?
    ensures CstFormatter(fs[a.row - row]).value.input == Some(a.value)
    decreases |fs|
  {
    var head := CstFormatter(fs[0]);
    assert head.Ok?;
    var tail := ColumnRun(column, fs[1..], row + 1);
    assert ColumnRun(column, fs, row).done == RowActions(column, row, head.value) + tail.done;
    if a !in RowActions(column, row, head.value) {
      InputFilled(column, fs[1..], row + 1, a);
      assert fs[1..][a.row - (row + 1)] == fs[a.row - row];
    }
  }

  /**
   * A column value that is neither a sequence nor a string is one
   * formatter, both as written and corrected; 1 to 3 formatters are
   * accepted and any other count raises the assertion.
   */
  lemma ScalarIsOneFormatter(values: Value)
    requires !IsSequence(values)
    ensures CstFormattersAsWritten(values) == Ok([values])
    ensures CstFormatters(values) == Ok([values])
    ensures CstColumn("c", values, CstFormatters) == ColumnRun("c", [values], 0)
  {
  }

  /**
   * As written, a column given a single string formatter is filled one
   * character per sub-row ("Red" fills three sub-rows with "R", "e" and
   * "d") or rejected when it is longer than three characters; with strings
   * taken whole, "Red" fills one sub-row with style "Red" and operator
   * "Default".
   */
  lemma StringFormatterSplit()
    ensures CstColumn("c", Str("Red"), CstFormattersAsWritten) ==
      Run(RowActions("c", 0, Formatter(Str("R"), Str("Default"), None)) +
          RowActions("c", 1, Formatter(Str("e"), Str("Default"), None)) +
          RowActions("c", 2, Formatter(Str("d"), Str("Default"), None)), None)
    ensures CstColumn("c", Str("Blue"), CstFormattersAsWritten) == Run([], Some(AssertionError(MaxFormatters)))
    ensures CstColumn("c", Str("Red"), CstFormatters) ==
      Run([FillStyle("c", 0, Str("Red")), FillOperator("c", 0, Str("Default"))], None)
  {
    var items := SeqItems(Str("Red"));
    assert items == [Str("R"), Str("e"), Str("d")];
    assert items[1..] == [Str("e"), Str("d")] && items[1..][1..] == [Str("d")] && items[1..][1..][1..] == [];
    assert |SeqItems(Str("Blue"))| == 4;
  }

  // ---------------------------------------------------------------- ColumnHeaderFormatTable

  /**
   * The header and format of one item of `__fill_chft_map`: a dict gives
   * its `header` and `format` entries (None when absent), a string is the
   * header alone, a 2-sequence is the pair and a 1-sequence the header
   * alone; other sequence lengths and other types raise.
   */
  function HeaderFormat(value: Value): (r: PyResult<(Value, Value)>)
    ensures value.Dict? ==> r == Ok((DictGet(value.entries, "header", NoneV), DictGet(value.entries, "format", NoneV)))
    ensures value.Str? ==> r == Ok((value, NoneV))
    ensures (value.List? || value.Tuple?) && |value.items| == 1 ==> r == Ok((value.items[0], NoneV))
    ensures (value.List? || value.Tuple?) && |value.items| == 2 ==> r == Ok((value.items[0], value.items[1]))
    ensures (value.List? || value.Tuple?) && !(1 <= |value.items| <= 2) ==> r == Err(ValueError("Wrong sequence length"))
    ensures value.Int? || value.NoneV? ==> r == Err(Exception("", NoneV))
    ensures r.Ok? <==> value.Dict? || value.Str? || ((value.List? || value.Tuple?) && 1 <= |value.items| <= 2)
  {
    match value
    case Dict(m) => Ok((DictGet(m, "header", NoneV), DictGet(m, "format", NoneV)))
    case Str(_) => Ok((value, NoneV))
    case List(xs) =>
      if |xs| == 1 then Ok((xs[0], NoneV))
      else if |xs| == 2 then Ok((xs[0], xs[1]))
      else Err(ValueError("Wrong sequence length"))
    case Tuple(xs) =>
      if |xs| == 1 then Ok((xs[0], NoneV))
      else if |xs| == 2 then Ok((xs[0], xs[1]))
      else Err(ValueError("Wrong sequence length"))
    case _ => Err(Exception("", NoneV))
  }

  /** `__fill_chft_map` over the items of the mapping, in iteration order. */
  function ChftRun(d: seq<(string, Value)>): Run {
    if |d| == 0 then Run([], None)
    else match HeaderFormat(d[0].1)
      case Err(e) => Run([], Some(e))
      case Ok((header, format)) => Then([FillHeader(d[0].0, header), FillFormat(d[0].0, format)], ChftRun(d[1..]))
  }

  /** `__fill_chft_map` as a loop over `d.iteritems()`. */
  method FillHeaderFormats(d: seq<(string, Value)>) returns (run: Run)
    ensures run == ChftRun(d)
  {
    var actions: seq<Action> := [];
    var i := 0;
    assert d[0..] == d;
    while i < |d|
      invariant 0 <= i <= |d|
      invariant ChftRun(d) == Then(actions, ChftRun(d[i..]))
    {
      assert d[i..][0] == d[i] && d[i..][1..] == d[i + 1..];
      var (key, value) := d[i];
      var header: Value, format: Value;
      match value {
        case Dict(m) =>
          header, format := DictGet(m, "header", NoneV), DictGet(m, "format", NoneV);
        case Str(_) =>
          header, format := value, NoneV;
        case List(xs) =>
          if |xs| == 1 {
            header, format := xs[0], NoneV;
          } else if |xs| == 2 {
            header, format := xs[0], xs[1];
          } else {
            return Run(actions, Some(ValueError("Wrong sequence length")));
          }
        case Tuple(xs) =>
          if |xs| == 1 {
            header, format := xs[0], NoneV;
          } else if |xs| == 2 {
            header, format := xs[0], xs[1];
          } else {
            return Run(actions, Some(ValueError("Wrong sequence length")));
          }
        case _ =>
          return Run(actions, Some(Exception("", NoneV)));
      }
      assert HeaderFormat(value) == Ok((header, format));
      ThenThen(actions, [FillHeader(key, header), FillFormat(key, format)], ChftRun(d[i + 1..]));
      actions := actions + [FillHeader(key, header), FillFormat(key, format)];
      i := i + 1;
    }
    assert actions + [] == actions;
    return Run(actions, None);
  }

  /**
   * The header/format fill fills, for every column whose value the run got
   * past, the header and the format that `HeaderFormat` gives.
   */
  lemma {:induction false} ChftFillsEveryColumn(d: seq<(string, Value)>, i: nat)
    requires ChftRun(d).raised.None? && i < |d|
    ensures HeaderFormat(d[i].1).Ok?
    ensures FillHeader(d[i].0, HeaderFormat(d[i].1).value.0) in ChftRun(d).done
    ensures FillFormat(d[i].0, HeaderFormat(d[i].1).value.1) in ChftRun(d).done
  {
    if i > 0 {
      ChftFillsEveryColumn(d[1..], i - 1);
      assert d[1..][i - 1] == d[i];
    }
  }

  /**
   * `__fill_chft_map` as written: a 1-sequence sets only `header`, so the
   * format is the one left by the previous item, or an unbound local on the
   * first item. `format` is that variable (`None` while unbound).
   */
  function ChftRunAsWritten(d: seq<(string, Value)>, format: Option<Value>): Run {
    if |d| == 0 then Run([], None)
    else
      var (key, value) := d[0];
      var step: PyResult<(Value, Option<Value>)> :=
        match value
        case Dict(m) => Ok((DictGet(m, "header", NoneV), Some(DictGet(m, "format", NoneV))))
        case Str(_) => Ok((value, Some(NoneV)))
        case List(xs) =>
          if |xs| == 1 then Ok((xs[0], format))
          else if |xs| == 2 then Ok((xs[0], Some(xs[1])))
          else Err(ValueError("Wrong sequence length"))
        case Tuple(xs) =>
          if |xs| == 1 then Ok((xs[0], format))
          else if |xs| == 2 then Ok((xs[0], Some(xs[1])))
          else Err(ValueError("Wrong sequence length"))
        case _ => Err(Exception("", NoneV));
      match step
      case Err(e) => Run([], Some(e))
      case Ok((header, None)) => Run([], Some(UnboundLocalError("format")))
      case Ok((header, Some(f))) => Then([FillHeader(key, header), FillFormat(key, f)], ChftRunAsWritten(d[1..], Some(f)))
  }

  /**
   * As written, a 1-sequence first in the mapping raises, and one after a
   * 2-sequence reuses that item's format; taken as the header alone, both
   * fill the format with None.
   */
  lemma OneSequenceFormat()
    ensures ChftRunAsWritten([("a", List([Str("x")]))], None) == Run([], Some(UnboundLocalError("format")))
    ensures ChftRun([("a", List([Str("x")]))]) == Run([FillHeader("a", Str("x")), FillFormat("a", NoneV)], None)
    ensures FillFormat("b", Str("f")) in
      ChftRunAsWritten([("a", Tuple([Str("x"), Str("f")])), ("b", List([Str("y")]))], None).done
    ensures FillFormat("b", NoneV) in ChftRun([("a", Tuple([Str("x"), Str("f")])), ("b", List([Str("y")]))]).done
  {
    var d := [("a", Tuple([Str("x"), Str("f")])), ("b", List([Str("y")]))];
    assert d[1..] == [("b", List([Str("y")]))] && d[1..][1..] == [];
    var first := [FillHeader("a", Str("x")), FillFormat("a", Str("f"))];
    assert ChftRunAsWritten(d, None).done == first + [FillHeader("b", Str("y")), FillFormat("b", Str("f"))];
    assert ChftRun(d).done == first + [FillHeader("b", Str("y")), FillFormat("b", NoneV)];
  }

  // ---------------------------------------------------------------- MenuShortcuts

  /** An `<option>` of the menu select: its text and its `value` attribute (absent as `None`). */
  datatype MenuOption = MenuOption(text: string, value: Option<string>)

  /** `int(option value)`: `None` when `int` raises (`TypeError` for a missing value, `ValueError` for text). */
  function OptionId(value: Option<string>): Option<int> {
    if value.None? then None else ParseInt(value.value)
  }

  /** How an option's `value` attribute reads as an id. */
  type IdReader = Option<string> -> Option<int>

  /**
   * The dictionary `MenuShortcuts.mapping` builds when each option's value
   * reads as `idOf` says: option text to option id, skipping options with
   * no id; a later option with the same text overwrites an earlier one.
   */
  function MappingWith(options: seq<MenuOption>, idOf: IdReader): map<string, int>
    decreases |options|
  {
    if |options| == 0 then map[]
    else
      var m := MappingWith(options[..|options| - 1], idOf);
      var last := options[|options| - 1];
      match idOf(last.value)
      case None => m
      case Some(id) => m[last.text := id]
  }

  /** `MenuShortcuts.mapping`: the ids are the option values read by `int`. */
  function MappingOf(options: seq<MenuOption>): map<string, int> {
    MappingWith(options, OptionId)
  }

  /**
   * A menu is in the mapping exactly when some option with its text has a
   * numeric value, and it maps to the id of the last such option.
   */
  lemma MappingOfSpec(options: seq<MenuOption>, menu: string)
    ensures menu in MappingOf(options) <==>
      exists i :: 0 <= i < |options| && options[i].text == menu && OptionId(options[i].value).Some?
    ensures menu in MappingOf(options) ==>
      exists i :: 0 <= i < |options| && options[i].text == menu && OptionId(options[i].value) == Some(MappingOf(options)[menu]) &&
        forall j :: i < j < |options| && options[j].text == menu ==> OptionId(options[j].value).None?
  {
    MappingHas(options, OptionId, menu);
    if menu in MappingOf(options) {
      var i := MappingWitness(options, OptionId, menu);
    }
  }

  /** A menu is in the mapping exactly when some option with its text has an id. */
  lemma {:induction false} MappingHas(options: seq<MenuOption>, idOf: IdReader, menu: string)
    ensures menu in MappingWith(options, idOf) <==>
      exists i :: 0 <= i < |options| && options[i].text == menu && idOf(options[i].value).Some?
    decreases |options|
  {
    if |options| > 0 {
      var init := options[..|options| - 1];
      MappingHas(init, idOf, menu);
      assert forall i :: 0 <= i < |init| ==> init[i] == options[i];
    }
  }

  /** The option a mapped menu comes from: the last one with its text and an id. */
  lemma {:induction false} MappingWitness(options: seq<MenuOption>, idOf: IdReader, menu: string) returns (i: nat)
    requires menu in MappingWith(options, idOf)
    ensures i < |options| && options[i].text == menu && idOf(options[i].value) == Some(MappingWith(options, idOf)[menu])
    ensures forall j :: i < j < |options| && options[j].text == menu ==> idOf(options[j].value).None?
    decreases |options|
  {
    var init := options[..|options| - 1];
    var last := options[|options| - 1];
    if last.text == menu && idOf(last.value).Some? {
      i := |options| - 1;
    } else {
      i := MappingWitness(init, idOf, menu);
      assert options[i] == init[i];
      assert forall j :: i < j < |init| ==> init[j] == options[j];
    }
  }

  /** `ms.add(menu, alias)` given the mapping: select the option by its id, then set the alias when one is given. */
  function AddRun(m: map<string, int>, menu: string, alias: Value): (r: Run)
  {
    if menu !in m then Run([], Some(NameError("Unknown menu location {}!", Str(menu))))
    else Run([SelectShortcut(IntToString(m[menu]))] + (if alias != NoneV then [SetShortcutText(m[menu], alias)] else []), None)
  }

  /** `for menu, alias in items: ms.add(menu, alias)`, stopping at the first raise. */
  function AddAllRun(m: map<string, int>, items: seq<(string, Value)>): Run {
    if |items| == 0 then Run([], None)
    else Chain(AddRun(m, items[0].0, items[0].1), AddAllRun(m, items[1..]))
  }

  /** The items from the `i`-th on: add the `i`-th, then the rest unless it raised. */
  lemma AddAllRunStep(m: map<string, int>, items: seq<(string, Value)>, i: nat)
    requires i < |items|
    ensures AddAllRun(m, items[i..]) == Chain(AddRun(m, items[i].0, items[i].1), AddAllRun(m, items[i + 1..]))
  {
    assert items[i..][0] == items[i] && items[i..][1..] == items[i + 1..];
  }

  /** `[(menu, None) for menu in menus]` */
  function WithoutAlias(menus: seq<string>): (r: seq<(string, Value)>)
    ensures |r| == |menus| && forall i :: 0 <= i < |menus| ==> r[i] == (menus[i], NoneV)
  {
    seq(|menus|, i requires 0 <= i < |menus| => (menus[i], NoneV))
  }

  /**
   * `add` raises `NameError` exactly for a menu that no option with a
   * numeric value names; otherwise it selects the option whose value is
   * the menu's id (the selected text parses back to that id).
   */
  lemma AddSelectsMappedOption(options: seq<MenuOption>, menu: string, alias: Value)
    ensures AddRun(MappingOf(options), menu, alias).raised.Some? <==>
      forall i :: 0 <= i < |options| && options[i].text == menu ==> OptionId(options[i].value).None?
    ensures AddRun(MappingOf(options), menu, alias).raised.Some? ==>
      AddRun(MappingOf(options), menu, alias) == Run([], Some(NameError("Unknown menu location {}!", Str(menu))))
    ensures AddRun(MappingOf(options), menu, alias).raised.None? ==>
      exists i :: 0 <= i < |options| && options[i].text == menu &&
        OptionId(options[i].value) == ParseInt(AddRun(MappingOf(options), menu, alias).done[0].optionValue)
    ensures AddRun(MappingOf(options), menu, alias).raised.None? ==>
      (alias != NoneV <==> SetShortcutText(MappingOf(options)[menu], alias) in AddRun(MappingOf(options), menu, alias).done)
  {
    MappingOfSpec(options, menu);
    var m := MappingOf(options);
    if menu in m {
      ParseIntToString(m[menu]);
    }
  }

  /**
   * The menu-shortcuts widget: the options of its select, the cache of
   * `mapping` (`@lazycache`: computed on first access, then kept), and the
   * actions performed on it so far.
   */
  class MenuShortcuts {
    const options: seq<MenuOption>
    /** How an option's `value` is read as an id: `int(o.value)`, that is `OptionId`. */
    const idOf: IdReader
    /** The dictionary `mapping` evaluates to. */
    ghost const shortcuts: map<string, int> := MappingWith(options, idOf)
    var cache: Option<map<string, int>>
    var log: seq<Action>

    ghost predicate Valid()
      reads this
    {
      cache.Some? ==> cache.value == shortcuts
    }

    constructor (options: seq<MenuOption>)
      ensures Valid() && this.options == options && idOf == OptionId && cache == None && log == []
      ensures shortcuts == MappingOf(options)
    {
      this.options := options;
      idOf := OptionId;
      cache := None;
      log := [];
    }

    /** The body of `mapping`: one pass over the select's options. */
    method BuildMapping() returns (result: map<string, int>)
      ensures result == MappingWith(options, idOf)
    {
      result := map[];
      var i := 0;
      while i < |options|
        invariant 0 <= i <= |options|
        invariant result == MappingWith(options[..i], idOf)
      {
        assert options[..i + 1][..i] == options[..i];
        var id := idOf(options[i].value);
        if id.Some? {
          result := result[options[i].text := id.value];
        }
        i := i + 1;
      }
      assert options[..|options|] == options;
    }

    /** `self.mapping`: built on the first access, then served from the cache. */
    method Mapping() returns (m: map<string, int>)
      requires Valid()
      modifies this
      ensures Valid() && m == shortcuts && cache == Some(m) && log == old(log)
    {
      if cache.None? {
        var built := BuildMapping();
        cache := Some(built);
      }
      m := cache.value;
    }

    /** `add(menu, alias)`; `alias` is `NoneV` when not given. */
    method Add(menu: string, alias: Value) returns (raised: Option<Exc>)
      requires Valid()
      modifies this
      ensures Valid() && cache == Some(shortcuts)
      ensures log == old(log) + AddRun(shortcuts, menu, alias).done
      ensures raised == AddRun(shortcuts, menu, alias).raised
    {
      var m := Mapping();
      if menu !in m {
        return Some(NameError("Unknown menu location {}!", Str(menu)));
      }
      log := log + [SelectShortcut(IntToString(m[menu]))];
      if alias != NoneV {
        log := log + [SetShortcutText(m[menu], alias)];
      }
      return None;
    }

    /**
     * One round of `AddAll`'s loop: add the `i`-th item. `total` is the
     * whole fill, `done` what it did before the `i`-th item, and `before`
     * the log when the fill began.
     */
    method AddItem(items: seq<(string, Value)>, i: nat, ghost total: Run, ghost before: seq<Action>, ghost done: seq<Action>)
      returns (raised: Option<Exc>, ghost done': seq<Action>)
      requires Valid() && i < |items| && log == before + done
      requires total == Then(done, AddAllRun(shortcuts, items[i..]))
      modifies this
      ensures Valid() && log == before + done'
      ensures done' == done + AddRun(shortcuts, items[i].0, items[i].1).done
      ensures raised.Some? ==> total == Run(done', raised)
      ensures raised.None? ==> total == Then(done', AddAllRun(shortcuts, items[i + 1..]))
    {
      raised := Add(items[i].0, items[i].1);
      ghost var step := AddRun(shortcuts, items[i].0, items[i].1);
      AddAllRunStep(shortcuts, items, i);
      ThenThen(done, step.done, AddAllRun(shortcuts, items[i + 1..]));
      done' := done + step.done;
      assert before + done + step.done == before + done';
    }

    /** Adds each item in turn, stopping at the first one that raises. */
    method AddAll(items: seq<(string, Value)>) returns (raised: Option<Exc>)
      requires Valid()
      modifies this
      ensures Valid()
      ensures log == old(log) + AddAllRun(shortcuts, items).done
      ensures raised == AddAllRun(shortcuts, items).raised
    {
      ghost var total := AddAllRun(shortcuts, items);
      ghost var before := log;
      ghost var done: seq<Action> := [];
      var i := 0;
      assert items[0..] == items;
      assert log == before + done;
      while i < |items|
        invariant 0 <= i <= |items| && Valid()
        invariant log == before + done
        invariant total == Then(done, AddAllRun(shortcuts, items[i..]))
      {
        raised, done := AddItem(items, i, total, before, done);
        if raised.Some? {
          return;
        }
        i := i + 1;
      }
      assert done + [] == done;
      raised := None;
    }

    /** `_fill_ms_map`: clear, then add each menu with its alias. */
    method FillMap(d: seq<(string, Value)>) returns (raised: Option<Exc>)
      requires Valid()
      modifies this
      ensures Valid()
      ensures log == old(log) + [ClearShortcuts] + AddAllRun(shortcuts, d).done
      ensures raised == AddAllRun(shortcuts, d).raised
    {
      log := log + [ClearShortcuts];
      raised := AddAll(d);
    }

    /** `_fill_ms_seq`: clear, then add each menu without an alias. */
    method FillSeq(menus: seq<string>) returns (raised: Option<Exc>)
      requires Valid()
      modifies this
      ensures Valid()
      ensures log == old(log) + [ClearShortcuts] + AddAllRun(shortcuts, WithoutAlias(menus)).done
      ensures raised == AddAllRun(shortcuts, WithoutAlias(menus)).raised
    {
      log := log + [ClearShortcuts];
      raised := AddAll(WithoutAlias(menus));
    }

    /** `_fill_ms_str`: the same as filling with the one-element list `[s]`. */
    method FillStr(s: string) returns (raised: Option<Exc>)
      requires Valid()
      modifies this
      ensures Valid()
      ensures log == old(log) + [ClearShortcuts] + AddAllRun(shortcuts, WithoutAlias([s])).done
      ensures raised == AddAllRun(shortcuts, WithoutAlias([s])).raised
    {
      raised := FillSeq([s]);
    }
  }

  /**
   * Filling the menu shortcuts with one string adds that one menu: on
   * success the log gains exactly the clear and the selection of its option.
   */
  lemma SingleMenuFill(options: seq<MenuOption>, s: string)
    ensures AddAllRun(MappingOf(options), WithoutAlias([s])).raised.None? <==> s in MappingOf(options)
    ensures s in MappingOf(options) ==>
      AddAllRun(MappingOf(options), WithoutAlias([s])).done == [SelectShortcut(IntToString(MappingOf(options)[s]))]
  {
    var items := WithoutAlias([s]);
    assert items == [(s, NoneV)] && items[1..] == [];
  }

  // ---------------------------------------------------------------- DashboardWidgetSelector

  /** `_fill_dws_seq`: clear the selected widgets, then select the listed ones. */
  function DwsSeqActions(items: seq<Value>): seq<Action> {
    [ClearWidgets, SelectWidgets(items)]
  }

  /** `_fill_dws_str`: forwards to the sequence fill with `[s]`. */
  function DwsStrActions(s: string): seq<Action> {
    DwsSeqActions([Str(s)])
  }

  /** No widget is listed twice. */
  predicate NoRepeats(xs: seq<Value>) {
    forall i, j :: 0 <= i < j < |xs| ==> xs[i] != xs[j]
  }

  /**
   * `DashboardWidgetSelector.select`: each item not yet among the selected
   * widgets is picked from the combo and joins the end of the list.
   */
  function SelectInto(selected: seq<Value>, items: seq<Value>): (r: seq<Value>)
    ensures forall x :: x in r <==> x in selected || x in items
    ensures |selected| <= |r| && r[..|selected|] == selected
    decreases |items|
  {
    if |items| == 0 then selected
    else
      var next := if items[0] in selected then selected else selected + [items[0]];
      var r := SelectInto(next, items[1..]);
      assert forall x :: x in items ==> x == items[0] || x in items[1..];
      assert r[..|selected|] == r[..|next|][..|selected|];
      r
  }

  /** `select` adds no widget twice. */
  lemma {:induction false} SelectIntoNoRepeats(selected: seq<Value>, items: seq<Value>)
    requires NoRepeats(selected)
    ensures NoRepeats(SelectInto(selected, items))
    decreases |items|
  {
    if |items| > 0 {
      var next := if items[0] in selected then selected else selected + [items[0]];
      assert NoRepeats(next) by {
        if items[0] !in selected {
          assert forall i :: 0 <= i < |selected| ==> next[i] == selected[i];
        }
      }
      SelectIntoNoRepeats(next, items[1..]);
    }
  }

  /** The selected widgets after one action; `clear` deselects every selected widget. */
  function WidgetsAfterAction(selected: seq<Value>, a: Action): seq<Value> {
    match a
    case ClearWidgets => []
    case SelectWidgets(items) => SelectInto(selected, items)
    case _ => selected
  }

  /** The selected widgets after a sequence of actions. */
  function WidgetsAfter(selected: seq<Value>, actions: seq<Action>): seq<Value>
    decreases |actions|
  {
    if |actions| == 0 then selected else WidgetsAfter(WidgetsAfterAction(selected, actions[0]), actions[1..])
  }

  /**
   * Filling the selector with a sequence leaves exactly the listed widgets
   * selected, each once, in the order of their first mention, whatever was
   * selected before.
   */
  lemma DwsSeqSelects(before: seq<Value>, items: seq<Value>)
    ensures var r := WidgetsAfter(before, DwsSeqActions(items));
      && (forall x :: x in r <==> x in items)
      && NoRepeats(r)
      && (|items| > 0 ==> |r| > 0 && r[0] == items[0])
  {
    var acts := DwsSeqActions(items);
    SelectIntoNoRepeats([], items);
    assert acts[1..] == [SelectWidgets(items)] && acts[1..][1..] == [];
    calc {
      WidgetsAfter(before, acts);
      WidgetsAfter([], acts[1..]);
      WidgetsAfter(SelectInto([], items), []);
    }
    if |items| > 0 {
      var r := SelectInto([items[0]], items[1..]);
      assert items[0] !in [];
      assert [] + [items[0]] == [items[0]];
      assert SelectInto([], items) == r;
      assert r[..1] == [items[0]];
    }
  }

  /** Filling the selector with a string leaves that one widget selected. */
  lemma DwsStrSelects(before: seq<Value>, s: string)
    ensures WidgetsAfter(before, DwsStrActions(s)) == [Str(s)]
  {
    var acts := DwsStrActions(s);
    assert acts[1..] == [SelectWidgets([Str(s)])] && acts[1..][1..] == [];
    assert Str(s) !in [] && [] + [Str(s)] == [Str(s)];
    calc {
      WidgetsAfter(before, acts);
      WidgetsAfter([], acts[1..]);
      SelectInto([], [Str(s)]);
      SelectInto([Str(s)], []);
    }
  }
}
