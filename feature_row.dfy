/**
 * The feature-row builder of the prediction form (app.py, lines 62-90): raw form
 * text for each configured column is stripped, then either marked missing, mapped
 * to a categorical code, or parsed as a number, and a row is built column by column.
 */
module FeatureRow {
  import opened Wrappers
  import opened Text

  /** A value stored in the row: `None`, an integer code, or a parsed float. */
  datatype Cell = Missing | Code(code: int) | Number(x: real)

  /** One categorical mapping: its (label, code) entries in declaration order. */
  type Mapping = seq<(string, int)>

  /** The model metadata the builder reads: the two column lists and the mappings by column. */
  datatype Config = Config(categorical: seq<string>, numeric: seq<string>, mappings: map<string, Mapping>)

  /** The submitted form fields by name. */
  type Form = map<string, string>

  /** `float(v)`, abstracted: `None` when it raises. */
  type NumberParser = string -> Option<real>

  /** The row dict, as its (column, value) entries in insertion order. */
  type Row = seq<(string, Cell)>

  /** The two ways resolving a column can raise. */
  datatype BuildError =
    | InvalidValue(column: string, input: string)  // no mapping label starts with the input
    | NotANumber(column: string, input: string)    // `float(v)` raised

  /** The columns in the order the builder visits them. */
  function Columns(cfg: Config): seq<string> {
    cfg.categorical + cfg.numeric
  }

  /** `form.get(col, "")` */
  function FormGet(form: Form, col: string): string {
    if col in form then form[col] else ""
  }

  predicate Distinct<T(==)>(s: seq<T>) {
    forall i, j :: 0 <= i < j < |s| ==> s[i] != s[j]
  }

  /** Whether the row dict already holds key `k`. */
  predicate HasKey(row: Row, k: string) {
    exists i :: 0 <= i < |row| && row[i].0 == k
  }

  /** `row[k] = c`: an existing key keeps its place and takes the new value, a new key is appended. */
  function Assign(row: Row, k: string, c: Cell): (r: Row)
    ensures !HasKey(row, k) ==> r == row + [(k, c)]
    ensures HasKey(row, k) ==> |r| == |row| && forall i :: 0 <= i < |row| ==> r[i].0 == row[i].0
    ensures HasKey(row, k) ==> forall i :: 0 <= i < |row| ==> r[i] == if row[i].0 == k then (k, c) else row[i]
  {
    if HasKey(row, k) then seq(|row|, i requires 0 <= i < |row| => if row[i].0 == k then (k, c) else row[i])
    else row + [(k, c)]
  }

  /** The index of the first element satisfying `p`, or |s| when there is none. */
  function FirstWhere<T>(s: seq<T>, p: T -> bool): (k: nat)
    ensures k <= |s|
    ensures forall j :: 0 <= j < k ==> !p(s[j])
    ensures k < |s| ==> p(s[k])
    decreases |s|
  {
    if s == [] then 0 else if p(s[0]) then 0 else 1 + FirstWhere(s[1..], p)
  }

  /** Whether a mapping entry's label, lower-cased, starts with the normalised input. */
  predicate LabelMatches(entry: (string, int), vNorm: string) {
    StartsWith(Lower(entry.0), vNorm)
  }

  /** The code of the first entry, in mapping order, whose label matches; `None` when none does. */
  function FirstMatch(mapping: Mapping, vNorm: string): Option<int> {
    var k := FirstWhere(mapping, e => LabelMatches(e, vNorm));
    if k < |mapping| then Some(mapping[k].1) else None
  }

  /** What the loop body does with one column's raw text: a cell, or the error it raises. */
  function Resolve(cfg: Config, col: string, raw: string, parse: NumberParser): Result<Cell, BuildError> {
    var v := Strip(raw);
    if v == [] then Ok(Missing)
    else if col in cfg.mappings then
      if IsDigits(v) then Ok(Code(DigitsValue(v)))
      else
        match FirstMatch(cfg.mappings[col], Lower(v))
        case Some(code) => Ok(Code(code))
        case None => Err(InvalidValue(col, v))
    else
      match parse(v)
      case Some(x) => Ok(Number(x))
      case None => Err(NotANumber(col, v))
  }

  /** How each column resolves for one submission. */
  type Resolver = string -> Result<Cell, BuildError>

  function ColumnResolver(cfg: Config, form: Form, parse: NumberParser): Resolver {
    col => Resolve(cfg, col, FormGet(form, col), parse)
  }

  /** The loop over `cols`, continuing from the partial row `row`; the first raise aborts it. */
  function BuildFrom(resolve: Resolver, cols: seq<string>, row: Row): Result<Row, BuildError>
    decreases |cols|
  {
    if cols == [] then Ok(row)
    else
      match resolve(cols[0])
      case Err(e) => Err(e)
      case Ok(cell) => BuildFrom(resolve, cols[1..], Assign(row, cols[0], cell))
  }

  /** The whole row build, starting from the empty dict. */
  function BuildRowSpec(cfg: Config, form: Form, parse: NumberParser): Result<Row, BuildError> {
    BuildFrom(ColumnResolver(cfg, form, parse), Columns(cfg), [])
  }

  /** The inner `for k, val in mapping.items()` loop with its `break` on the first match. */
  method FindMatch(mapping: Mapping, vNorm: string) returns (matched: Option<int>)
    ensures matched.None? <==> forall j :: 0 <= j < |mapping| ==> !LabelMatches(mapping[j], vNorm)
    ensures matched.Some? ==> exists j :: (0 <= j < |mapping| && LabelMatches(mapping[j], vNorm)
      && mapping[j].1 == matched.value && forall i :: 0 <= i < j ==> !LabelMatches(mapping[i], vNorm))
    ensures matched == FirstMatch(mapping, vNorm)
  {
    matched := None;
    for i := 0 to |mapping|
      invariant matched == None
      invariant forall j :: 0 <= j < i ==> !LabelMatches(mapping[j], vNorm)
    {
      var (k, val) := mapping[i];
      if StartsWith(Lower(k), vNorm) {
        matched := Some(val);
        assert LabelMatches(mapping[i], vNorm);
        ghost var f := FirstWhere(mapping, e => LabelMatches(e, vNorm));
        assert f == i;
        return;
      }
    }
  }

  /** The body of the row-building loop for one column (lines 66-86): the cell it stores, or what it raises. */
  method ResolveColumn(cfg: Config, form: Form, parse: NumberParser, col: string) returns (result: Result<Cell, BuildError>)
    ensures result == Resolve(cfg, col, FormGet(form, col), parse)
  {
    var v := Strip(FormGet(form, col));
    if v == "" {
      return Ok(Missing);
    }
    if col in cfg.mappings {
      var mapping := cfg.mappings[col];
      if IsDigits(v) {
        return Ok(Code(DigitsValue(v)));
      }
      var vNorm := Lower(v);
      var matched := FindMatch(mapping, vNorm);
      if matched.None? {
        return Err(InvalidValue(col, v));
      }
      return Ok(Code(matched.value));
    }
    var x := parse(v);
    if x.None? {
      return Err(NotANumber(col, v));
    }
    return Ok(Number(x.value));
  }

  /** One turn of the row-building loop: the column at `i` either aborts the build or extends the row. */
  lemma BuildFromStep(resolve: Resolver, cols: seq<string>, i: nat, row: Row, cell: Result<Cell, BuildError>)
    requires i < |cols| && resolve(cols[i]) == cell
    ensures cell.Err? ==> BuildFrom(resolve, cols[i..], row) == Err(cell.error)
    ensures cell.Ok? ==> BuildFrom(resolve, cols[i..], row) == BuildFrom(resolve, cols[i + 1..], Assign(row, cols[i], cell.value))
  {
    assert cols[i..][0] == cols[i] && cols[i..][1..] == cols[i + 1..];
  }

  /** The row-building loop of the handler: returns the row dict, or the first error raised. */
  method BuildRow(cfg: Config, form: Form, parse: NumberParser) returns (result: Result<Row, BuildError>)
    ensures result == BuildRowSpec(cfg, form, parse)
  {
    var cols := Columns(cfg);
    ghost var resolve := ColumnResolver(cfg, form, parse);
    var row: Row := [];
    for i := 0 to |cols|
      invariant BuildFrom(resolve, cols[i..], row) == BuildRowSpec(cfg, form, parse)
    {
      var col := cols[i];
      var cell := ResolveColumn(cfg, form, parse, col);
      BuildFromStep(resolve, cols, i, row, cell);
      if cell.Err? {
        return Err(cell.error);
      }
      row := Assign(row, col, cell.value);
    }
    assert cols[|cols|..] == [];
    return Ok(row);
  }

  // ---------------------------------------------------------------------------
  // The missing-column report (lines 88-89)

  /** `any(v is None for v in row.values())` */
  predicate AnyMissing(row: Row) {
    exists i :: 0 <= i < |row| && row[i].1 == Missing
  }

  /** `[k for k, v in row.items() if v is None]`: the keys whose value is missing, in row order. */
  function MissingColumns(row: Row): (r: seq<string>)
    ensures |r| <= |row|
    ensures r == [] <==> !AnyMissing(row)
  {
    if row == [] then []
    else
      var rest := MissingColumns(row[1..]);
      assert forall i :: 1 <= i < |row| ==> row[i] == row[1..][i - 1];
      (if row[0].1 == Missing then [row[0].0] else []) + rest
  }

  /** The elements of `s` satisfying `p`, in order. */
  function Where<T>(s: seq<T>, p: T -> bool): (r: seq<T>)
    ensures |r| <= |s|
    ensures forall i :: 0 <= i < |r| ==> p(r[i])
    decreases |s|
  {
    if s == [] then [] else (if p(s[0]) then [s[0]] else []) + Where(s[1..], p)
  }

  /** A filter drops nothing that passes its test. */
  lemma {:induction false} WhereKeepsPassing<T>(s: seq<T>, p: T -> bool)
    ensures forall i :: 0 <= i < |s| && p(s[i]) ==> s[i] in Where(s, p)
    decreases |s|
  {
    if s != [] {
      WhereKeepsPassing(s[1..], p);
      assert forall i :: 1 <= i < |s| ==> s[i] == s[1..][i - 1];
    }
  }

  /** The columns whose submitted text is blank after stripping, in the order given. */
  function BlankColumns(cols: seq<string>, form: Form): seq<string> {
    Where(cols, c => Strip(FormGet(form, c)) == [])
  }

  // ---------------------------------------------------------------------------
  // Properties of resolving one column

  /**
   * A blank input (only whitespace, or absent from the form) becomes `Missing`, and
   * only a blank input does; the number parser is never consulted for it.
   */
  lemma BlankIsMissing(cfg: Config, col: string, raw: string, parse: NumberParser, other: NumberParser)
    ensures Resolve(cfg, col, raw, parse) == Ok(Missing) <==> forall k :: 0 <= k < |raw| ==> IsSpace(raw[k])
    ensures (forall k :: 0 <= k < |raw| ==> IsSpace(raw[k])) ==> Resolve(cfg, col, raw, other) == Ok(Missing)
  {
    var v := Strip(raw);
    if v != [] {
      assert Resolve(cfg, col, raw, parse) != Ok(Missing) by {
        if col in cfg.mappings {
          if !IsDigits(v) {
            match FirstMatch(cfg.mappings[col], Lower(v))
            case Some(code) =>
            case None =>
          }
        } else {
          match parse(v)
          case Some(x) =>
          case None =>
        }
      }
    }
  }

  /**
   * On a mapped column any digit string, leading zeros included, is stored as its
   * decimal value, with no check against the codes of the mapping; whitespace
   * around it, on either side, is ignored.
   */
  lemma DigitsPassThrough(cfg: Config, col: string, pre: string, v: string, post: string, parse: NumberParser)
    requires col in cfg.mappings
    requires forall k :: 0 <= k < |pre| ==> IsSpace(pre[k])
    requires forall k :: 0 <= k < |post| ==> IsSpace(post[k])
    requires IsDigits(v)
    ensures Resolve(cfg, col, pre + v + post, parse) == Ok(Code(DigitsValue(v)))
  {
    StripAround(pre, v, post);
  }

  /** In particular the decimal text of any number `n` is stored as `n` itself. */
  lemma NumberPassThrough(cfg: Config, col: string, pre: string, n: nat, post: string, parse: NumberParser)
    requires col in cfg.mappings
    requires forall k :: 0 <= k < |pre| ==> IsSpace(pre[k])
    requires forall k :: 0 <= k < |post| ==> IsSpace(post[k])
    ensures Resolve(cfg, col, pre + ShowNat(n) + post, parse) == Ok(Code(n))
  {
    DigitsValueShowNat(n);
    DigitsPassThrough(cfg, col, pre, ShowNat(n), post, parse);
  }

  /** Stripping removes exactly the whitespace around a string that neither starts nor ends with whitespace. */
  lemma StripAround(pre: string, s: string, post: string)
    requires forall k :: 0 <= k < |pre| ==> IsSpace(pre[k])
    requires forall k :: 0 <= k < |post| ==> IsSpace(post[k])
    requires s != [] && !IsSpace(s[0]) && !IsSpace(s[|s| - 1])
    ensures Strip(pre + s + post) == s
  {
    assert pre + s + post == pre + (s + post);
    TrimStartAround(pre, s + post);
    TrimEndAround(s, post);
  }

  lemma TrimStartAround(pre: string, rest: string)
    requires forall k :: 0 <= k < |pre| ==> IsSpace(pre[k])
    requires rest != [] && !IsSpace(rest[0])
    ensures TrimStart(pre + rest) == rest
  {
    var raw := pre + rest;
    assert raw[|pre|] == rest[0];
    assert forall k :: 0 <= k < |pre| ==> raw[k] == pre[k];
    assert |raw| - |TrimStart(raw)| == |pre|;
    assert raw[|pre|..] == rest;
  }

  lemma TrimEndAround(rest: string, post: string)
    requires forall k :: 0 <= k < |post| ==> IsSpace(post[k])
    requires rest != [] && !IsSpace(rest[|rest| - 1])
    ensures TrimEnd(rest + post) == rest
  {
    var raw := rest + post;
    assert raw[|rest| - 1] == rest[|rest| - 1];
    assert forall k :: |rest| <= k < |raw| ==> raw[k] == post[k - |rest|];
    assert |TrimEnd(raw)| == |rest|;
    assert raw[..|rest|] == rest;
  }

  /**
   * On a mapped column, a non-numeric input resolves to the code of the FIRST label,
   * in mapping order, whose lower-cased text starts with the lower-cased input, and
   * fails with an invalid-value error naming the column exactly when no label does.
   */
  lemma MappedInputResolution(cfg: Config, col: string, raw: string, parse: NumberParser)
    requires col in cfg.mappings
    requires Strip(raw) != [] && !IsDigits(Strip(raw))
    ensures var m, v := cfg.mappings[col], Strip(raw);
      (Resolve(cfg, col, raw, parse) == Err(InvalidValue(col, v)))
        <==> forall j :: 0 <= j < |m| ==> !StartsWith(Lower(m[j].0), Lower(v))
    ensures var m, v := cfg.mappings[col], Strip(raw);
      forall j :: 0 <= j < |m| && StartsWith(Lower(m[j].0), Lower(v))
          && (forall i :: 0 <= i < j ==> !StartsWith(Lower(m[i].0), Lower(v)))
        ==> Resolve(cfg, col, raw, parse) == Ok(Code(m[j].1))
  {
    var m, v := cfg.mappings[col], Strip(raw);
    var k := FirstWhere(m, e => LabelMatches(e, Lower(v)));
    forall j | 0 <= j < |m| && StartsWith(Lower(m[j].0), Lower(v))
        && (forall i :: 0 <= i < j ==> !StartsWith(Lower(m[i].0), Lower(v)))
      ensures Resolve(cfg, col, raw, parse) == Ok(Code(m[j].1))
    {
      assert LabelMatches(m[j], Lower(v));
      assert k == j;
    }
    if k < |m| {
      assert LabelMatches(m[k], Lower(v));
    }
  }

  /** A non-numeric input on a mapped column takes the code of label `j` when `j` is the first label it matches. */
  lemma FirstMatchingLabelResolves(cfg: Config, col: string, raw: string, parse: NumberParser, j: nat)
    requires col in cfg.mappings
    requires Strip(raw) != [] && !IsDigits(Strip(raw))
    requires j < |cfg.mappings[col]| && LabelMatches(cfg.mappings[col][j], Lower(Strip(raw)))
    requires forall i :: 0 <= i < j ==> !LabelMatches(cfg.mappings[col][i], Lower(Strip(raw)))
    ensures Resolve(cfg, col, raw, parse) == Ok(Code(cfg.mappings[col][j].1))
  {
    var m, w := cfg.mappings[col], Lower(Strip(raw));
    assert FirstWhere(m, e => LabelMatches(e, w)) == j;
  }

  /** An input longer than every label of a mapped column can match none of them. */
  lemma LongerThanEveryLabelFails(cfg: Config, col: string, raw: string, parse: NumberParser)
    requires col in cfg.mappings
    requires Strip(raw) != [] && !IsDigits(Strip(raw))
    requires forall j :: 0 <= j < |cfg.mappings[col]| ==> |cfg.mappings[col][j].0| < |Strip(raw)|
    ensures Resolve(cfg, col, raw, parse) == Err(InvalidValue(col, Strip(raw)))
  {
    MappedInputResolution(cfg, col, raw, parse);
  }

  /**
   * On a mapped column, inputs that differ only in letter case either both fail or
   * resolve to the same code.
   */
  lemma CaseInsensitive(cfg: Config, col: string, a: string, b: string, parse: NumberParser)
    requires col in cfg.mappings
    requires Lower(a) == Lower(b)
    ensures Resolve(cfg, col, a, parse).Ok? <==> Resolve(cfg, col, b, parse).Ok?
    ensures Resolve(cfg, col, a, parse).Ok? ==> Resolve(cfg, col, a, parse) == Resolve(cfg, col, b, parse)
  {
    var va, vb := Strip(a), Strip(b);
    StripLower(a);
    StripLower(b);
    assert Lower(va) == Lower(vb);
    assert |va| == |Lower(va)| == |Lower(vb)| == |vb|;
    IsDigitsUpToCase(va, vb);
    if va != [] && !IsDigits(va) {
      var m := cfg.mappings[col];
      assert FirstMatch(m, Lower(va)) == FirstMatch(m, Lower(vb));
      match FirstMatch(m, Lower(va))
      case Some(code) =>
      case None =>
    }
  }

  /** A column without a mapping is parsed as a number; it fails exactly when the parser rejects its stripped text. */
  lemma UnmappedColumnIsParsed(cfg: Config, col: string, raw: string, parse: NumberParser)
    requires col !in cfg.mappings
    requires Strip(raw) != []
    ensures Resolve(cfg, col, raw, parse).Err? <==> parse(Strip(raw)).None?
    ensures Resolve(cfg, col, raw, parse).Err? ==> Resolve(cfg, col, raw, parse).error == NotANumber(col, Strip(raw))
    ensures parse(Strip(raw)).Some? ==> Resolve(cfg, col, raw, parse) == Ok(Number(parse(Strip(raw)).value))
  {
  }

  // ---------------------------------------------------------------------------
  // Properties of the whole build

  /**
   * The build fails exactly when some column fails, and then with the error of the
   * first failing column in column order, whatever the columns before it held
   * (blank ones included).
   */
  lemma {:induction false} BuildFromFailsAtFirstBadColumn(resolve: Resolver, cols: seq<string>, row: Row)
    ensures var k := FirstWhere(cols, c => resolve(c).Err?);
      && (BuildFrom(resolve, cols, row).Err? <==> k < |cols|)
      && (k < |cols| ==> BuildFrom(resolve, cols, row) == Err(resolve(cols[k]).error))
    decreases |cols|
  {
    if cols != [] && resolve(cols[0]).Ok? {
      BuildFromFailsAtFirstBadColumn(resolve, cols[1..], Assign(row, cols[0], resolve(cols[0]).value));
      var p := c => resolve(c).Err?;
      assert FirstWhere(cols, p) == 1 + FirstWhere(cols[1..], p);
    }
  }

  lemma BuildRowFailsAtFirstBadColumn(cfg: Config, form: Form, parse: NumberParser)
    ensures var cols, resolve := Columns(cfg), ColumnResolver(cfg, form, parse);
      var k := FirstWhere(cols, c => resolve(c).Err?);
      && (BuildRowSpec(cfg, form, parse).Err?
          <==> exists j :: 0 <= j < |cols| && Resolve(cfg, cols[j], FormGet(form, cols[j]), parse).Err?)
      && (k < |cols| ==> BuildRowSpec(cfg, form, parse) == Err(Resolve(cfg, cols[k], FormGet(form, cols[k]), parse).error))
  {
    var cols, resolve := Columns(cfg), ColumnResolver(cfg, form, parse);
    BuildFromFailsAtFirstBadColumn(resolve, cols, []);
    var k := FirstWhere(cols, c => resolve(c).Err?);
    if k < |cols| {
      assert resolve(cols[k]).Err?;
    }
  }

  /** The entries a successful build appends: each column with its resolved cell, in column order. */
  function Cells(resolve: Resolver, cols: seq<string>): (r: Row)
    requires forall i :: 0 <= i < |cols| ==> resolve(cols[i]).Ok?
    ensures |r| == |cols|
    ensures forall i :: 0 <= i < |cols| ==> (r[i].0 == cols[i] && Ok(r[i].1) == resolve(cols[i]))
    decreases |cols|
  {
    if cols == [] then []
    else [(cols[0], resolve(cols[0]).value)] + Cells(resolve, cols[1..])
  }

  /** Regrouping a concatenation; stated once so the build proof below need not search for it. */
  lemma AppendAssoc<T>(a: seq<T>, b: seq<T>, c: seq<T>)
    ensures (a + b) + c == a + (b + c)
  {
  }

  lemma {:induction false} BuildFromSucceeds(resolve: Resolver, cols: seq<string>, row: Row)
    requires forall i :: 0 <= i < |cols| ==> resolve(cols[i]).Ok?
    requires Distinct(cols)
    requires forall i :: 0 <= i < |cols| ==> !HasKey(row, cols[i])
    ensures BuildFrom(resolve, cols, row) == Ok(row + Cells(resolve, cols))
    decreases |cols|
  {
    if cols != [] {
      var cell := resolve(cols[0]).value;
      var row' := row + [(cols[0], cell)];
      assert Assign(row, cols[0], cell) == row';
      forall i | 0 <= i < |cols| - 1
        ensures !HasKey(row', cols[1..][i])
      {
        assert cols[1..][i] == cols[i + 1] != cols[0];
        assert !HasKey(row, cols[i + 1]);
      }
      BuildFromSucceeds(resolve, cols[1..], row');
      assert Cells(resolve, cols) == [(cols[0], cell)] + Cells(resolve, cols[1..]);
      AppendAssoc(row, [(cols[0], cell)], Cells(resolve, cols[1..]));
      assert BuildFrom(resolve, cols, row) == BuildFrom(resolve, cols[1..], row');
    } else {
      assert row + Cells(resolve, cols) == row;
    }
  }

  /** A successful build of distinct columns is the list of their cells. */
  lemma BuiltRowIsCells(cfg: Config, form: Form, parse: NumberParser, row: Row)
    requires Distinct(Columns(cfg))
    requires BuildRowSpec(cfg, form, parse) == Ok(row)
    ensures forall i :: 0 <= i < |Columns(cfg)| ==> ColumnResolver(cfg, form, parse)(Columns(cfg)[i]).Ok?
    ensures row == Cells(ColumnResolver(cfg, form, parse), Columns(cfg))
  {
    var cols, resolve := Columns(cfg), ColumnResolver(cfg, form, parse);
    BuildFromFailsAtFirstBadColumn(resolve, cols, []);
    var k := FirstWhere(cols, c => resolve(c).Err?);
    assert k == |cols|;
    BuildFromSucceeds(resolve, cols, []);
    assert [] + Cells(resolve, cols) == Cells(resolve, cols);
  }

  /**
   * With distinct columns, a built row holds exactly one entry per column, in column
   * order, each the resolution of that column's submitted text.
   */
  lemma BuiltRowFollowsColumns(cfg: Config, form: Form, parse: NumberParser, row: Row)
    requires Distinct(Columns(cfg))
    requires BuildRowSpec(cfg, form, parse) == Ok(row)
    ensures |row| == |Columns(cfg)|
    ensures forall i :: 0 <= i < |row| ==>
      (row[i].0 == Columns(cfg)[i] && Ok(row[i].1) == Resolve(cfg, row[i].0, FormGet(form, row[i].0), parse))
  {
    BuiltRowIsCells(cfg, form, parse, row);
  }

  lemma {:induction false} MissingOfCells(resolve: Resolver, cols: seq<string>, blank: string -> bool)
    requires forall i :: 0 <= i < |cols| ==> resolve(cols[i]).Ok?
    requires forall i :: 0 <= i < |cols| ==> (resolve(cols[i]) == Ok(Missing)) == blank(cols[i])
    ensures MissingColumns(Cells(resolve, cols)) == Where(cols, blank)
    decreases |cols|
  {
    if cols != [] {
      var r := Cells(resolve, cols);
      assert r[1..] == Cells(resolve, cols[1..]);
      MissingOfCells(resolve, cols[1..], blank);
    }
  }

  /** A column resolves to `Missing` exactly when its submitted text is blank. */
  lemma MissingMeansBlank(cfg: Config, form: Form, parse: NumberParser, cols: seq<string>)
    ensures forall i :: 0 <= i < |cols| ==>
      (ColumnResolver(cfg, form, parse)(cols[i]) == Ok(Missing)) == (Strip(FormGet(form, cols[i])) == [])
  {
    forall i | 0 <= i < |cols|
      ensures (ColumnResolver(cfg, form, parse)(cols[i]) == Ok(Missing)) == (Strip(FormGet(form, cols[i])) == [])
    {
      BlankIsMissing(cfg, cols[i], FormGet(form, cols[i]), parse, parse);
    }
  }

  /**
   * With distinct columns, the missing-column report of a built row lists every
   * column whose input was blank, in column order, and no other.
   */
  lemma MissingReportListsBlankColumns(cfg: Config, form: Form, parse: NumberParser, row: Row)
    requires Distinct(Columns(cfg))
    requires BuildRowSpec(cfg, form, parse) == Ok(row)
    ensures MissingColumns(row) == BlankColumns(Columns(cfg), form)
  {
    var cols, resolve := Columns(cfg), ColumnResolver(cfg, form, parse);
    BuiltRowIsCells(cfg, form, parse, row);
    MissingMeansBlank(cfg, form, parse, cols);
    MissingOfCells(resolve, cols, c => Strip(FormGet(form, c)) == []);
  }
}
