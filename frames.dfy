/** A one-row pandas DataFrame, as the admission script uses it: an ordered
    list of distinct column labels and, for each label, the single cell of
    that column. `Table` is the value; `Frame` is the object the script
    mutates column by column. */
module Frames {
  import Decimal

  /** A cell. `Missing` is NumPy's NaN; `Float` stands for a Python float,
      whose arithmetic this model never performs. */
  datatype Value = Text(s: string) | Int(i: int) | Float(x: real) | Missing

  /** The exceptions a request can end with. */
  datatype Error =
    | MissingColumn(column: string)                   // KeyError from selecting an absent column
    | MissingEncoder(column: string)                  // KeyError from the label-encoder dictionary
    | UnknownCategory(column: string, message: string) // a label encoder rejected the value
    | TransformFailed(message: string)                // a scaler or the one-hot encoder raised
    | ShapeMismatch(expected: nat, actual: nat)       // an array of the wrong width for its columns
    | DuplicateColumns(columns: seq<string>)          // concatenation produced a repeated column label

  datatype Result<+T> = Ok(value: T) | Err(error: Error) {
    predicate IsFailure() {
      Err?
    }

    function PropagateFailure<U>(): Result<U>
      requires Err?
    {
      Err(error)
    }

    function Extract(): T
      requires Ok?
    {
      value
    }
  }

  /** `Value.astype(str)`: every cell becomes text; integers through Python's
      `str`, NaN as "nan", floats through the given formatter. */
  function AsText(v: Value, showFloat: real -> string): (r: Value)
    ensures r.Text?
    ensures v.Text? ==> r == v
    ensures v.Int? ==> Decimal.IsIntText(r.s) && Decimal.ParseInt(r.s) == v.i
    ensures v.Missing? ==> r.s == "nan"
  {
    match v
    case Text(s) => v
    case Int(i) =>
      Decimal.IntTextRoundTrip(i);
      Text(Decimal.IntText(i))
    case Float(x) => Text(showFloat(x))
    case Missing => Text("nan")
  }

  predicate Distinct(names: seq<string>) {
    forall i, j :: 0 <= i < j < |names| ==> names[i] != names[j]
  }

  datatype Table = Table(columns: seq<string>, cells: map<string, Value>) {

    /** Column labels are unique and each one has exactly one cell. */
    predicate Valid() {
      Distinct(columns) && (forall c :: c in cells ==> c in columns) && (forall c :: c in columns ==> c in cells)
    }

    /** `df[cols]`: the cells of `cols`, in that order, or a KeyError naming
        the first absent label. */
    function Select(cols: seq<string>): (r: Result<seq<Value>>)
      ensures r.Ok? <==> forall c :: c in cols ==> c in cells
      ensures r.Ok? ==> |r.value| == |cols| && forall i :: 0 <= i < |cols| ==> r.value[i] == cells[cols[i]]
      ensures r.Err? ==> r.error.MissingColumn? && r.error.column in cols && r.error.column !in cells
      decreases |cols|
    {
      if cols == [] then Ok([])
      else if cols[0] !in cells then Err(MissingColumn(cols[0]))
      else
        match Select(cols[1..])
        case Err(e) => Err(e)
        case Ok(rest) => Ok([cells[cols[0]]] + rest)
    }

    /** `df[col] = v`: an existing column keeps its position and takes the new
        value; a new column is appended at the end. */
    function With(col: string, v: Value): (r: Table)
      ensures col in r.cells && r.cells[col] == v
      ensures forall c :: c != col ==> (c in r.cells <==> c in cells)
      ensures forall c :: c in cells && c != col ==> r.cells[c] == cells[c]
      ensures columns <= r.columns
      ensures col in columns ==> r.columns == columns
      ensures col !in columns ==> r.columns == columns + [col]
      ensures Valid() ==> r.Valid()
    {
      Table(if col in columns then columns else columns + [col], cells[col := v])
    }

    /** `df[cols] = row`: the columns are assigned left to right, so when a
        label repeats, its last value wins. */
    function WithAll(cols: seq<string>, vs: seq<Value>): (r: Table)
      requires |cols| == |vs|
      ensures forall c :: c in r.cells <==> c in cells || c in cols
      ensures forall c :: c in cells && c !in cols ==> r.cells[c] == cells[c]
      ensures columns <= r.columns
      ensures (forall c :: c in cols ==> c in columns) ==> r.columns == columns
      ensures Valid() ==> r.Valid()
      decreases |cols|
    {
      if cols == [] then this
      else
        var r := With(cols[0], vs[0]).WithAll(cols[1..], vs[1..]);
        assert forall c :: c in cols <==> c == cols[0] || c in cols[1..];
        r
    }
  }

  /** When a label occurs in `cols` for the last time at position `i`, the
      assignment leaves it holding `vs[i]`. */
  lemma {:induction false} WithAllLastWins(t: Table, cols: seq<string>, vs: seq<Value>, i: nat)
    requires |cols| == |vs| && i < |cols| && cols[i] !in cols[i + 1..]
    ensures cols[i] in t.WithAll(cols, vs).cells && t.WithAll(cols, vs).cells[cols[i]] == vs[i]
    decreases |cols|
  {
    var w := t.With(cols[0], vs[0]);
    assert t.WithAll(cols, vs) == w.WithAll(cols[1..], vs[1..]);
    if i > 0 {
      assert cols[1..][i - 1] == cols[i] && cols[1..][i..] == cols[i + 1..];
      WithAllLastWins(w, cols[1..], vs[1..], i - 1);
    }
  }

  /** The cells read so far put in front of the cells still to be read. */
  function Prepend(prefix: seq<Value>, rest: Result<seq<Value>>): (r: Result<seq<Value>>)
    ensures r.Ok? <==> rest.Ok?
    ensures r.Ok? ==> r.value == prefix + rest.value
    ensures rest.Err? ==> r == rest
    ensures prefix == [] ==> r == rest
  {
    match rest
    case Ok(vs) =>
      assert [] + vs == vs;
      Ok(prefix + vs)
    case Err(e) => Err(e)
  }

  /** Selecting from position `i` on reads the cell at `i`, then the rest. */
  lemma SelectStep(t: Table, cols: seq<string>, i: nat)
    requires i < |cols|
    ensures t.Select(cols[i..]) ==
              if cols[i] in t.cells then Prepend([t.cells[cols[i]]], t.Select(cols[i + 1..]))
              else Err(MissingColumn(cols[i]))
  {
    assert cols[i..][0] == cols[i] && cols[i..][1..] == cols[i + 1..];
  }

  /** Putting two prefixes in front one after the other is putting their
      concatenation in front. */
  lemma PrependTwice(a: seq<Value>, b: seq<Value>, rest: Result<seq<Value>>)
    ensures Prepend(a, Prepend(b, rest)) == Prepend(a + b, rest)
  {
    if rest.Ok? {
      assert a + (b + rest.value) == (a + b) + rest.value;
    }
  }

  /** The frame built from columns `names` holding `vals`, like
      `pd.DataFrame` over a single row. */
  function FromColumns(names: seq<string>, vals: seq<Value>): (t: Table)
    requires |names| == |vals| && Distinct(names)
    ensures t.Valid() && t.columns == names
    ensures forall i :: 0 <= i < |names| ==> t.cells[names[i]] == vals[i]
  {
    var cells := map i | 0 <= i < |names| :: names[i] := vals[i];
    assert forall i :: 0 <= i < |names| ==> names[i] in cells && cells[names[i]] == vals[i];
    Table(names, cells)
  }

  /** A single-row DataFrame that the script changes in place. */
  class Frame {
    var columns: seq<string>
    var cells: map<string, Value>

    function View(): Table
      reads this
    {
      Table(columns, cells)
    }

    ghost predicate Valid()
      reads this
    {
      View().Valid()
    }

    constructor (t: Table)
      requires t.Valid()
      ensures Valid() && View() == t
    {
      columns := t.columns;
      cells := t.cells;
    }

    /** `df[cols]`, reading the cells one label at a time. */
    method Select(cols: seq<string>) returns (r: Result<seq<Value>>)
      ensures r == View().Select(cols)
    {
      var t := View();
      var acc: seq<Value> := [];
      assert cols[0..] == cols;
      for i := 0 to |cols|
        invariant t.Select(cols) == Prepend(acc, t.Select(cols[i..]))
      {
        SelectStep(t, cols, i);
        if cols[i] !in cells {
          return Err(MissingColumn(cols[i]));
        }
        var v := cells[cols[i]];
        PrependTwice(acc, [v], t.Select(cols[i + 1..]));
        acc := acc + [v];
      }
      assert cols[|cols|..] == [] && acc + [] == acc;
      r := Ok(acc);
    }

    /** `df[col] = v`. */
    method Set(col: string, v: Value)
      requires Valid()
      modifies this
      ensures Valid() && View() == old(View()).With(col, v)
    {
      if col !in columns {
        columns := columns + [col];
      }
      cells := cells[col := v];
    }

    /** `df[cols] = row`, one column after the other. */
    method SetAll(cols: seq<string>, vs: seq<Value>)
      requires Valid() && |cols| == |vs|
      modifies this
      ensures Valid() && View() == old(View()).WithAll(cols, vs)
    {
      for i := 0 to |cols|
        invariant Valid()
        invariant View().WithAll(cols[i..], vs[i..]) == old(View()).WithAll(cols, vs)
      {
        assert cols[i..][1..] == cols[i + 1..] && vs[i..][1..] == vs[i + 1..];
        Set(cols[i], vs[i]);
      }
      assert cols[|cols|..] == [] && vs[|vs|..] == [];
    }
  }
}
