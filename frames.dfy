/** A pandas DataFrame as a mutable object, for the places where the source
    changes a frame in place (`df[k] = v`, `df.columns = ...`,
    `df.drop(..., inplace=True)`). Its value at any time is a `Tables.Table`. */
module Frames {
  import opened Errors
  import opened JsonValues
  import opened Tables

  class Frame {
    var cols: seq<Column>
    var rows: seq<seq<Json>>

    function Value(): Table
      reads this
    {
      Table(cols, rows)
    }

    predicate Valid()
      reads this
    {
      Tables.Valid(Value())
    }

    constructor (t: Table)
      requires Tables.Valid(t)
      ensures Valid() && Value() == t
    {
      cols := t.cols;
      rows := t.rows;
    }

    /** `df[name] = v`. */
    method SetConst(name: string, v: Json)
      requires Valid()
      modifies this
      ensures Valid() && Value() == WithConst(old(Value()), name, v)
    {
      var t := WithConst(Value(), name, v);
      cols, rows := t.cols, t.rows;
    }

    /** `df.columns = df.columns.str.lower()`. */
    method LowerColumns()
      requires Valid()
      modifies this
      ensures Valid() && Value() == Lowered(old(Value()))
    {
      var t := Lowered(Value());
      cols := t.cols;
    }

    /** `df[name] = pd.to_datetime(df[name])` (kind Date) or
        `pd.to_numeric` (kind Numeric): a missing or repeated label raises
        and leaves the frame as it was. */
    method Coerce(name: string, kind: Kind) returns (r: Outcome)
      requires Valid()
      modifies this
      ensures Valid()
      ensures var c := Coerced(old(Value()), name, kind);
              && r == (if c.Ok? then Done else Raised(c.error))
              && Value() == if c.Ok? then c.value else old(Value())
    {
      var c := Coerced(Value(), name, kind);
      if c.Err? {
        return Raised(c.error);
      }
      cols := c.value.cols;
      r := Done;
    }

    /** `df.drop(name, axis=1, inplace=True)`: KeyError when no column has
        that label. */
    method Drop(name: string) returns (r: Outcome)
      requires Valid()
      modifies this
      ensures Valid()
      ensures r == if name in Names(old(Value())) then Done else Raised(KeyError(name))
      ensures Value() == if r.Done? then Tables.Drop(old(Value()), name) else old(Value())
    {
      if name !in Names(Value()) {
        return Raised(KeyError(name));
      }
      var t := Tables.Drop(Value(), name);
      cols, rows := t.cols, t.rows;
      r := Done;
    }
  }
}
