/** The selection-driven row decoder (src/row.rs).

    The `from_row!` macro generates the same `forward` and `from_row` for every scalar type
    (dates, strings, integers of each width, floats, booleans); they differ only in the
    driver's conversion from a column value to the target type. This module states them once,
    generic in the target type `V`, with the conversion as a parameter. */
module RowDecoder {
  import opened Wrappers
  import opened Errors
  import opened Driver

  /** The crate's newtype around the driver's row; it is only ever read. */
  datatype Row = Row(columns: DriverRow)

  /** The driver's conversion of one non-NULL column value into the target type. */
  type Conversion<!V> = Value -> Result<V, FromValueError>

  /** The `&mut I` iterator over selection flags, one flag per declared field;
      a flag is true when the field is selected (`Select::is_selected`). */
  class SelectIter {
    const flags: seq<bool>
    var pos: nat

    ghost predicate Valid()
      reads this
    {
      pos <= |flags|
    }

    constructor (flags: seq<bool>)
      ensures Valid() && this.flags == flags && pos == 0
    {
      this.flags := flags;
      pos := 0;
    }

    /** `Iterator::next`: the next flag, or `None` (and no movement) once exhausted. */
    method Next() returns (s: Option<bool>)
      requires Valid()
      modifies this`pos
      ensures Valid()
      ensures old(pos) < |flags| ==> s == Some(flags[old(pos)]) && pos == old(pos) + 1
      ensures old(pos) == |flags| ==> s == None && pos == old(pos)
    {
      if pos < |flags| {
        s := Some(flags[pos]);
        pos := pos + 1;
      } else {
        s := None;
      }
    }
  }

  /** Where the selection iterator stands after one call to `next`. */
  function Advanced(flags: seq<bool>, pos: nat): nat {
    if pos < |flags| then pos + 1 else pos
  }

  /** The number of selected flags in `s`. */
  function CountSelected(s: seq<bool>): nat {
    if s == [] then 0 else (if s[0] then 1 else 0) + CountSelected(s[1..])
  }

  /** What `forward` returns when the iterator stands at `pos`: the number of columns the
      field occupies in the row (one if selected, none if not), or `StreamEnd` when there is
      no flag left. */
  function ForwardCount(flags: seq<bool>, pos: nat): (r: Result<nat, ToqlMySqlAsyncError>)
    ensures r.Ok? <==> pos < |flags|
    ensures r.Err? ==> r.error == StreamEndError
    ensures r.Ok? ==> r.value == CountSelected(flags[pos..pos + 1])
  {
    if pos < |flags| then
      assert flags[pos..pos + 1][1..] == [];
      Ok(if flags[pos] then 1 else 0)
    else
      Err(StreamEndError)
  }

  /** The driver's `Row::get_opt::<Option<V>>(i)`: `None` when the index is past the end of the
      row, otherwise the converted column, with SQL NULL converted to `None`. */
  function GetOpt<V>(row: Row, i: nat, conv: Conversion<V>): Option<Result<Option<V>, FromValueError>> {
    if i >= |row.columns| then None
    else match row.columns[i]
      case None => Some(Ok(None))
      case Some(raw) =>
        match conv(raw)
        case Ok(v) => Some(Ok(Some(v)))
        case Err(e) => Some(Err(e))
  }

  /** What `from_row` returns, paired with the column cursor it leaves behind, when called with
      the cursor at `i` and the selection iterator at `pos`. */
  function Decode<V>(row: Row, i: nat, flags: seq<bool>, pos: nat, conv: Conversion<V>)
    : (out: (Result<Option<V>, ToqlMySqlAsyncError>, nat))
    // A failure leaves the cursor where it was; a success moves it by what `forward` counts.
    ensures out.0.Err? ==> out.1 == i
    ensures out.0.Ok? ==> ForwardCount(flags, pos).Ok? && out.1 == i + ForwardCount(flags, pos).value
    // StreamEnd: no flag left, or a selected column past the end of the row (never read as NULL).
    ensures out.0 == Err(StreamEndError) <==> pos >= |flags| || (flags[pos] && i >= |row.columns|)
    // A conversion failure is reported as the driver's conversion error.
    ensures (out.0.Err? && out.0.error.FromValueError?) <==>
              (pos < |flags| && flags[pos] && i < |row.columns| && row.columns[i].Some?
               && conv(row.columns[i].value).Err?)
    ensures (out.0.Err? && out.0.error.FromValueError?) ==>
              out.0.error.conversion == conv(row.columns[i].value).error
    // No value: the field is unselected, or selected and NULL.
    ensures out.0 == Ok(None) <==>
              pos < |flags| && (!flags[pos] || (i < |row.columns| && row.columns[i].None?))
    // A value: the field is selected and its column converts to it.
    ensures (out.0.Ok? && out.0.value.Some?) ==>
              pos < |flags| && flags[pos] && i < |row.columns| && row.columns[i].Some?
              && conv(row.columns[i].value) == Ok(out.0.value.value)
    ensures (pos < |flags| && flags[pos] && i < |row.columns| && row.columns[i].Some?
             && conv(row.columns[i].value).Ok?) ==>
              out == (Ok(Some(conv(row.columns[i].value).value)), i + 1)
    // No other error is possible.
    ensures out.0.Err? ==> out.0.error == StreamEndError || out.0.error.FromValueError?
  {
    if pos >= |flags| then (Err(StreamEndError), i)
    else if !flags[pos] then (Ok(None), i)
    else match GetOpt(row, i, conv)
      case None => (Err(StreamEndError), i)
      case Some(Err(e)) => (Err(FromConversion(e)), i)
      case Some(Ok(v)) => (Ok(v), i + 1)
  }

  /** `forward`: consumes exactly one selection flag and never reads the row. */
  method Forward(iter: SelectIter) returns (r: Result<nat, ToqlMySqlAsyncError>)
    requires iter.Valid()
    modifies iter
    ensures iter.Valid() && iter.pos == Advanced(iter.flags, old(iter.pos))
    ensures r == ForwardCount(iter.flags, old(iter.pos))
  {
    var s := iter.Next();
    match s
    case None =>
      r := Err(StreamEndError);
    case Some(selected) =>
      r := Ok(if selected then 1 else 0);
  }

  /** `from_row`: consumes exactly one selection flag whatever the outcome; reads the column at
      the cursor only when the flag is selected, and moves the cursor only when that read and
      its conversion succeed. */
  method FromRow<V>(row: Row, i: nat, iter: SelectIter, conv: Conversion<V>)
    returns (r: Result<Option<V>, ToqlMySqlAsyncError>, i': nat)
    requires iter.Valid()
    modifies iter
    ensures iter.Valid() && iter.pos == Advanced(iter.flags, old(iter.pos))
    ensures (r, i') == Decode(row, i, iter.flags, old(iter.pos), conv)
  {
    i' := i;
    var s := iter.Next();
    if s.None? {
      r := Err(StreamEndError);
      return;
    }
    if !s.value {
      r := Ok(None);
      return;
    }
    var v := GetOpt(row, i, conv);
    if v.None? {
      r := Err(StreamEndError);
      return;
    }
    if v.value.Err? {
      r := Err(FromConversion(v.value.error));
      return;
    }
    i' := i + 1;
    r := Ok(v.value.value);
  }

  /** Decoding consecutive scalar fields with `from_row`, field by field, as the code toql
      derives for an entity does, stopping at the first failure. Each field brings its own
      conversion (`convs[j]` for the j-th field), so fields of different types mix freely:
      `V` is whatever sum of the field types the caller picks. The result carries the decoded
      values, the column cursor and the position of the selection iterator. */
  function DecodeFields<V>(row: Row, i: nat, flags: seq<bool>, pos: nat, convs: seq<Conversion<V>>)
    : (Result<seq<Option<V>>, ToqlMySqlAsyncError>, nat, nat)
    decreases |convs|
  {
    if convs == [] then (Ok([]), i, pos)
    else
      var (r, i1) := Decode(row, i, flags, pos, convs[0]);
      if r.Err? then (Err(r.error), i1, Advanced(flags, pos))
      else
        var (rest, i2, p2) := DecodeFields(row, i1, flags, Advanced(flags, pos), convs[1..]);
        (if rest.Err? then Err(rest.error) else Ok([r.value] + rest.value), i2, p2)
  }

  /** The lockstep invariant: decoding the fields successfully consumes exactly one selection
      flag per field and moves the column cursor by the number of selected flags among them. */
  lemma {:induction false} DecodeFieldsAdvance<V>(row: Row, i: nat, flags: seq<bool>, pos: nat,
                                                  convs: seq<Conversion<V>>)
    requires pos <= |flags|
    requires DecodeFields(row, i, flags, pos, convs).0.Ok?
    decreases |convs|
    ensures pos + |convs| <= |flags|
    ensures DecodeFields(row, i, flags, pos, convs).2 == pos + |convs|
    ensures DecodeFields(row, i, flags, pos, convs).1 == i + CountSelected(flags[pos..pos + |convs|])
    ensures |DecodeFields(row, i, flags, pos, convs).0.value| == |convs|
  {
    if convs != [] {
      var k := |convs|;
      var (r, i1) := Decode(row, i, flags, pos, convs[0]);
      DecodeFieldsAdvance(row, i1, flags, pos + 1, convs[1..]);
      assert flags[pos..pos + k][1..] == flags[pos + 1..pos + k];
    }
  }

  /** A selection stream with fewer flags than the fields to decode always fails. */
  lemma {:induction false} ShortStreamFails<V>(row: Row, i: nat, flags: seq<bool>, pos: nat,
                                               convs: seq<Conversion<V>>)
    requires pos <= |flags| < pos + |convs|
    decreases |convs|
    ensures DecodeFields(row, i, flags, pos, convs).0.Err?
  {
    var (r, i1) := Decode(row, i, flags, pos, convs[0]);
    if r.Ok? {
      ShortStreamFails(row, i1, flags, pos + 1, convs[1..]);
    }
  }

  /** The column a value (or NULL) is stored as, given the inverse of the conversion. */
  function EncodeColumn<V>(v: Option<V>, enc: V -> Value): Option<Value> {
    match v
    case None => None
    case Some(x) => Some(enc(x))
  }

  /** Round trip: when every field is selected and the row holds the values, each stored by an
      encoder that its own field's conversion reads back for that value, decoding gives back
      exactly those values, using one column and one flag per field. Nothing is demanded of the
      conversions on values that are not stored, so fields of different types and range-checked
      conversions are covered. */
  lemma {:induction false} AllSelectedRoundTrip<V>(vs: seq<Option<V>>, encs: seq<V -> Value>,
                                                   convs: seq<Conversion<V>>,
                                                   row: Row, i: nat, flags: seq<bool>, pos: nat)
    requires |encs| == |vs| && |convs| == |vs|
    requires forall j :: 0 <= j < |vs| && vs[j].Some? ==> convs[j](encs[j](vs[j].value)) == Ok(vs[j].value)
    decreases |vs|
    requires i + |vs| <= |row.columns| && pos + |vs| <= |flags|
    requires forall j :: 0 <= j < |vs| ==> row.columns[i + j] == EncodeColumn(vs[j], encs[j])
    requires forall j :: pos <= j < pos + |vs| ==> flags[j]
    ensures DecodeFields(row, i, flags, pos, convs) == (Ok(vs), i + |vs|, pos + |vs|)
  {
    if vs != [] {
      assert row.columns[i + 0] == EncodeColumn(vs[0], encs[0]);
      var (r, i1) := Decode(row, i, flags, pos, convs[0]);
      assert r == Ok(vs[0]) && i1 == i + 1;
      forall j | 0 <= j < |vs[1..]|
        ensures row.columns[i + 1 + j] == EncodeColumn(vs[1..][j], encs[1..][j])
      {
        assert row.columns[i + (j + 1)] == EncodeColumn(vs[j + 1], encs[j + 1]);
      }
      forall j | 0 <= j < |vs[1..]| && vs[1..][j].Some?
        ensures convs[1..][j](encs[1..][j](vs[1..][j].value)) == Ok(vs[1..][j].value)
      {
        assert vs[1..][j] == vs[j + 1];
      }
      AllSelectedRoundTrip(vs[1..], encs[1..], convs[1..], row, i + 1, flags, pos + 1);
      assert [vs[0]] + vs[1..] == vs;
    }
  }
}
