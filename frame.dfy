/** The data frame `ATTGoogleAPI` works on (google_api.py), reduced to what
    its methods look at: a frame is a sequence of records, a record maps a
    column name to a cell, and a cell is one of the Python values the code
    distinguishes with `isinstance` and `np.isnan`. Also the cell rule of
    `add_data_to_df` and the composition of `check_df`. */
module Frame {
  import opened PyText

  /** One cell. Numbers are integers; NaN and inf are constructors of their
      own, as the code tells them apart from other numbers. */
  datatype Cell =
    | NaN
    | Inf
    | Num(n: int)
    | Text(s: string)
    | Items(items: seq<Cell>)   // a Python list stored in the cell
    | Stamp(text: string)       // a datetime, carried by its printed form
    | NoneValue

  /** The two departure times of the travel-time columns. */
  datatype Time = Morning | Evening

  function TimeName(t: Time): string
  {
    match t
    case Morning => "morning"
    case Evening => "evening"
  }

  /** The columns the code reads and writes. */
  datatype Column =
    | ZillowId | ZillowPrice | ZillowZipcode | ZillowStatus
    | ZillowLatitude | ZillowLongitude
    | Street | City | State
    | Location | DateScraped
    | StartAddress | StartLocation | EndAddress | EndLocation
    | DriveDuration(time: Time)      // e.g. morning_drive_duration
    | TrafficDuration(time: Time)    // e.g. morning_drive_duration_with_traffic
    | TransitDuration(time: Time)    // e.g. morning_transit_duration

  /** The pandas name of a column; the duration names are built from the
      time's name, as `get_times` builds them. */
  function ColumnName(c: Column): string
  {
    match c
    case ZillowId => "zillow_id"
    case ZillowPrice => "zillow_price"
    case ZillowZipcode => "zillow_zipcode"
    case ZillowStatus => "zillow_status"
    case ZillowLatitude => "zillow_latitude"
    case ZillowLongitude => "zillow_longitude"
    case Street => "zillow_addressStreet"
    case City => "zillow_addressCity"
    case State => "zillow_addressState"
    case Location => "location"
    case DateScraped => "date_scraped"
    case StartAddress => "google_start_address"
    case StartLocation => "google_start_location"
    case EndAddress => "google_end_address"
    case EndLocation => "google_end_location"
    case DriveDuration(t) => TimeName(t) + "_drive_duration"
    case TrafficDuration(t) => TimeName(t) + "_drive_duration_with_traffic"
    case TransitDuration(t) => TimeName(t) + "_transit_duration"
  }

  /** One row of the frame. A column the row does not mention holds NaN, as a
      missing value does in pandas. */
  type Record = map<Column, Cell>

  function Get(r: Record, column: Column): Cell
  {
    if column in r then r[column] else NaN
  }

  /** `isinstance(x, (int, float))`: NaN and inf are floats. */
  predicate IsNumber(c: Cell)
  {
    c.NaN? || c.Inf? || c.Num?
  }

  // ---------------------------------------------------------------------------
  // add_data_to_df, on one cell

  /** The new value of a cell after `add_data_to_df` stores `data` in it. */
  function AddData(cell: Cell, data: Cell): (r: Cell)
    ensures IsNumber(cell) ==> r == data
    ensures cell.Items? || cell.Text? ==> r.Items? && Observations(r) == Observations(cell) + [data]
    ensures cell.Stamp? || cell.NoneValue? ==> r == cell
  {
    match cell
    case Items(xs) => Items(xs + [data])
    case Text(_) => Items([cell, data])
    case Stamp(_) => cell
    case NoneValue => cell
    case _ => data
  }

  /** The rule of `add_data_to_df`: a list grows by `data`, a number (NaN and
      inf included) is replaced, a string becomes the list of the old string
      and `data`, and any other value is left alone. */
  lemma AddDataRule(cell: Cell, data: Cell)
    ensures var c := AddData(cell, data);
            (cell.Items? ==> c.Items? && |c.items| == |cell.items| + 1 &&
                             c.items[..|cell.items|] == cell.items && c.items[|cell.items|] == data) &&
            (IsNumber(cell) ==> c == data) &&
            (cell.Text? ==> c.Items? && c.items == [cell, data]) &&
            (!cell.Items? && !IsNumber(cell) && !cell.Text? ==> c == cell)
  {
  }

  /** The number case of the rule on its own. */
  lemma AddDataToNumber(cell: Cell, data: Cell)
    requires IsNumber(cell)
    ensures AddData(cell, data) == data
  {
  }

  /** The values a cell has collected when it is used as a bucket of a hash
      table: a list holds its items, NaN holds nothing, and any other value is
      a single observation. */
  function Observations(c: Cell): seq<Cell>
  {
    match c
    case Items(xs) => xs
    case NaN => []
    case _ => [c]
  }

  /** Storing a sequence of values in one cell, one `add_data_to_df` call after
      another. */
  function AddAll(cell: Cell, data: seq<Cell>): Cell
    decreases |data|
  {
    if data == [] then cell else AddAll(AddData(cell, data[0]), data[1..])
  }

  /** Once a cell holds a string or a list, every value stored in it is kept,
      in order. */
  lemma {:induction false} AddAllCollects(cell: Cell, data: seq<Cell>)
    requires cell.Text? || cell.Items?
    ensures Observations(AddAll(cell, data)) == Observations(cell) + data
    decreases |data|
  {
    if data != [] {
      var next := AddData(cell, data[0]);
      assert Observations(next) == Observations(cell) + [data[0]];
      AddAllCollects(next, data[1..]);
      assert [data[0]] + data[1..] == data;
    }
  }

  /** A NaN cell that first receives a string keeps everything it is given:
      this is how the `google_*` columns gather one entry per lookup. */
  lemma AddAllFromNaN(data: seq<Cell>)
    requires data != [] && data[0].Text?
    ensures Observations(AddAll(NaN, data)) == data
  {
    AddAllCollects(data[0], data[1..]);
    assert [data[0]] + data[1..] == data;
  }

  /** A number cell keeps only the last value stored when every value stored
      is a number: the duration columns hold one value, not a history. */
  lemma {:induction false} AddAllNumbers(cell: Cell, data: seq<Cell>)
    requires IsNumber(cell)
    requires forall i :: 0 <= i < |data| ==> IsNumber(data[i])
    ensures AddAll(cell, data) == if data == [] then cell else data[|data| - 1]
    decreases |data|
  {
    if data != [] {
      AddAllNumbers(data[0], data[1..]);
    }
  }

  // ---------------------------------------------------------------------------
  // check_df

  predicate IdCheck(df: seq<Record>)
  {
    forall i :: 0 <= i < |df| ==> Get(df[i], ZillowId).Num?
  }

  predicate PriceCheck(df: seq<Record>)
  {
    forall i :: 0 <= i < |df| ==> Get(df[i], ZillowPrice).Num?
  }

  /** Computed by `check_df` but not part of its answer. */
  predicate ZipCheck(df: seq<Record>)
  {
    forall i :: 0 <= i < |df| ==> Get(df[i], ZillowZipcode).Num?
  }

  predicate LocationCheck(df: seq<Record>)
  {
    forall i :: 0 <= i < |df| ==> Get(df[i], Location).Text?
  }

  predicate DateCheck(df: seq<Record>)
  {
    forall i :: 0 <= i < |df| ==> Get(df[i], DateScraped).Stamp?
  }

  /** The four checks of `check_df` on one row. */
  predicate CheckedRow(r: Record)
  {
    Get(r, ZillowId).Num? && Get(r, ZillowPrice).Num? && Get(r, Location).Text? && Get(r, DateScraped).Stamp?
  }

  /** `check_df`: whether the frame looks processed. Each check is `.all()` of
      a column, so the frame passes exactly when every row passes all four,
      and an empty frame passes. */
  predicate CheckDf(df: seq<Record>): (b: bool)
    ensures b <==> forall i :: 0 <= i < |df| ==> CheckedRow(df[i])
    ensures df == [] ==> b
  {
    IdCheck(df) && PriceCheck(df) && LocationCheck(df) && DateCheck(df)
  }

  /** Two frames that differ at most in the zipcode column get the same
      answer from `check_df`. */
  lemma CheckDfIgnoresZipcode(df: seq<Record>, other: seq<Record>)
    requires |df| == |other|
    requires forall i, c :: 0 <= i < |df| && c != ZillowZipcode ==> Get(df[i], c) == Get(other[i], c)
    ensures CheckDf(df) == CheckDf(other)
  {
  }

  // ---------------------------------------------------------------------------
  // str() of a cell

  /** Python 2's `str()` of a cell value. */
  function CellStr(c: Cell): (r: string)
    ensures c.Num? ==> ParseInt(r) == Some(c.n)
    ensures c.Text? ==> r == c.s
    ensures c.Items? ==> |r| >= 2 && r[0] == '[' && r[|r| - 1] == ']'
    decreases c, 1
  {
    match c
    case NaN => "nan"
    case Inf => "inf"
    case Num(n) => ParseIntToString(n); IntToString(n)
    case Text(s) => s
    case Items(xs) => "[" + ItemsRepr(xs) + "]"
    case Stamp(t) => t
    case NoneValue => "None"
  }

  /** The items of a list as `str()` of the list prints them: strings quoted,
      separated by a comma and a space. */
  function ItemsRepr(xs: seq<Cell>): string
    decreases xs, 0
  {
    if xs == [] then ""
    else
      var head := if xs[0].Text? then "'" + xs[0].s + "'" else CellStr(xs[0]);
      if |xs| == 1 then head else head + ", " + ItemsRepr(xs[1..])
  }
}
