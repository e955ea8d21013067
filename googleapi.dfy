/** The stateful part of `ATTGoogleAPI` (google_api.py): the frame `df` the
    methods update in place, `add_data_to_df`, the clean-up of
    `process_data` and the budgeted lookup loop of `get_times`. */
module GoogleApi {
  import opened PyText
  import opened Frame
  import opened Travel

  // ---------------------------------------------------------------------------
  // process_data: the row filters

  /** The two row masks of `process_data`. */
  datatype Filter = ForSaleOrSold | HasAddress

  /** `ForSaleOrSold`: status ForSale or RecentlySold and a price other than
      the text '0'. `HasAddress`: street, city and state are strings. */
  predicate Passes(f: Filter, r: Record)
  {
    match f
    case ForSaleOrSold =>
      (Get(r, ZillowStatus) == Text("ForSale") || Get(r, ZillowStatus) == Text("RecentlySold")) &&
      Get(r, ZillowPrice) != Text("0")
    case HasAddress =>
      Get(r, Street).Text? && Get(r, City).Text? && Get(r, State).Text?
  }

  /** `df[mask]`: the rows that pass, in their order. */
  function Keep(rows: seq<Record>, f: Filter): (kept: seq<Record>)
    ensures |kept| <= |rows|
    ensures forall r :: r in kept <==> r in rows && Passes(f, r)
    decreases |rows|
  {
    if rows == [] then []
    else
      assert rows == [rows[0]] + rows[1..];
      if Passes(f, rows[0]) then [rows[0]] + Keep(rows[1..], f) else Keep(rows[1..], f)
  }

  /** A mask every row passes keeps the frame as it is. */
  lemma {:induction false} KeepAll(rows: seq<Record>, f: Filter)
    requires forall i :: 0 <= i < |rows| ==> Passes(f, rows[i])
    ensures Keep(rows, f) == rows
    decreases |rows|
  {
    if rows != [] {
      KeepAll(rows[1..], f);
      assert [rows[0]] + rows[1..] == rows;
    }
  }

  /** A one-row frame keeps its row exactly when the row passes. */
  lemma KeepOne(r: Record, f: Filter)
    ensures Keep([r], f) == if Passes(f, r) then [r] else []
  {
    assert [r][1..] == [];
  }

  /** A mask splits over concatenation: the passing rows of each part, in
      order and with repeats, one part after the other. */
  lemma {:induction false} KeepAppend(a: seq<Record>, b: seq<Record>, f: Filter)
    ensures Keep(a + b, f) == Keep(a, f) + Keep(b, f)
    decreases |a|
  {
    if a == [] {
      assert a + b == b;
    } else {
      assert (a + b)[0] == a[0] && (a + b)[1..] == a[1..] + b;
      KeepAppend(a[1..], b, f);
    }
  }

  // ---------------------------------------------------------------------------
  // process_data: the column conversions

  /** `astype(int)`, `pd.to_datetime` and `apply(price_filter)`. */
  datatype Conversion = ToInt | ToDate | ToPrice

  predicate Convertible(conv: Conversion, c: Cell)
  {
    conv == ToPrice && c.Text? ==> PriceModelled(c.s)
  }

  /** The timestamp `pd.to_datetime` gives a missing date. */
  const NaT: Cell := Stamp("NaT")

  /** One cell converted. An integer column accepts integers and integer
      texts; a date column turns a text or an integer into a timestamp, keeps
      timestamps and turns a missing value (NaN or None) into NaT; a price
      goes through `price_filter` and must be a text: `price_str[-1]` raises
      IndexError on an empty list and TypeError on any other non-text. */
  function Convert(conv: Conversion, c: Cell): (r: Result<Cell, PyError>)
    requires Convertible(conv, c)
    ensures r.Ok? && conv != ToDate ==> r.value.Num?
    ensures conv == ToDate ==> (r.Ok? <==> !c.Inf? && !c.Items?)
    ensures r.Ok? && conv == ToDate ==> r.value.Stamp?
    ensures conv == ToDate && (c.NaN? || c.NoneValue?) ==> r == Ok(NaT)
    ensures conv == ToPrice && c.Items? ==> r == Err(if c.items == [] then IndexError else TypeError)
    ensures conv == ToPrice && !c.Text? && !c.Items? ==> r == Err(TypeError)
    ensures r.Err? ==> Raised(r.error)
  {
    match conv
    case ToInt =>
      (match c
       case Num(_) => Ok(c)
       case Text(s) => (match IntOf(s) case Ok(v) => Ok(Num(v)) case Err(e) => Err(e))
       case NaN => Err(ValueError)
       case Inf => Err(ValueError)
       case _ => Err(TypeError))
    case ToDate =>
      (match c
       case Text(s) => Ok(Stamp(s))
       case Stamp(_) => Ok(c)
       case Num(n) => Ok(Stamp(IntToString(n)))
       case NaN => Ok(NaT)
       case NoneValue => Ok(NaT)
       case _ => Err(ValueError))
    case ToPrice =>
      (match c
       case Text(s) => (match PriceFilter(s) case Ok(v) => Ok(Num(v)) case Err(e) => Err(e))
       case Items(xs) => if xs == [] then Err(IndexError) else Err(TypeError)
       case _ => Err(TypeError))
  }

  /** The exceptions a conversion can raise. */
  predicate Raised(e: PyError)
  {
    e == ValueError || e == TypeError || e == IndexError
  }

  predicate ColumnConvertible(rows: seq<Record>, column: Column, conv: Conversion)
  {
    forall i :: 0 <= i < |rows| ==> Convertible(conv, Get(rows[i], column))
  }

  /** A whole column converted: it fails as soon as one cell fails, and
      otherwise has one row per row; `ConvertColumnRow` says what each row
      becomes. */
  function ConvertColumn(rows: seq<Record>, column: Column, conv: Conversion): (r: Result<seq<Record>, PyError>)
    requires ColumnConvertible(rows, column, conv)
    ensures r.Ok? <==> forall i :: 0 <= i < |rows| ==> Convert(conv, Get(rows[i], column)).Ok?
    ensures r.Ok? ==> |r.value| == |rows|
    ensures r.Err? ==> Raised(r.error)
    decreases |rows|
  {
    if rows == [] then Ok([])
    else
      match Convert(conv, Get(rows[0], column))
      case Err(e) => Err(e)
      case Ok(c) =>
        TailConvertible(rows, column, conv);
        match ConvertColumn(rows[1..], column, conv)
        case Err(e) =>
          assert exists i :: 0 <= i < |rows[1..]| && Convert(conv, Get(rows[1..][i], column)).Err?;
          Err(e)
        case Ok(rest) => Ok([rows[0][column := c]] + rest)
  }

  lemma TailConvertible(rows: seq<Record>, column: Column, conv: Conversion)
    requires rows != [] && ColumnConvertible(rows, column, conv)
    ensures ColumnConvertible(rows[1..], column, conv)
  {
    forall i | 0 <= i < |rows[1..]| ensures Convertible(conv, Get(rows[1..][i], column)) {
      assert rows[1..][i] == rows[i + 1];
    }
  }

  /** Row `b` is row `a` with one column converted and every other column
      kept. */
  ghost predicate Step(a: Record, b: Record, column: Column, conv: Conversion)
  {
    Convertible(conv, Get(a, column)) && Convert(conv, Get(a, column)) == Ok(Get(b, column)) &&
    forall c :: c != column ==> Get(b, c) == Get(a, c)
  }

  /** A converted column replaces that column of each row by its converted
      cell and changes nothing else. */
  lemma {:induction false} ConvertColumnRow(rows: seq<Record>, column: Column, conv: Conversion, i: int)
    requires ColumnConvertible(rows, column, conv) && ConvertColumn(rows, column, conv).Ok?
    requires 0 <= i < |rows|
    ensures Step(rows[i], ConvertColumn(rows, column, conv).value[i], column, conv)
    decreases i
  {
    var out := ConvertColumn(rows, column, conv).value;
    var c := Convert(conv, Get(rows[0], column)).value;
    TailConvertible(rows, column, conv);
    var rest := ConvertColumn(rows[1..], column, conv).value;
    assert out == [rows[0][column := c]] + rest;
    if i > 0 {
      ConvertColumnRow(rows[1..], column, conv, i - 1);
      assert rows[1..][i - 1] == rows[i] && out[i] == rest[i - 1];
    }
  }

  /** The location text `process_data` adds to a row. */
  function WithLocation(r: Record): Record
  {
    r[Location := Text(ConvertCoords(Plain(Get(r, ZillowLatitude)), Get(r, ZillowLongitude)))]
  }

  function AddLocation(rows: seq<Record>): (r: seq<Record>)
    ensures |r| == |rows|
    ensures forall i {:trigger r[i]} :: 0 <= i < |rows| ==> Get(r[i], Location).Text?
    ensures forall i, c {:trigger Get(r[i], c)} :: 0 <= i < |rows| && c != Location ==> Get(r[i], c) == Get(rows[i], c)
  {
    seq(|rows|, i requires 0 <= i < |rows| => WithLocation(rows[i]))
  }

  // ---------------------------------------------------------------------------
  // process_data: the whole clean-up

  /** The frame after `process_data` and the exception it raised, if any. On an
      exception the frame keeps the stages that completed. */
  datatype Outcome = Outcome(rows: seq<Record>, error: Option<PyError>)

  predicate PricesModelled(df: seq<Record>)
  {
    forall r :: r in df ==> Convertible(ToPrice, Get(r, ZillowPrice))
  }

  /** Whether `process_data` skips its work: no data, or already processed. */
  predicate Skips(df: seq<Record>)
  {
    |df| < 1 || CheckDf(df)
  }

  /** The price column is not touched by a conversion of another column. */
  lemma ConvertedPricesModelled(rows: seq<Record>, column: Column, conv: Conversion)
    requires column != ZillowPrice
    requires ColumnConvertible(rows, column, conv)
    requires ColumnConvertible(rows, ZillowPrice, ToPrice)
    requires ConvertColumn(rows, column, conv).Ok?
    ensures ColumnConvertible(ConvertColumn(rows, column, conv).value, ZillowPrice, ToPrice)
  {
    var out := ConvertColumn(rows, column, conv).value;
    forall i | 0 <= i < |out| ensures Convertible(ToPrice, Get(out[i], ZillowPrice)) {
      ConvertColumnRow(rows, column, conv, i);
    }
  }

  lemma KeptPricesModelled(df: seq<Record>)
    requires PricesModelled(df)
    ensures ColumnConvertible(Keep(df, ForSaleOrSold), ZillowPrice, ToPrice)
  {
    var kept := Keep(df, ForSaleOrSold);
    forall i | 0 <= i < |kept| ensures Convertible(ToPrice, Get(kept[i], ZillowPrice)) {
      assert kept[i] in df;
    }
  }

  /** `process_data` on a frame: a frame that is empty or already passes
      `check_df` is returned as it is; otherwise the stages run in order and
      the first that raises ends the run with the frame of the stages before
      it. The frame never grows. */
  function Processed(df: seq<Record>): (r: Outcome)
    requires PricesModelled(df)
    ensures Skips(df) ==> r == Outcome(df, None)
    ensures |r.rows| <= |df|
  {
    if Skips(df) then Outcome(df, None)
    else
      var s1 := Keep(df, ForSaleOrSold);
      KeptPricesModelled(df);
      match ConvertColumn(s1, ZillowId, ToInt)
      case Err(e) => Outcome(s1, Some(e))
      case Ok(s2) =>
        ConvertedPricesModelled(s1, ZillowId, ToInt);
        match ConvertColumn(s2, ZillowZipcode, ToInt)
        case Err(e) => Outcome(s2, Some(e))
        case Ok(s3) =>
          ConvertedPricesModelled(s2, ZillowZipcode, ToInt);
          match ConvertColumn(s3, DateScraped, ToDate)
          case Err(e) => Outcome(s3, Some(e))
          case Ok(s4) =>
            ConvertedPricesModelled(s3, DateScraped, ToDate);
            match ConvertColumn(s4, ZillowPrice, ToPrice)
            case Err(e) => Outcome(s4, Some(e))
            case Ok(s5) => Outcome(Keep(AddLocation(s5), HasAddress), None)
  }

  /** The only exceptions `process_data` raises are those of the
      conversions. */
  lemma ProcessedRaises(df: seq<Record>)
    requires PricesModelled(df)
    ensures Processed(df).error.Some? ==> Raised(Processed(df).error.value)
  {
    if !Skips(df) {
      var s1 := Keep(df, ForSaleOrSold);
      KeptPricesModelled(df);
      if ConvertColumn(s1, ZillowId, ToInt).Ok? {
        var s2 := ConvertColumn(s1, ZillowId, ToInt).value;
        ConvertedPricesModelled(s1, ZillowId, ToInt);
        if ConvertColumn(s2, ZillowZipcode, ToInt).Ok? {
          var s3 := ConvertColumn(s2, ZillowZipcode, ToInt).value;
          ConvertedPricesModelled(s2, ZillowZipcode, ToInt);
          if ConvertColumn(s3, DateScraped, ToDate).Ok? {
            ConvertedPricesModelled(s3, DateScraped, ToDate);
          }
        }
      }
    }
  }

  /** What every row left by a successful `process_data` satisfies. */
  predicate CleanRow(r: Record)
  {
    (Get(r, ZillowStatus) == Text("ForSale") || Get(r, ZillowStatus) == Text("RecentlySold")) &&
    Get(r, ZillowId).Num? && Get(r, ZillowZipcode).Num? && Get(r, ZillowPrice).Num? &&
    Get(r, Location).Text? && Get(r, DateScraped).Stamp? &&
    Get(r, Street).Text? && Get(r, City).Text? && Get(r, State).Text?
  }

  /** One row followed through the four conversions and the location: a row
      that passed the first mask and has the address fields comes out
      clean. */
  lemma RowStages(r1: Record, r2: Record, r3: Record, r4: Record, r5: Record, r6: Record)
    requires Passes(ForSaleOrSold, r1)
    requires Step(r1, r2, ZillowId, ToInt) && Step(r2, r3, ZillowZipcode, ToInt)
    requires Step(r3, r4, DateScraped, ToDate) && Step(r4, r5, ZillowPrice, ToPrice)
    requires Get(r6, Location).Text? && forall c :: c != Location ==> Get(r6, c) == Get(r5, c)
    requires Passes(HasAddress, r6)
    ensures CleanRow(r6)
  {
    assert Get(r6, ZillowStatus) == Get(r1, ZillowStatus);
    assert Get(r6, ZillowId) == Get(r2, ZillowId);
    assert Get(r6, ZillowZipcode) == Get(r3, ZillowZipcode);
    assert Get(r6, DateScraped) == Get(r4, DateScraped) && Get(r3, DateScraped) == Get(r1, DateScraped);
    assert Get(r6, ZillowPrice) == Get(r5, ZillowPrice);
  }

  /** A row left by a successful run is clean: its date in particular is a
      timestamp (NaT when the date was missing). */
  lemma SurvivorClean(df: seq<Record>, r: Record)
    requires PricesModelled(df) && !Skips(df)
    requires Processed(df).error.None?
    requires r in Processed(df).rows
    ensures CleanRow(r)
  {
    var s1 := Keep(df, ForSaleOrSold);
    KeptPricesModelled(df);
    var s2 := ConvertColumn(s1, ZillowId, ToInt).value;
    ConvertedPricesModelled(s1, ZillowId, ToInt);
    var s3 := ConvertColumn(s2, ZillowZipcode, ToInt).value;
    ConvertedPricesModelled(s2, ZillowZipcode, ToInt);
    var s4 := ConvertColumn(s3, DateScraped, ToDate).value;
    ConvertedPricesModelled(s3, DateScraped, ToDate);
    var s5 := ConvertColumn(s4, ZillowPrice, ToPrice).value;
    var s6 := AddLocation(s5);
    assert r in s6 && Passes(HasAddress, r) by {
      assert Processed(df).rows == Keep(s6, HasAddress);
    }
    var i :| 0 <= i < |s6| && s6[i] == r;
    assert Step(s1[i], s2[i], ZillowId, ToInt) && Step(s2[i], s3[i], ZillowZipcode, ToInt) &&
           Step(s3[i], s4[i], DateScraped, ToDate) && Step(s4[i], s5[i], ZillowPrice, ToPrice) by {
      ConvertColumnRow(s1, ZillowId, ToInt, i);
      ConvertColumnRow(s2, ZillowZipcode, ToInt, i);
      ConvertColumnRow(s3, DateScraped, ToDate, i);
      ConvertColumnRow(s4, ZillowPrice, ToPrice, i);
    }
    assert Passes(ForSaleOrSold, s1[i]) by {
      assert s1[i] in s1;
    }
    RowStages(s1[i], s2[i], s3[i], s4[i], s5[i], s6[i]);
  }

  /** The rows a successful run keeps are processed ones: wanted status,
      integer id, zipcode and price, a location text, and text address
      fields. */
  lemma ProcessedRowsClean(df: seq<Record>)
    requires PricesModelled(df) && !Skips(df)
    requires Processed(df).error.None?
    ensures forall r :: r in Processed(df).rows ==> CleanRow(r)
  {
    forall r | r in Processed(df).rows ensures CleanRow(r) {
      SurvivorClean(df, r);
    }
  }

  /** After a successful run the frame passes `check_df`, so running
      `process_data` again changes nothing. */
  lemma ProcessDataIdempotent(df: seq<Record>)
    requires PricesModelled(df) && !Skips(df)
    requires Processed(df).error.None?
    ensures CheckDf(Processed(df).rows)
    ensures PricesModelled(Processed(df).rows)
    ensures Processed(Processed(df).rows) == Processed(df)
  {
    var out := Processed(df).rows;
    forall i | 0 <= i < |out|
      ensures CleanRow(out[i])
    {
      assert out[i] in out;
      SurvivorClean(df, out[i]);
    }
  }

  /** Whether each conversion of `process_data` succeeds on a row. */
  predicate RowConverts(r: Record)
  {
    Convert(ToInt, Get(r, ZillowId)).Ok? && Convert(ToInt, Get(r, ZillowZipcode)).Ok? &&
    Convert(ToDate, Get(r, DateScraped)).Ok? &&
    Convertible(ToPrice, Get(r, ZillowPrice)) && Convert(ToPrice, Get(r, ZillowPrice)).Ok?
  }

  /** The row `process_data` makes of an input row: id and zipcode as
      integers, the date as a timestamp, the price through `price_filter`,
      and the location text added. The address fields are untouched, so the
      second mask sees them as they were; a row that passed both masks comes
      out clean. */
  function ProcessRow(r: Record): Record
    requires RowConverts(r)
  {
    WithLocation(r[ZillowId := Convert(ToInt, Get(r, ZillowId)).value]
                  [ZillowZipcode := Convert(ToInt, Get(r, ZillowZipcode)).value]
                  [DateScraped := Convert(ToDate, Get(r, DateScraped)).value]
                  [ZillowPrice := Convert(ToPrice, Get(r, ZillowPrice)).value])
  }

  /** The columns `ProcessRow` leaves as they were. */
  lemma ProcessRowKeeps(r: Record, column: Column)
    requires RowConverts(r)
    requires column !in {ZillowId, ZillowZipcode, DateScraped, ZillowPrice, Location}
    ensures Get(ProcessRow(r), column) == Get(r, column)
  {
    var id := Convert(ToInt, Get(r, ZillowId)).value;
    var zip := Convert(ToInt, Get(r, ZillowZipcode)).value;
    var date := Convert(ToDate, Get(r, DateScraped)).value;
    var price := Convert(ToPrice, Get(r, ZillowPrice)).value;
    var c := r[ZillowId := id][ZillowZipcode := zip][DateScraped := date][ZillowPrice := price];
    assert ProcessRow(r) == WithLocation(c);
    UpdateKeeps(r, ZillowId, id, column);
    UpdateKeeps(r[ZillowId := id], ZillowZipcode, zip, column);
    UpdateKeeps(r[ZillowId := id][ZillowZipcode := zip], DateScraped, date, column);
    UpdateKeeps(r[ZillowId := id][ZillowZipcode := zip][DateScraped := date], ZillowPrice, price, column);
  }

  lemma UpdateKeeps(r: Record, key: Column, v: Cell, column: Column)
    requires column != key
    ensures Get(r[key := v], column) == Get(r, column)
  {
  }

  /** A row's address fields come through processing unchanged, so the
      second mask sees them as they were; a row that passed both masks comes
      out clean. */
  lemma ProcessRowProps(r: Record)
    requires RowConverts(r)
    ensures Passes(HasAddress, ProcessRow(r)) == Passes(HasAddress, r)
    ensures Passes(ForSaleOrSold, r) && Passes(HasAddress, r) ==> CleanRow(ProcessRow(r))
  {
    ProcessRowKeeps(r, Street);
    ProcessRowKeeps(r, City);
    ProcessRowKeeps(r, State);
    ProcessRowKeeps(r, ZillowStatus);
    var p := ProcessRow(r);
    var c := r[ZillowId := Convert(ToInt, Get(r, ZillowId)).value]
              [ZillowZipcode := Convert(ToInt, Get(r, ZillowZipcode)).value]
              [DateScraped := Convert(ToDate, Get(r, DateScraped)).value]
              [ZillowPrice := Convert(ToPrice, Get(r, ZillowPrice)).value];
    assert p == WithLocation(c);
    assert Get(p, ZillowId).Num? && Get(p, ZillowZipcode).Num?;
    assert Get(p, DateScraped).Stamp? && Get(p, ZillowPrice).Num? && Get(p, Location).Text?;
  }

  /** Every row of a frame processed, in order. */
  function ProcessAll(rows: seq<Record>): (out: seq<Record>)
    requires forall r :: r in rows ==> RowConverts(r)
    ensures |out| == |rows|
    decreases |rows|
  {
    if rows == [] then []
    else
      assert rows[0] in rows && forall r :: r in rows[1..] ==> r in rows;
      [ProcessRow(rows[0])] + ProcessAll(rows[1..])
  }

  /** Row `i` of the processed frame is input row `i` processed. */
  lemma {:induction false} ProcessAllAt(rows: seq<Record>, i: int)
    requires forall r :: r in rows ==> RowConverts(r)
    requires 0 <= i < |rows|
    ensures ProcessAll(rows)[i] == ProcessRow(rows[i])
    decreases |rows|
  {
    var tail := rows[1..];
    assert forall r :: r in tail ==> r in rows;
    assert ProcessAll(rows) == [ProcessRow(rows[0])] + ProcessAll(tail);
    if i > 0 {
      ProcessAllAt(tail, i - 1);
      assert tail[i - 1] == rows[i];
    }
  }

  /** The second mask commutes with processing the rows. */
  lemma {:induction false} KeepProcessAll(rows: seq<Record>)
    requires forall r :: r in rows ==> RowConverts(r)
    ensures forall r :: r in Keep(rows, HasAddress) ==> RowConverts(r)
    ensures Keep(ProcessAll(rows), HasAddress) == ProcessAll(Keep(rows, HasAddress))
    decreases |rows|
  {
    if rows != [] {
      var tail := rows[1..];
      assert forall r :: r in tail ==> r in rows;
      KeepProcessAll(tail);
      ProcessRowProps(rows[0]);
      var p0 := ProcessRow(rows[0]);
      var pt := ProcessAll(tail);
      assert ProcessAll(rows) == [p0] + pt;
      assert ([p0] + pt)[0] == p0 && ([p0] + pt)[1..] == pt;
      if Passes(HasAddress, rows[0]) {
        var kt := Keep(tail, HasAddress);
        assert Keep(rows, HasAddress) == [rows[0]] + kt;
        assert ([rows[0]] + kt)[0] == rows[0] && ([rows[0]] + kt)[1..] == kt;
      }
    }
  }

  /** Row `i` of a converted column is row `i` with that one cell replaced by
      its conversion. */
  lemma {:induction false} ConvertColumnAt(rows: seq<Record>, column: Column, conv: Conversion, i: int)
    requires ColumnConvertible(rows, column, conv) && ConvertColumn(rows, column, conv).Ok?
    requires 0 <= i < |rows|
    ensures Convert(conv, Get(rows[i], column)).Ok?
    ensures ConvertColumn(rows, column, conv).value[i] ==
            rows[i][column := Convert(conv, Get(rows[i], column)).value]
    decreases i
  {
    TailConvertible(rows, column, conv);
    if i > 0 {
      ConvertColumnAt(rows[1..], column, conv, i - 1);
      assert rows[1..][i - 1] == rows[i];
    }
  }

  /** One row through the four conversions, given the row after each: its
      conversions all succeed, and with the location added it is the row
      `ProcessRow` makes of it. */
  lemma ChainRow(r: Record, a: Record, b: Record, c: Record, d: Record)
    requires Convert(ToInt, Get(r, ZillowId)).Ok? && a == r[ZillowId := Convert(ToInt, Get(r, ZillowId)).value]
    requires Convert(ToInt, Get(a, ZillowZipcode)).Ok? &&
             b == a[ZillowZipcode := Convert(ToInt, Get(a, ZillowZipcode)).value]
    requires Convert(ToDate, Get(b, DateScraped)).Ok? && c == b[DateScraped := Convert(ToDate, Get(b, DateScraped)).value]
    requires Convertible(ToPrice, Get(c, ZillowPrice)) && Convert(ToPrice, Get(c, ZillowPrice)).Ok? &&
             d == c[ZillowPrice := Convert(ToPrice, Get(c, ZillowPrice)).value]
    ensures RowConverts(r) && WithLocation(d) == ProcessRow(r)
  {
    UpdateKeeps(r, ZillowId, a[ZillowId], ZillowZipcode);
    UpdateKeeps(r, ZillowId, a[ZillowId], DateScraped);
    UpdateKeeps(a, ZillowZipcode, b[ZillowZipcode], DateScraped);
    UpdateKeeps(r, ZillowId, a[ZillowId], ZillowPrice);
    UpdateKeeps(a, ZillowZipcode, b[ZillowZipcode], ZillowPrice);
    UpdateKeeps(b, DateScraped, c[DateScraped], ZillowPrice);
  }

  /** One row through the four column conversions, given the frames between
      them: its conversions all succeed, and with the location added it is
      the row `ProcessRow` makes of it. */
  lemma StagesRow(s1: seq<Record>, s2: seq<Record>, s3: seq<Record>, s4: seq<Record>, s5: seq<Record>, i: int)
    requires ColumnConvertible(s1, ZillowId, ToInt) && ConvertColumn(s1, ZillowId, ToInt) == Ok(s2)
    requires ColumnConvertible(s2, ZillowZipcode, ToInt) && ConvertColumn(s2, ZillowZipcode, ToInt) == Ok(s3)
    requires ColumnConvertible(s3, DateScraped, ToDate) && ConvertColumn(s3, DateScraped, ToDate) == Ok(s4)
    requires ColumnConvertible(s4, ZillowPrice, ToPrice) && ConvertColumn(s4, ZillowPrice, ToPrice) == Ok(s5)
    requires 0 <= i < |s1|
    ensures RowConverts(s1[i]) && WithLocation(s5[i]) == ProcessRow(s1[i])
  {
    ConvertColumnAt(s1, ZillowId, ToInt, i);
    ConvertColumnAt(s2, ZillowZipcode, ToInt, i);
    ConvertColumnAt(s3, DateScraped, ToDate, i);
    ConvertColumnAt(s4, ZillowPrice, ToPrice, i);
    ChainRow(s1[i], s2[i], s3[i], s4[i], s5[i]);
  }

  /** The four column conversions and the location, frame by frame: every
      row converts, and the result is the frame processed row by row. */
  lemma StagesFrame(s1: seq<Record>, s2: seq<Record>, s3: seq<Record>, s4: seq<Record>, s5: seq<Record>)
    requires ColumnConvertible(s1, ZillowId, ToInt) && ConvertColumn(s1, ZillowId, ToInt) == Ok(s2)
    requires ColumnConvertible(s2, ZillowZipcode, ToInt) && ConvertColumn(s2, ZillowZipcode, ToInt) == Ok(s3)
    requires ColumnConvertible(s3, DateScraped, ToDate) && ConvertColumn(s3, DateScraped, ToDate) == Ok(s4)
    requires ColumnConvertible(s4, ZillowPrice, ToPrice) && ConvertColumn(s4, ZillowPrice, ToPrice) == Ok(s5)
    ensures forall r :: r in s1 ==> RowConverts(r)
    ensures AddLocation(s5) == ProcessAll(s1)
  {
    forall r | r in s1 ensures RowConverts(r) {
      var i :| 0 <= i < |s1| && s1[i] == r;
      StagesRow(s1, s2, s3, s4, s5, i);
    }
    var s6 := AddLocation(s5);
    forall i | 0 <= i < |s1| ensures s6[i] == ProcessAll(s1)[i] {
      StagesRow(s1, s2, s3, s4, s5, i);
      ProcessAllAt(s1, i);
    }
  }

  /** What a successful `process_data` leaves: the rows that pass both masks,
      in their order and with repeats, each processed. So a row with a price
      of '0', another status or a non-text address field is gone, and every
      other row is there. */
  lemma ProcessedRows(df: seq<Record>)
    requires PricesModelled(df) && !Skips(df)
    requires Processed(df).error.None?
    ensures forall r :: r in Keep(df, ForSaleOrSold) ==> RowConverts(r)
    ensures Processed(df).rows == ProcessAll(Keep(Keep(df, ForSaleOrSold), HasAddress))
  {
    var s1 := Keep(df, ForSaleOrSold);
    KeptPricesModelled(df);
    var s2 := ConvertColumn(s1, ZillowId, ToInt).value;
    ConvertedPricesModelled(s1, ZillowId, ToInt);
    var s3 := ConvertColumn(s2, ZillowZipcode, ToInt).value;
    ConvertedPricesModelled(s2, ZillowZipcode, ToInt);
    var s4 := ConvertColumn(s3, DateScraped, ToDate).value;
    ConvertedPricesModelled(s3, DateScraped, ToDate);
    var s5 := ConvertColumn(s4, ZillowPrice, ToPrice).value;
    StagesFrame(s1, s2, s3, s4, s5);
    assert Processed(df).rows == Keep(AddLocation(s5), HasAddress);
    KeepProcessAll(s1);
  }

  /** A row is in a processed frame exactly when it is some input row
      processed. */
  lemma ProcessAllMembers(rows: seq<Record>, r: Record)
    requires forall a :: a in rows ==> RowConverts(a)
    ensures r in ProcessAll(rows) <==> exists a :: a in rows && RowConverts(a) && r == ProcessRow(a)
  {
    if r in ProcessAll(rows) {
      var i :| 0 <= i < |rows| && ProcessAll(rows)[i] == r;
      ProcessAllAt(rows, i);
      assert rows[i] in rows;
    }
    if exists a :: a in rows && RowConverts(a) && r == ProcessRow(a) {
      var a :| a in rows && RowConverts(a) && r == ProcessRow(a);
      var i :| 0 <= i < |rows| && rows[i] == a;
      ProcessAllAt(rows, i);
      assert ProcessAll(rows)[i] == r;
    }
  }

  /** Both directions for one row: a row is in the frame a successful
      `process_data` leaves exactly when it is the processed form of an input
      row that passes both masks. */
  lemma ProcessedRowsFrom(df: seq<Record>, r: Record)
    requires PricesModelled(df) && !Skips(df)
    requires Processed(df).error.None?
    ensures r in Processed(df).rows <==>
              exists a :: a in df && Passes(ForSaleOrSold, a) && Passes(HasAddress, a) &&
                          RowConverts(a) && r == ProcessRow(a)
  {
    ProcessedRows(df);
    var kept := Keep(Keep(df, ForSaleOrSold), HasAddress);
    assert forall a :: a in kept <==> a in df && Passes(ForSaleOrSold, a) && Passes(HasAddress, a);
    ProcessAllMembers(kept, r);
  }

  // ---------------------------------------------------------------------------
  // get_times: which lookups a row needs

  /** The four lookups, by the index `get_times` gives them: 0 morning drive,
      1 evening drive, 2 morning transit, 3 evening transit. */
  function SlotTime(k: nat): (t: Time)
    requires k < 4
    ensures t == (if k == 0 || k == 2 then Morning else Evening)
  {
    if k % 2 == 0 then Morning else Evening
  }

  function SlotMode(k: nat): (m: string)
    requires k < 4
    ensures m == (if k <= 1 then "driving" else "transit")
    ensures ValidMode(m)
  {
    if k < 2 then "driving" else "transit"
  }

  /** Whether column `c` is one of the duration columns lookup `k` fills. */
  predicate Fills(k: nat, c: Column)
    requires k < 4
  {
    if k < 2 then c == DriveDuration(SlotTime(k)) || c == TrafficDuration(SlotTime(k))
    else c == TransitDuration(SlotTime(k))
  }

  /** `np.isnan` of a cell, which raises TypeError on a value that is not a
      number. */
  function IsNaN(c: Cell): (r: Result<bool, PyError>)
    ensures r == Ok(true) <==> c.NaN?
    ensures r.Err? <==> !IsNumber(c)
  {
    if IsNumber(c) then Ok(c.NaN?) else Err(TypeError)
  }

  /** Whether lookup `k` is still to be done for a row: for driving, either of
      its two duration columns is NaN (`or` does not look at the second when
      the first is NaN); for transit, its one column is NaN. */
  function Missing(r: Record, k: nat): (m: Result<bool, PyError>)
    requires k < 4
    ensures k < 2 ==>
              (m == Ok(true) <==> Get(r, DriveDuration(SlotTime(k))).NaN? ||
                                  (IsNumber(Get(r, DriveDuration(SlotTime(k)))) && Get(r, TrafficDuration(SlotTime(k))).NaN?))
    ensures k >= 2 ==> (m == Ok(true) <==> Get(r, TransitDuration(SlotTime(k))).NaN?)
    ensures (forall c :: Fills(k, c) ==> IsNumber(Get(r, c))) ==> m.Ok?
  {
    var t := SlotTime(k);
    if k < 2 then
      match IsNaN(Get(r, DriveDuration(t)))
      case Err(e) => Err(e)
      case Ok(first) => if first then Ok(true) else IsNaN(Get(r, TrafficDuration(t)))
    else IsNaN(Get(r, TransitDuration(t)))
  }

  /** `ds_to_get`: the four flags of a row, computed before any lookup. */
  function Wants(r: Record): (w: Result<seq<bool>, PyError>)
    ensures w.Ok? <==> forall k :: 0 <= k < 4 ==> Missing(r, k).Ok?
    ensures w.Ok? ==> |w.value| == 4 && forall k :: 0 <= k < 4 ==> w.value[k] == Missing(r, k).value
  {
    match Missing(r, 0)
    case Err(e) => Err(e)
    case Ok(a) =>
      match Missing(r, 1)
      case Err(e) => Err(e)
      case Ok(b) =>
        match Missing(r, 2)
        case Err(e) => Err(e)
        case Ok(c) =>
          match Missing(r, 3)
          case Err(e) => Err(e)
          case Ok(d) => Ok([a, b, c, d])
  }

  /** The address string `get_times` passes as the location; building it
      raises TypeError when street, city or state is not a string. */
  function Address(r: Record): (a: Result<string, PyError>)
    ensures a.Ok? <==> Get(r, Street).Text? && Get(r, City).Text? && Get(r, State).Text?
  {
    match (Get(r, Street), Get(r, City), Get(r, State))
    case (Text(street), Text(city), Text(state)) =>
      Ok(street + ", " + city + ", " + state + " " + CellStr(Get(r, ZillowZipcode)))
    case _ => Err(TypeError)
  }

  /** One lookup for a row, as `get_times` makes it. Its traffic duration is
      a number or inf for driving. */
  function Attempt(cfg: Config, api: Directions, row: Record, k: nat): (r: Result<Option<Trip>, PyError>)
    requires k < 4
    ensures r.Ok? && r.value.Some? && k < 2 ==> IsNumber(r.value.value.durationInTraffic)
  {
    match Address(row)
    case Err(e) => Err(e)
    case Ok(a) => GetTravelTime(cfg, api, Some(a), Named(TimeName(SlotTime(k))), SlotMode(k))
  }

  // ---------------------------------------------------------------------------
  // get_times: what a lookup writes

  /** `add_data_to_df` on one cell of a record. */
  function StoreCell(r: Record, column: Column, data: Cell): (w: Record)
    ensures Get(w, column) == AddData(Get(r, column), data)
  {
    r[column := AddData(Get(r, column), data)]
  }

  /** Storing into one cell leaves every other cell alone. */
  lemma StoreCellOthers(r: Record, column: Column, data: Cell)
    ensures forall c :: c != column ==> Get(StoreCell(r, column, data), c) == Get(r, c)
  {
  }

  /** The four tagged `google_*` entries of a successful lookup. */
  function StoreGoogle(r: Record, tag: string, trip: Trip): Record
  {
    var r1 := StoreCell(r, StartAddress, Text(tag + trip.startAddress));
    var r2 := StoreCell(r1, StartLocation, Text(tag + trip.startLocation));
    var r3 := StoreCell(r2, EndAddress, Text(tag + trip.endAddress));
    StoreCell(r3, EndLocation, Text(tag + trip.endLocation))
  }

  /** The duration columns of lookup `k`: `drive` goes into the drive (or
      transit) column, `traffic` into the traffic column of a drive. */
  function StoreDurations(r: Record, k: nat, drive: Cell, traffic: Cell): Record
    requires k < 4
  {
    var time := SlotTime(k);
    if k < 2 then StoreCell(StoreCell(r, DriveDuration(time), drive), TrafficDuration(time), traffic)
    else StoreCell(r, TransitDuration(time), drive)
  }

  /** The writes after lookup `k` of a row: inf into its duration columns
      when it failed; otherwise the four tagged `google_*` entries and the
      durations. */
  function Written(r: Record, k: nat, data: Option<Trip>): (w: Record)
    requires k < 4
    ensures forall c :: !Fills(k, c) && !GoogleColumn(c) ==> Get(w, c) == Get(r, c)
    ensures data.None? ==> forall c :: !Fills(k, c) ==> Get(w, c) == Get(r, c)
  {
    match data
    case None =>
      StoreDurationsCells(r, k, Inf, Inf);
      StoreDurations(r, k, Inf, Inf)
    case Some(trip) =>
      var tag := TimeName(SlotTime(k)) + ":" + SlotMode(k) + ":";
      StoreGoogleOthers(r, tag, trip);
      StoreDurationsCells(StoreGoogle(r, tag, trip), k, Num(trip.duration), trip.durationInTraffic);
      StoreDurations(StoreGoogle(r, tag, trip), k, Num(trip.duration), trip.durationInTraffic)
  }

  /** The `google_*` columns, which collect one tagged entry per lookup. */
  predicate GoogleColumn(c: Column)
  {
    c == StartAddress || c == StartLocation || c == EndAddress || c == EndLocation
  }

  /** Each `google_*` column receives its own entry. */
  lemma StoreGoogleCells(r: Record, tag: string, trip: Trip)
    ensures var w := StoreGoogle(r, tag, trip);
            Get(w, StartAddress) == AddData(Get(r, StartAddress), Text(tag + trip.startAddress)) &&
            Get(w, StartLocation) == AddData(Get(r, StartLocation), Text(tag + trip.startLocation)) &&
            Get(w, EndAddress) == AddData(Get(r, EndAddress), Text(tag + trip.endAddress)) &&
            Get(w, EndLocation) == AddData(Get(r, EndLocation), Text(tag + trip.endLocation))
  {
    var r1 := StoreCell(r, StartAddress, Text(tag + trip.startAddress));
    var r2 := StoreCell(r1, StartLocation, Text(tag + trip.startLocation));
    var r3 := StoreCell(r2, EndAddress, Text(tag + trip.endAddress));
    StoreCellOthers(r1, StartLocation, Text(tag + trip.startLocation));
    StoreCellOthers(r2, EndAddress, Text(tag + trip.endAddress));
    StoreCellOthers(r3, EndLocation, Text(tag + trip.endLocation));
  }

  /** The `google_*` entries change no other column. */
  lemma StoreGoogleOthers(r: Record, tag: string, trip: Trip)
    ensures forall c :: !GoogleColumn(c) ==> Get(StoreGoogle(r, tag, trip), c) == Get(r, c)
  {
    var r1 := StoreCell(r, StartAddress, Text(tag + trip.startAddress));
    var r2 := StoreCell(r1, StartLocation, Text(tag + trip.startLocation));
    var r3 := StoreCell(r2, EndAddress, Text(tag + trip.endAddress));
    StoreCellOthers(r, StartAddress, Text(tag + trip.startAddress));
    StoreCellOthers(r1, StartLocation, Text(tag + trip.startLocation));
    StoreCellOthers(r2, EndAddress, Text(tag + trip.endAddress));
    StoreCellOthers(r3, EndLocation, Text(tag + trip.endLocation));
  }

  /** Lookup `k` stores `drive` into its drive (or transit) column and
      `traffic` into the traffic column of a drive, by the cell rule, and
      changes no other column. */
  lemma StoreDurationsCells(r: Record, k: nat, drive: Cell, traffic: Cell)
    requires k < 4
    ensures var w, t := StoreDurations(r, k, drive, traffic), SlotTime(k);
            (k < 2 ==> Get(w, DriveDuration(t)) == AddData(Get(r, DriveDuration(t)), drive) &&
                       Get(w, TrafficDuration(t)) == AddData(Get(r, TrafficDuration(t)), traffic)) &&
            (k >= 2 ==> Get(w, TransitDuration(t)) == AddData(Get(r, TransitDuration(t)), drive))
    ensures forall c :: !Fills(k, c) ==> Get(StoreDurations(r, k, drive, traffic), c) == Get(r, c)
  {
    var t := SlotTime(k);
    if k < 2 {
      var r1 := StoreCell(r, DriveDuration(t), drive);
      StoreCellOthers(r, DriveDuration(t), drive);
      StoreCellOthers(r1, TrafficDuration(t), traffic);
    } else {
      StoreCellOthers(r, TransitDuration(t), drive);
    }
  }

  /** A failed lookup writes inf into exactly its own duration columns
      (replacing the numbers found there) and changes no other column. */
  lemma FailureWritesInf(r: Record, k: nat)
    requires k < 4
    ensures forall c :: !Fills(k, c) ==> Get(Written(r, k, None), c) == Get(r, c)
    ensures forall c :: Fills(k, c) && IsNumber(Get(r, c)) ==> Get(Written(r, k, None), c) == Inf
  {
    StoreDurationsCells(r, k, Inf, Inf);
    forall c | Fills(k, c)
      ensures IsNumber(Get(r, c)) ==> Get(Written(r, k, None), c) == Inf
    {
      AddDataRule(Get(r, c), Inf);
    }
  }

  /** A successful lookup adds one tagged entry to each `google_*` column. */
  lemma SuccessWritesGoogle(r: Record, k: nat, trip: Trip)
    requires k < 4
    ensures var w, tag := Written(r, k, Some(trip)), TimeName(SlotTime(k)) + ":" + SlotMode(k) + ":";
            Get(w, StartAddress) == AddData(Get(r, StartAddress), Text(tag + trip.startAddress)) &&
            Get(w, StartLocation) == AddData(Get(r, StartLocation), Text(tag + trip.startLocation)) &&
            Get(w, EndAddress) == AddData(Get(r, EndAddress), Text(tag + trip.endAddress)) &&
            Get(w, EndLocation) == AddData(Get(r, EndLocation), Text(tag + trip.endLocation))
  {
    var tag := TimeName(SlotTime(k)) + ":" + SlotMode(k) + ":";
    StoreGoogleCells(r, tag, trip);
    StoreDurationsCells(StoreGoogle(r, tag, trip), k, Num(trip.duration), trip.durationInTraffic);
  }

  /** Over numbers, the duration columns of lookup `k` end up holding exactly
      the values stored. */
  lemma StoreDurationsOverNumbers(r: Record, k: nat, drive: Cell, traffic: Cell)
    requires k < 4
    requires forall c :: Fills(k, c) ==> IsNumber(Get(r, c))
    ensures var w, t := StoreDurations(r, k, drive, traffic), SlotTime(k);
            (k < 2 ==> Get(w, DriveDuration(t)) == drive && Get(w, TrafficDuration(t)) == traffic) &&
            (k >= 2 ==> Get(w, TransitDuration(t)) == drive)
  {
    var t := SlotTime(k);
    StoreDurationsCells(r, k, drive, traffic);
    if k < 2 {
      assert Fills(k, DriveDuration(t)) && Fills(k, TrafficDuration(t));
      AddDataToNumber(Get(r, DriveDuration(t)), drive);
      AddDataToNumber(Get(r, TrafficDuration(t)), traffic);
    } else {
      assert Fills(k, TransitDuration(t));
      AddDataToNumber(Get(r, TransitDuration(t)), drive);
    }
  }

  /** A successful lookup stores its durations in its own duration columns
      when those hold numbers. */
  lemma SuccessWritesDurations(r: Record, k: nat, trip: Trip)
    requires k < 4
    requires forall c :: Fills(k, c) ==> IsNumber(Get(r, c))
    ensures var w, t := Written(r, k, Some(trip)), SlotTime(k);
            (k < 2 ==> Get(w, DriveDuration(t)) == Num(trip.duration) &&
                       Get(w, TrafficDuration(t)) == trip.durationInTraffic) &&
            (k >= 2 ==> Get(w, TransitDuration(t)) == Num(trip.duration))
  {
    var tag := TimeName(SlotTime(k)) + ":" + SlotMode(k) + ":";
    var g := StoreGoogle(r, tag, trip);
    StoreGoogleOthers(r, tag, trip);
    assert forall c :: Fills(k, c) ==> !GoogleColumn(c);
    StoreDurationsOverNumbers(g, k, Num(trip.duration), trip.durationInTraffic);
  }

  /** A successful lookup changes no column but its own duration columns and
      the `google_*` ones. */
  lemma SuccessLeavesOthers(r: Record, k: nat, trip: Trip)
    requires k < 4
    ensures forall c :: !Fills(k, c) && !GoogleColumn(c) ==> Get(Written(r, k, Some(trip)), c) == Get(r, c)
  {
    var tag := TimeName(SlotTime(k)) + ":" + SlotMode(k) + ":";
    StoreGoogleOthers(r, tag, trip);
    StoreDurationsCells(StoreGoogle(r, tag, trip), k, Num(trip.duration), trip.durationInTraffic);
  }

  /** The six duration columns of a row. */
  predicate DurationsNumeric(r: Record)
  {
    forall t: Time :: IsNumber(Get(r, DriveDuration(t))) && IsNumber(Get(r, TrafficDuration(t))) &&
                      IsNumber(Get(r, TransitDuration(t)))
  }

  /** Storing numbers into duration columns keeps every duration a number. */
  lemma StoreDurationsKeepsNumeric(r: Record, k: nat, drive: Cell, traffic: Cell)
    requires k < 4 && DurationsNumeric(r)
    requires IsNumber(drive) && IsNumber(traffic)
    ensures DurationsNumeric(StoreDurations(r, k, drive, traffic))
  {
    var w := StoreDurations(r, k, drive, traffic);
    StoreDurationsCells(r, k, drive, traffic);
    forall t: Time
      ensures IsNumber(Get(w, DriveDuration(t))) && IsNumber(Get(w, TrafficDuration(t))) &&
              IsNumber(Get(w, TransitDuration(t)))
    {
      AddDataToNumber(Get(r, DriveDuration(t)), drive);
      AddDataToNumber(Get(r, TrafficDuration(t)), traffic);
      AddDataToNumber(Get(r, TransitDuration(t)), drive);
    }
  }

  /** The `google_*` entries leave the durations alone. */
  lemma StoreGoogleKeepsNumeric(r: Record, tag: string, trip: Trip)
    requires DurationsNumeric(r)
    ensures DurationsNumeric(StoreGoogle(r, tag, trip))
  {
    var g := StoreGoogle(r, tag, trip);
    StoreGoogleOthers(r, tag, trip);
    forall t: Time
      ensures IsNumber(Get(g, DriveDuration(t))) && IsNumber(Get(g, TrafficDuration(t))) &&
              IsNumber(Get(g, TransitDuration(t)))
    {
      assert !GoogleColumn(DriveDuration(t)) && !GoogleColumn(TrafficDuration(t)) && !GoogleColumn(TransitDuration(t));
    }
  }

  /** Durations stay numbers through `get_times`'s writes, so a later run can
      read every flag again. */
  lemma WrittenKeepsDurationsNumeric(r: Record, k: nat, data: Option<Trip>)
    requires k < 4 && DurationsNumeric(r)
    requires data.Some? && k < 2 ==> IsNumber(data.value.durationInTraffic)
    ensures DurationsNumeric(Written(r, k, data))
  {
    match data
    case None =>
      StoreDurationsKeepsNumeric(r, k, Inf, Inf);
    case Some(trip) =>
      var tag := TimeName(SlotTime(k)) + ":" + SlotMode(k) + ":";
      StoreGoogleKeepsNumeric(r, tag, trip);
      var traffic := if k < 2 then trip.durationInTraffic else Inf;
      StoreDurationsKeepsNumeric(StoreGoogle(r, tag, trip), k, Num(trip.duration), traffic);
  }

  /** A row whose durations are numbers has all four flags readable. */
  lemma NumericFlagsReadable(r: Record)
    requires DurationsNumeric(r)
    ensures Wants(r).Ok?
  {
    forall k | 0 <= k < 4 ensures Missing(r, k).Ok? {
      var t := SlotTime(k);
      assert IsNumber(Get(r, DriveDuration(t))) && IsNumber(Get(r, TrafficDuration(t))) &&
             IsNumber(Get(r, TransitDuration(t)));
    }
  }

  // ---------------------------------------------------------------------------
  // get_times: the schedule

  /** Where `get_times` stands: the call count, the (row, lookup) pairs tried
      so far, and the exception that ended the run, if any. */
  datatype Sched = Sched(calls: int, tried: seq<(nat, nat)>, error: Option<PyError>)

  /** The answers of the four lookups of a row, as `get_travel_time` gives
      them for the row's address. */
  function Lookups(cfg: Config, api: Directions, row: Record): (a: seq<Result<Option<Trip>, PyError>>)
    ensures |a| == 4
  {
    seq(4, k requires 0 <= k < 4 => Attempt(cfg, api, row, k))
  }

  /** The answers for every row of a frame. */
  function Table(cfg: Config, api: Directions, df: seq<Record>): (t: seq<seq<Result<Option<Trip>, PyError>>>)
    ensures |t| == |df| && forall i :: 0 <= i < |df| ==> |t[i]| == 4
  {
    seq(|df|, i requires 0 <= i < |df| => Lookups(cfg, api, df[i]))
  }

  predicate Tabled(df: seq<Record>, table: seq<seq<Result<Option<Trip>, PyError>>>)
  {
    |table| == |df| && forall i :: 0 <= i < |table| ==> |table[i]| == 4
  }

  /** The inner loop of `get_times` for row `i`, from lookup `k` on, with
      `answers` the answers its lookups get. A lookup is made when its flag
      is set and fewer than `number` calls were made; an exception ends the
      run before the call is counted. */
  function RowPass(number: int, wants: seq<bool>, answers: seq<Result<Option<Trip>, PyError>>, i: nat,
                   calls: int, tried: seq<(nat, nat)>, k: nat): (p: Sched)
    requires |wants| == 4 && |answers| == 4 && k <= 4
    ensures calls <= p.calls && (calls < number ==> p.calls <= number) && (calls >= number ==> p.calls == calls)
    ensures |tried| <= |p.tried| && p.calls == calls + (|p.tried| - |tried|)
    ensures forall j :: 0 <= j < |tried| ==> p.tried[j] == tried[j]
    ensures forall j :: |tried| <= j < |p.tried| ==>
              p.tried[j].0 == i && k <= p.tried[j].1 < 4 && wants[p.tried[j].1] && answers[p.tried[j].1].Ok?
    decreases 4 - k
  {
    if k == 4 then Sched(calls, tried, None)
    else if wants[k] && calls < number then
      match answers[k]
      case Err(e) => Sched(calls, tried, Some(e))
      case Ok(_) => RowPass(number, wants, answers, i, calls + 1, tried + [(i, k)], k + 1)
    else RowPass(number, wants, answers, i, calls, tried, k + 1)
  }

  /** The outer loop of `get_times` from row `i` on. The flags of a row are
      read from the row as `iterrows` gives it, which is the row of the frame
      `get_times` started from. */
  function FramePass(number: int, df: seq<Record>, table: seq<seq<Result<Option<Trip>, PyError>>>, i: nat,
                     calls: int, tried: seq<(nat, nat)>): (p: Sched)
    requires i <= |df| && Tabled(df, table)
    ensures calls <= p.calls && (calls < number ==> p.calls <= number) && (calls >= number ==> p.calls == calls)
    ensures |tried| <= |p.tried| && p.calls == calls + (|p.tried| - |tried|)
    ensures forall j :: 0 <= j < |tried| ==> p.tried[j] == tried[j]
    ensures forall j :: |tried| <= j < |p.tried| ==>
              i <= p.tried[j].0 < |df| && p.tried[j].1 < 4 && table[p.tried[j].0][p.tried[j].1].Ok?
    decreases |df| - i
  {
    if i == |df| then Sched(calls, tried, None)
    else
      match Wants(df[i])
      case Err(e) => Sched(calls, tried, Some(e))
      case Ok(w) =>
        var p := RowPass(number, w, table[i], i, calls, tried, 0);
        if p.error.Some? then p else FramePass(number, df, table, i + 1, p.calls, p.tried)
  }

  /** The frame after the writes of the lookups `tried`, in order. */
  function Applied(df: seq<Record>, table: seq<seq<Result<Option<Trip>, PyError>>>, tried: seq<(nat, nat)>): (r: seq<Record>)
    requires Tabled(df, table)
    ensures |r| == |df|
    decreases |tried|
  {
    if tried == [] then df
    else
      var prev := Applied(df, table, tried[..|tried| - 1]);
      var (i, k) := tried[|tried| - 1];
      if i < |df| && k < 4 && table[i][k].Ok? then prev[i := Written(prev[i], k, table[i][k].value)] else prev
  }

  /** The writes of the lookups in `tried` that belong to row `i`, made in
      order to `row`, with `answers` that row's answers. */
  function RowApplied(row: Record, answers: seq<Result<Option<Trip>, PyError>>,
                      tried: seq<(nat, nat)>, i: nat): Record
    requires |answers| == 4
    decreases |tried|
  {
    if tried == [] then row
    else
      var prev := RowApplied(row, answers, tried[..|tried| - 1], i);
      var (r, k) := tried[|tried| - 1];
      if r == i && k < 4 && answers[k].Ok? then Written(prev, k, answers[k].value) else prev
  }

  /** Row by row, the written frame is that row's own writes in the order they
      were made: the writes to other rows do not reach it. */
  lemma {:induction false} AppliedRow(df: seq<Record>, table: seq<seq<Result<Option<Trip>, PyError>>>,
                                      tried: seq<(nat, nat)>, i: nat)
    requires Tabled(df, table) && i < |df|
    ensures Applied(df, table, tried)[i] == RowApplied(df[i], table[i], tried, i)
    decreases |tried|
  {
    if tried != [] {
      AppliedRow(df, table, tried[..|tried| - 1], i);
    }
  }

  /** The lookups of a row fill disjoint duration columns, none of them a
      `google_*` column. */
  lemma FillsDisjoint(k: nat, k': nat, c: Column)
    requires k < 4 && k' < 4 && k != k' && Fills(k, c)
    ensures !Fills(k', c) && !GoogleColumn(c)
  {
  }

  /** Within one row: a failed lookup (`(i, k)` tried, with a number in its
      column beforehand) leaves inf in its column whatever the other lookups
      of the row write, and an untried lookup's column keeps its value. */
  lemma {:induction false} RowAppliedFailure(row: Record, answers: seq<Result<Option<Trip>, PyError>>,
                                             tried: seq<(nat, nat)>, i: nat, k: nat, c: Column)
    requires |answers| == 4 && k < 4 && Fills(k, c) && IsNumber(Get(row, c)) && answers[k] == Ok(None)
    requires forall j1, j2 :: 0 <= j1 < j2 < |tried| ==> tried[j1] != tried[j2]
    ensures (i, k) in tried ==> Get(RowApplied(row, answers, tried, i), c) == Inf
    ensures (i, k) !in tried ==> Get(RowApplied(row, answers, tried, i), c) == Get(row, c)
    decreases |tried|
  {
    if tried != [] {
      var init, last := tried[..|tried| - 1], tried[|tried| - 1];
      assert tried == init + [last];
      assert forall j1, j2 :: 0 <= j1 < j2 < |init| ==> init[j1] != init[j2] by {
        assert forall j :: 0 <= j < |init| ==> init[j] == tried[j];
      }
      RowAppliedFailure(row, answers, init, i, k, c);
      var prev := RowApplied(row, answers, init, i);
      if last == (i, k) {
        assert (i, k) !in init by {
          assert forall j :: 0 <= j < |init| ==> init[j] == tried[j];
        }
        FailureWritesInf(prev, k);
      } else if last.0 == i && last.1 < 4 && answers[last.1].Ok? {
        FillsDisjoint(k, last.1, c);
      }
    }
  }

  /** A row no lookup was tried for is left as it was. */
  lemma {:induction false} AppliedUntouched(df: seq<Record>, table: seq<seq<Result<Option<Trip>, PyError>>>,
                                            tried: seq<(nat, nat)>, i: nat)
    requires Tabled(df, table) && i < |df|
    requires forall j :: 0 <= j < |tried| ==> tried[j].0 != i
    ensures Applied(df, table, tried)[i] == df[i]
    decreases |tried|
  {
    if tried != [] {
      AppliedUntouched(df, table, tried[..|tried| - 1], i);
    }
  }

  /** Whatever lookups are tried, a frame whose durations are numbers keeps
      them numbers, so every row's flags stay readable. */
  lemma {:induction false} AppliedKeepsDurationsNumeric(cfg: Config, api: Directions, df: seq<Record>,
                                                        tried: seq<(nat, nat)>)
    requires forall i :: 0 <= i < |df| ==> DurationsNumeric(df[i])
    ensures forall i :: 0 <= i < |df| ==> DurationsNumeric(Applied(df, Table(cfg, api, df), tried)[i])
    decreases |tried|
  {
    if tried != [] {
      var table := Table(cfg, api, df);
      var init := tried[..|tried| - 1];
      AppliedKeepsDurationsNumeric(cfg, api, df, init);
      var prev := Applied(df, table, init);
      var (i, k) := tried[|tried| - 1];
      if i < |df| && k < 4 && table[i][k].Ok? {
        assert table[i][k] == Attempt(cfg, api, df[i], k);
        WrittenKeepsDurationsNumeric(prev[i], k, table[i][k].value);
      }
    }
  }

  /** `get_times` makes at most `number` calls, and counts each call once. */
  lemma GetTimesBudget(cfg: Config, api: Directions, number: int, df: seq<Record>)
    ensures var p := FramePass(number, df, Table(cfg, api, df), 0, 0, []);
            0 <= p.calls && (number <= 0 ==> p.calls == 0) && (number > 0 ==> p.calls <= number) &&
            p.calls == |p.tried|
  {
  }

  /** Only lookups whose flag `ds_to_get` set are tried; `GetTimesInOrder`
      adds that they come in row order and never twice. */
  lemma {:induction false} OnlyMissingTried(number: int, df: seq<Record>, table: seq<seq<Result<Option<Trip>, PyError>>>,
                                            i: nat, calls: int, tried: seq<(nat, nat)>)
    requires i <= |df| && Tabled(df, table)
    ensures var run := FramePass(number, df, table, i, calls, tried);
            forall j :: |tried| <= j < |run.tried| ==>
              i <= run.tried[j].0 < |df| && run.tried[j].1 < 4 &&
              Missing(df[run.tried[j].0], run.tried[j].1) == Ok(true)
    decreases |df| - i
  {
    if i < |df| && Wants(df[i]).Ok? {
      var w := Wants(df[i]).value;
      var p := RowPass(number, w, table[i], i, calls, tried, 0);
      forall j | |tried| <= j < |p.tried| ensures Missing(df[p.tried[j].0], p.tried[j].1) == Ok(true) {
        assert p.tried[j].0 == i && w[p.tried[j].1];
      }
      if p.error.None? {
        OnlyMissingTried(number, df, table, i + 1, p.calls, p.tried);
        var rest := FramePass(number, df, table, i + 1, p.calls, p.tried);
        assert (var run := FramePass(number, df, table, i + 1, p.calls, p.tried);
            forall j :: |p.tried| <= j < |run.tried| ==>
              i + 1 <= run.tried[j].0 < |df| && run.tried[j].1 < 4 &&
              Missing(df[run.tried[j].0], run.tried[j].1) == Ok(true));
        assert FramePass(number, df, table, i, calls, tried) == rest;
        forall j | |tried| <= j < |rest.tried|
          ensures i <= rest.tried[j].0 < |df| && rest.tried[j].1 < 4 &&
                  Missing(df[rest.tried[j].0], rest.tried[j].1) == Ok(true)
        {
          if j < |p.tried| {
            assert rest.tried[j] == p.tried[j];
            assert Missing(df[p.tried[j].0], p.tried[j].1) == Ok(true);
          } else {
            assert Missing(df[rest.tried[j].0], rest.tried[j].1) == Ok(true);
          }
        }
      }
    }
  }

  /** A row whose remaining flags are clear costs no call. */
  lemma {:induction false} NothingMissingNothingTried(number: int, wants: seq<bool>,
                                                     answers: seq<Result<Option<Trip>, PyError>>, i: nat,
                                                     calls: int, tried: seq<(nat, nat)>, k: nat)
    requires |wants| == 4 && |answers| == 4 && k <= 4
    requires forall j :: k <= j < 4 ==> !wants[j]
    ensures RowPass(number, wants, answers, i, calls, tried, k) == Sched(calls, tried, None)
    decreases 4 - k
  {
    if k < 4 {
      NothingMissingNothingTried(number, wants, answers, i, calls, tried, k + 1);
    }
  }

  /** The lookups of row `i` from `k` on whose flags are set, in order. */
  function WantedFrom(i: nat, wants: seq<bool>, k: nat): seq<(nat, nat)>
    requires |wants| == 4 && k <= 4
    decreases 4 - k
  {
    if k == 4 then [] else (if wants[k] then [(i, k)] else []) + WantedFrom(i, wants, k + 1)
  }

  /** Every flagged lookup from `k` on is among them. */
  lemma {:induction false} WantedFromMembers(i: nat, wants: seq<bool>, k: nat)
    requires |wants| == 4 && k <= 4
    ensures forall j :: k <= j < 4 && wants[j] ==> (i, j) in WantedFrom(i, wants, k)
    decreases 4 - k
  {
    if k < 4 {
      WantedFromMembers(i, wants, k + 1);
    }
  }

  /** Conversely, while the budget lasts and no lookup raises, the inner loop
      makes exactly the lookups whose flags are set, in order. */
  lemma {:induction false} RowPassTriesEveryWanted(number: int, wants: seq<bool>,
                                                   answers: seq<Result<Option<Trip>, PyError>>, i: nat,
                                                   calls: int, tried: seq<(nat, nat)>, k: nat)
    requires |wants| == 4 && |answers| == 4 && k <= 4
    ensures RowPass(number, wants, answers, i, calls, tried, k).error.None? &&
            RowPass(number, wants, answers, i, calls, tried, k).calls < number ==>
              RowPass(number, wants, answers, i, calls, tried, k).tried == tried + WantedFrom(i, wants, k)
    decreases 4 - k, 1
  {
    if k < 4 {
      if wants[k] && calls < number && answers[k].Ok? {
        RowPassMakesLookup(number, wants, answers, i, calls, tried, k);
      } else {
        RowPassTriesEveryWanted(number, wants, answers, i, calls, tried, k + 1);
        assert !wants[k] ==> WantedFrom(i, wants, k) == WantedFrom(i, wants, k + 1);
      }
    }
  }

  /** The step of `RowPassTriesEveryWanted` where lookup `k` is made. */
  lemma {:induction false} RowPassMakesLookup(number: int, wants: seq<bool>,
                                              answers: seq<Result<Option<Trip>, PyError>>, i: nat,
                                              calls: int, tried: seq<(nat, nat)>, k: nat)
    requires |wants| == 4 && |answers| == 4 && k < 4
    requires wants[k] && calls < number && answers[k].Ok?
    ensures RowPass(number, wants, answers, i, calls, tried, k).error.None? &&
            RowPass(number, wants, answers, i, calls, tried, k).calls < number ==>
              RowPass(number, wants, answers, i, calls, tried, k).tried == tried + WantedFrom(i, wants, k)
    decreases 4 - k, 0
  {
    var next := tried + [(i, k)];
    var rest := WantedFrom(i, wants, k + 1);
    assert tried + WantedFrom(i, wants, k) == next + rest by {
      assert WantedFrom(i, wants, k) == [(i, k)] + rest;
    }
    RowPassTriesEveryWanted(number, wants, answers, i, calls + 1, next, k + 1);
  }

  /** While the budget lasts and no lookup raises, `get_times` makes every
      lookup that is missing, in every row from `i` on. */
  lemma {:induction false} FramePassTriesMissing(number: int, df: seq<Record>,
                                                 table: seq<seq<Result<Option<Trip>, PyError>>>,
                                                 i: nat, calls: int, tried: seq<(nat, nat)>, r: nat, k: nat)
    requires Tabled(df, table) && i <= r < |df| && k < 4
    requires Missing(df[r], k) == Ok(true)
    ensures FramePass(number, df, table, i, calls, tried).error.None? &&
            FramePass(number, df, table, i, calls, tried).calls < number ==>
              (r, k) in FramePass(number, df, table, i, calls, tried).tried
    decreases |df| - i
  {
    var whole := FramePass(number, df, table, i, calls, tried);
    if whole.error.None? && whole.calls < number {
      assert Wants(df[i]).Ok?;
      var w := Wants(df[i]).value;
      var p1 := RowPass(number, w, table[i], i, calls, tried, 0);
      assert p1.error.None?;
      var rest := FramePass(number, df, table, i + 1, p1.calls, p1.tried);
      assert whole == rest;
      if r == i {
        RowPassTriesEveryWanted(number, w, table[i], i, calls, tried, 0);
        WantedFromMembers(i, w, 0);
        assert (i, k) in p1.tried by {
          assert w[k];
        }
        PrefixMember(p1.tried, rest.tried, (i, k));
      } else {
        FramePassTriesMissing(number, df, table, i + 1, p1.calls, p1.tried, r, k);
      }
    }
  }

  /** What a sequence holds, a sequence that starts with it holds too. */
  lemma PrefixMember<T>(a: seq<T>, b: seq<T>, x: T)
    requires |a| <= |b| && forall j :: 0 <= j < |a| ==> b[j] == a[j]
    requires x in a
    ensures x in b
  {
    var j :| 0 <= j < |a| && a[j] == x;
    assert b[j] == x;
  }

  /** When `get_times` ends without an exception and with budget left, the
      lookups it made are exactly the ones its rows were missing. */
  lemma GetTimesTriesExactlyMissing(cfg: Config, api: Directions, number: int, df: seq<Record>, r: nat, k: nat)
    requires r < |df| && k < 4
    ensures FramePass(number, df, Table(cfg, api, df), 0, 0, []).error.None? &&
            FramePass(number, df, Table(cfg, api, df), 0, 0, []).calls < number ==>
              ((r, k) in FramePass(number, df, Table(cfg, api, df), 0, 0, []).tried <==> Missing(df[r], k) == Ok(true))
  {
    var table := Table(cfg, api, df);
    var p := FramePass(number, df, table, 0, 0, []);
    if (r, k) in p.tried {
      OnlyMissingTried(number, df, table, 0, 0, []);
      var j :| 0 <= j < |p.tried| && p.tried[j] == (r, k);
    }
    if Missing(df[r], k) == Ok(true) {
      FramePassTriesMissing(number, df, table, 0, 0, [], r, k);
    }
  }

  /** Lookup `a` comes before lookup `b` in the order `get_times` visits
      them: an earlier row, or the same row and a lower lookup index. */
  predicate Before(a: (nat, nat), b: (nat, nat))
  {
    a.0 < b.0 || (a.0 == b.0 && a.1 < b.1)
  }

  predicate Increasing(s: seq<(nat, nat)>)
  {
    forall j :: 0 < j < |s| ==> Before(s[j - 1], s[j])
  }

  lemma AppendIncreasing(s: seq<(nat, nat)>, x: (nat, nat))
    requires Increasing(s) && (s == [] || Before(s[|s| - 1], x))
    ensures Increasing(s + [x])
  {
    assert forall j :: 0 <= j < |s| ==> (s + [x])[j] == s[j];
  }

  /** The inner loop appends its lookups in index order after everything
      tried before lookup `k` of row `i`. */
  lemma {:induction false} RowPassIncreasing(number: int, wants: seq<bool>,
                                             answers: seq<Result<Option<Trip>, PyError>>, i: nat,
                                             calls: int, tried: seq<(nat, nat)>, k: nat)
    requires |wants| == 4 && |answers| == 4 && k <= 4
    requires Increasing(tried) && (tried == [] || Before(tried[|tried| - 1], (i, k)))
    ensures Increasing(RowPass(number, wants, answers, i, calls, tried, k).tried)
    decreases 4 - k
  {
    if k < 4 {
      if wants[k] && calls < number {
        if answers[k].Ok? {
          AppendIncreasing(tried, (i, k));
          RowPassIncreasing(number, wants, answers, i, calls + 1, tried + [(i, k)], k + 1);
        }
      } else {
        RowPassIncreasing(number, wants, answers, i, calls, tried, k + 1);
      }
    }
  }

  /** The outer loop appends rows in frame order after everything tried in
      the rows before `i`. */
  lemma {:induction false} FramePassIncreasing(number: int, df: seq<Record>,
                                               table: seq<seq<Result<Option<Trip>, PyError>>>,
                                               i: nat, calls: int, tried: seq<(nat, nat)>)
    requires i <= |df| && Tabled(df, table)
    requires Increasing(tried) && (tried == [] || tried[|tried| - 1].0 < i)
    ensures Increasing(FramePass(number, df, table, i, calls, tried).tried)
    decreases |df| - i
  {
    if i < |df| && Wants(df[i]).Ok? {
      var w := Wants(df[i]).value;
      RowPassIncreasing(number, w, table[i], i, calls, tried, 0);
      var p := RowPass(number, w, table[i], i, calls, tried, 0);
      if p.error.None? {
        assert p.tried == [] || p.tried[|p.tried| - 1].0 < i + 1 by {
          if |p.tried| > |tried| {
            assert p.tried[|p.tried| - 1].0 == i;
          } else if p.tried != [] {
            assert p.tried[|p.tried| - 1] == tried[|tried| - 1];
          }
        }
        FramePassIncreasing(number, df, table, i + 1, p.calls, p.tried);
      }
    }
  }

  /** Adjacent order is order throughout. */
  lemma {:induction false} IncreasingOrdered(s: seq<(nat, nat)>)
    requires Increasing(s)
    ensures forall j1, j2 :: 0 <= j1 < j2 < |s| ==> Before(s[j1], s[j2])
    decreases |s|
  {
    if |s| > 1 {
      var init := s[..|s| - 1];
      assert Increasing(init) by {
        assert forall j :: 0 <= j < |init| ==> init[j] == s[j];
      }
      IncreasingOrdered(init);
      forall j1, j2 | 0 <= j1 < j2 < |s| ensures Before(s[j1], s[j2]) {
        if j2 < |s| - 1 {
          assert init[j1] == s[j1] && init[j2] == s[j2];
        } else if j1 < |s| - 2 {
          assert init[j1] == s[j1] && init[|s| - 2] == s[|s| - 2];
          assert Before(s[j1], s[|s| - 2]) && Before(s[|s| - 2], s[j2]);
        }
      }
    }
  }

  /** `get_times` visits the frame in row order and each row's lookups in
      index order, so no lookup is made twice. */
  lemma GetTimesInOrder(cfg: Config, api: Directions, number: int, df: seq<Record>)
    ensures forall j1, j2 :: 0 <= j1 < j2 < |FramePass(number, df, Table(cfg, api, df), 0, 0, []).tried| ==>
              FramePass(number, df, Table(cfg, api, df), 0, 0, []).tried[j1].0 <=
                FramePass(number, df, Table(cfg, api, df), 0, 0, []).tried[j2].0 &&
              FramePass(number, df, Table(cfg, api, df), 0, 0, []).tried[j1] !=
                FramePass(number, df, Table(cfg, api, df), 0, 0, []).tried[j2]
  {
    var run := FramePass(number, df, Table(cfg, api, df), 0, 0, []);
    FramePassIncreasing(number, df, Table(cfg, api, df), 0, 0, []);
    IncreasingOrdered(run.tried);
  }

  /** In the frame `get_times` leaves, the column of a lookup it made that
      failed holds inf, when it held a number before the run. */
  lemma GetTimesFailureLeavesInf(cfg: Config, api: Directions, number: int, df: seq<Record>,
                                 i: nat, k: nat, c: Column)
    requires i < |df| && k < 4 && Fills(k, c) && IsNumber(Get(df[i], c))
    requires Attempt(cfg, api, df[i], k) == Ok(None)
    ensures (i, k) in FramePass(number, df, Table(cfg, api, df), 0, 0, []).tried ==>
              Get(Applied(df, Table(cfg, api, df), FramePass(number, df, Table(cfg, api, df), 0, 0, []).tried)[i], c) == Inf
  {
    var table := Table(cfg, api, df);
    var run := FramePass(number, df, table, 0, 0, []);
    GetTimesInOrder(cfg, api, number, df);
    assert table[i][k] == Ok(None);
    AppliedRow(df, table, run.tried, i);
    RowAppliedFailure(df[i], table[i], run.tried, i, k, c);
  }

  /** The (row, lookup) pairs whose `ds_to_get` flag is set in a frame. */
  function MissingLookups(df: seq<Record>): set<(nat, nat)>
  {
    set r: nat, k: nat | r < |df| && k < 4 && Missing(df[r], k) == Ok(true) :: (r, k)
  }

  lemma MissingLookupsHas(df: seq<Record>, r: nat, k: nat)
    requires r < |df| && k < 4 && Missing(df[r], k) == Ok(true)
    ensures (r, k) in MissingLookups(df)
  {
  }

  lemma MissingLookupsOf(df: seq<Record>, x: (nat, nat))
    requires x in MissingLookups(df)
    ensures x.0 < |df| && x.1 < 4 && Missing(df[x.0], x.1) == Ok(true)
  {
  }

  /** A sequence without repeats has as many members as entries. */
  lemma {:induction false} DistinctCard(s: seq<(nat, nat)>)
    requires forall j1, j2 :: 0 <= j1 < j2 < |s| ==> s[j1] != s[j2]
    ensures |set x | x in s| == |s|
    decreases |s|
  {
    if s != [] {
      var tail := s[1..];
      assert forall j1, j2 :: 0 <= j1 < j2 < |tail| ==> tail[j1] != tail[j2] by {
        assert forall j :: 0 <= j < |tail| ==> tail[j] == s[j + 1];
      }
      DistinctCard(tail);
      assert s[0] !in tail by {
        assert forall j :: 0 <= j < |tail| ==> tail[j] == s[j + 1];
      }
      assert (set x | x in s) == {s[0]} + (set x | x in tail);
    }
  }

  /** A sequence without repeats is as long as the set of its members. */
  lemma DistinctMembersCard(s: seq<(nat, nat)>, m: set<(nat, nat)>)
    requires forall j1, j2 :: 0 <= j1 < j2 < |s| ==> s[j1] != s[j2]
    requires forall x :: x in s <==> x in m
    ensures |s| == |m|
  {
    DistinctCard(s);
    assert (set x | x in s) == m;
  }

  /** A list of lookups without repeats that holds exactly the missing ones
      is as long as there are missing lookups. */
  lemma DistinctMissingCard(df: seq<Record>, tried: seq<(nat, nat)>)
    requires forall j1, j2 :: 0 <= j1 < j2 < |tried| ==> tried[j1] != tried[j2]
    requires forall j :: 0 <= j < |tried| ==>
               tried[j].0 < |df| && tried[j].1 < 4 && Missing(df[tried[j].0], tried[j].1) == Ok(true)
    requires forall x :: x in MissingLookups(df) ==> x in tried
    ensures |tried| == |MissingLookups(df)|
  {
    forall x | x in tried ensures x in MissingLookups(df) {
      var j :| 0 <= j < |tried| && tried[j] == x;
      MissingLookupsHas(df, tried[j].0, tried[j].1);
    }
    DistinctMembersCard(tried, MissingLookups(df));
  }

  /** When `get_times` ends without an exception and with budget left, it has
      made one call per missing lookup of the frame. */
  lemma GetTimesCallsMissing(cfg: Config, api: Directions, number: int, df: seq<Record>)
    ensures FramePass(number, df, Table(cfg, api, df), 0, 0, []).error.None? &&
            FramePass(number, df, Table(cfg, api, df), 0, 0, []).calls < number ==>
              FramePass(number, df, Table(cfg, api, df), 0, 0, []).calls == |MissingLookups(df)|
  {
    var table := Table(cfg, api, df);
    var run := FramePass(number, df, table, 0, 0, []);
    if run.error.None? && run.calls < number {
      GetTimesBudget(cfg, api, number, df);
      GetTimesInOrder(cfg, api, number, df);
      OnlyMissingTried(number, df, table, 0, 0, []);
      forall x | x in MissingLookups(df) ensures x in run.tried {
        MissingLookupsOf(df, x);
        GetTimesTriesExactlyMissing(cfg, api, number, df, x.0, x.1);
      }
      DistinctMissingCard(df, run.tried);
    }
  }

  // ---------------------------------------------------------------------------
  // the object

  class AttGoogleApi {
    const config: Config
    var df: seq<Record>

    /** The object built with the given departure times over a frame already
        in memory. */
    constructor (morningTime: int, eveningTime: int, frame: seq<Record>)
      ensures config == MakeConfig(morningTime, eveningTime) && df == frame
    {
      config := MakeConfig(morningTime, eveningTime);
      df := frame;
    }

    /** `add_data_to_df`: one cell takes the new value `AddData` gives it;
        every other cell keeps its value. */
    method AddDataToDf(index: nat, column: Column, data: Cell)
      requires index < |df|
      modifies this
      ensures df == old(df)[index := StoreCell(old(df)[index], column, data)]
    {
      var cell := Get(df[index], column);
      df := df[index := df[index][column := AddData(cell, data)]];
    }

    /** `process_data`, stage by stage, keeping the completed stages when one
        raises. */
    method ProcessData() returns (error: Option<PyError>)
      requires PricesModelled(df)
      modifies this
      ensures Outcome(df, error) == Processed(old(df))
    {
      if |df| < 1 || CheckDf(df) {
        return None;
      }
      ghost var start := df;
      df := Keep(df, ForSaleOrSold);
      KeptPricesModelled(start);
      var ids := ConvertColumn(df, ZillowId, ToInt);
      if ids.Err? {
        return Some(ids.error);
      }
      ConvertedPricesModelled(df, ZillowId, ToInt);
      df := ids.value;
      var zips := ConvertColumn(df, ZillowZipcode, ToInt);
      if zips.Err? {
        return Some(zips.error);
      }
      ConvertedPricesModelled(df, ZillowZipcode, ToInt);
      df := zips.value;
      var dates := ConvertColumn(df, DateScraped, ToDate);
      if dates.Err? {
        return Some(dates.error);
      }
      ConvertedPricesModelled(df, DateScraped, ToDate);
      df := dates.value;
      var prices := ConvertColumn(df, ZillowPrice, ToPrice);
      if prices.Err? {
        return Some(prices.error);
      }
      df := AddLocation(prices.value);
      df := Keep(df, HasAddress);
      return None;
    }

    /** The writes `get_times` makes after lookup `k` of row `index`. */
    method RecordOutcome(index: nat, k: nat, data: Option<Trip>)
      requires index < |df| && k < 4
      modifies this
      ensures df == old(df)[index := Written(old(df)[index], k, data)]
    {
      var time, mode := SlotTime(k), SlotMode(k);
      if data.None? {
        if mode == "driving" {
          AddDataToDf(index, DriveDuration(time), Inf);
          AddDataToDf(index, TrafficDuration(time), Inf);
        }
        if mode == "transit" {
          AddDataToDf(index, TransitDuration(time), Inf);
        }
        return;
      }
      var trip := data.value;
      var tag := TimeName(time) + ":" + mode + ":";
      AddDataToDf(index, StartAddress, Text(tag + trip.startAddress));
      AddDataToDf(index, StartLocation, Text(tag + trip.startLocation));
      AddDataToDf(index, EndAddress, Text(tag + trip.endAddress));
      AddDataToDf(index, EndLocation, Text(tag + trip.endLocation));
      if mode == "driving" {
        AddDataToDf(index, DriveDuration(time), Num(trip.duration));
        AddDataToDf(index, TrafficDuration(time), trip.durationInTraffic);
      }
      if mode == "transit" {
        AddDataToDf(index, TransitDuration(time), Num(trip.duration));
      }
    }

    /** One turn of the inner loop of `get_times`: lookup `k` of row `index`,
        made when its flag is set and the budget allows, and its writes. */
    method LookupSlot(api: Directions, number: int, index: nat, row: Record, wants: seq<bool>, k: nat,
                      calls0: int, ghost df0: seq<Record>, ghost table: seq<seq<Result<Option<Trip>, PyError>>>,
                      ghost tried0: seq<(nat, nat)>)
      returns (calls: int, error: Option<PyError>, ghost tried: seq<(nat, nat)>)
      requires Tabled(df0, table) && index < |df0| && |wants| == 4 && k < 4
      requires table[index] == Lookups(config, api, row)
      requires df == Applied(df0, table, tried0)
      modifies this
      ensures df == Applied(df0, table, tried)
      ensures var p := RowPass(number, wants, table[index], index, calls0, tried0, k);
              if error.None? then RowPass(number, wants, table[index], index, calls, tried, k + 1) == p
              else Sched(calls, tried, error) == p
    {
      calls, error, tried := calls0, None, tried0;
      if wants[k] && calls < number {
        var data := Attempt(config, api, row, k);
        assert data == table[index][k];
        if data.Err? {
          error := Some(data.error);
        } else {
          assert (tried + [(index, k)])[..|tried|] == tried;
          ghost var before := df;
          calls, tried := calls + 1, tried + [(index, k)];
          RecordOutcome(index, k, data.value);
          assert df == before[index := Written(before[index], k, table[index][k].value)];
        }
      }
    }

    /** The inner loop of `get_times` over the four flags of row `index`;
        `row` is the row as `iterrows` gave it. */
    method UpdateRow(api: Directions, number: int, index: nat, row: Record, wants: seq<bool>, calls0: int,
                     ghost df0: seq<Record>, ghost table: seq<seq<Result<Option<Trip>, PyError>>>,
                     ghost tried0: seq<(nat, nat)>)
      returns (calls: int, error: Option<PyError>, ghost tried: seq<(nat, nat)>)
      requires Tabled(df0, table) && index < |df0| && |wants| == 4
      requires table[index] == Lookups(config, api, row)
      requires df == Applied(df0, table, tried0)
      modifies this
      ensures var p := RowPass(number, wants, table[index], index, calls0, tried0, 0);
              calls == p.calls && error == p.error && tried == p.tried
      ensures df == Applied(df0, table, tried)
    {
      ghost var whole := RowPass(number, wants, table[index], index, calls0, tried0, 0);
      calls, error, tried := calls0, None, tried0;
      var k := 0;
      while k < 4 && error.None?
        invariant 0 <= k <= 4 && df == Applied(df0, table, tried)
        invariant error.None? ==> RowPass(number, wants, table[index], index, calls, tried, k) == whole
        invariant error.Some? ==> Sched(calls, tried, error) == whole
        decreases 4 - k
      {
        calls, error, tried := LookupSlot(api, number, index, row, wants, k, calls, df0, table, tried);
        k := k + 1;
      }
    }

    /** One turn of the outer loop of `get_times`: the flags of row `i` and
        its lookups. */
    method VisitRow(api: Directions, number: int, i: nat, calls0: int, ghost df0: seq<Record>,
                    ghost table: seq<seq<Result<Option<Trip>, PyError>>>, ghost tried0: seq<(nat, nat)>)
      returns (calls: int, error: Option<PyError>, ghost tried: seq<(nat, nat)>)
      requires table == Table(config, api, df0) && i < |df0|
      requires df == Applied(df0, table, tried0) && forall j :: 0 <= j < |tried0| ==> tried0[j].0 < i
      modifies this
      ensures df == Applied(df0, table, tried) && forall j :: 0 <= j < |tried| ==> tried[j].0 <= i
      ensures var p := FramePass(number, df0, table, i, calls0, tried0);
              if error.None? then FramePass(number, df0, table, i + 1, calls, tried) == p
              else Sched(calls, tried, error) == p
    {
      AppliedUntouched(df0, table, tried0, i);
      var row := df[i];
      var wants := Wants(row);
      if wants.Err? {
        calls, error, tried := calls0, Some(wants.error), tried0;
      } else {
        assert table[i] == Lookups(config, api, row);
        calls, error, tried := UpdateRow(api, number, i, row, wants.value, calls0, df0, table, tried0);
      }
    }

    /** `get_times`: walks the rows, makes the lookups their flags ask for
        while the budget of `number` calls lasts, and returns the number of
        calls made (with the exception that ended the run, if any). */
    method GetTimes(api: Directions, number: int) returns (calls: int, error: Option<PyError>)
      modifies this
      ensures var table := Table(config, api, old(df));
              var p := FramePass(number, old(df), table, 0, 0, []);
              calls == p.calls && error == p.error && df == Applied(old(df), table, p.tried)
    {
      ghost var df0 := df;
      ghost var table := Table(config, api, df);
      ghost var whole := FramePass(number, df0, table, 0, 0, []);
      ghost var tried: seq<(nat, nat)> := [];
      calls, error := 0, None;
      var i := 0;
      while i < |df| && error.None?
        invariant 0 <= i <= |df| == |df0| && df == Applied(df0, table, tried)
        invariant forall j :: 0 <= j < |tried| ==> tried[j].0 < i
        invariant error.None? ==> FramePass(number, df0, table, i, calls, tried) == whole
        invariant error.Some? ==> Sched(calls, tried, error) == whole
      {
        calls, error, tried := VisitRow(api, number, i, calls, df0, table, tried);
        i := i + 1;
      }
    }
  }
}
