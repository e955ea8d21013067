/** The pure parts of `ATTGoogleAPI` (google_api.py): the price normaliser,
    the coordinate formatter, the argument handling of `get_travel_time` and
    the address-chopping retry of `google_dir_wrapper`. The Google directions
    service is a map from query to reply. */
module Travel {
  import opened PyText
  import opened Frame

  /** The exceptions the modelled code can raise. */
  datatype PyError = IndexError | ValueError | TypeError | UnboundLocalError | Timeout

  // ---------------------------------------------------------------------------
  // configuration set by the constructor

  /** Departure for work, 8:00 AM PST on Feb 26, 2019, in seconds since 1970. */
  const DefaultMorningTime: int := 1551196800
  /** Departure for home, 5:30 PM PST the same day. */
  const DefaultEveningTime: int := 1551234600
  const SlacAddress := "2575 Sand Hill Rd, Menlo Park, CA 94025"
  const DefaultLocation := "37.342957,-122.0108682"

  datatype Config = Config(morningTime: int, eveningTime: int, slacAddress: string, defaultLocation: string)

  /** The settings of an `ATTGoogleAPI` built with the given departure times. */
  function MakeConfig(morningTime: int, eveningTime: int): (cfg: Config)
    ensures cfg.morningTime == morningTime && cfg.eveningTime == eveningTime
    ensures cfg.slacAddress == SlacAddress && cfg.defaultLocation == DefaultLocation
  {
    Config(morningTime, eveningTime, SlacAddress, DefaultLocation)
  }

  // ---------------------------------------------------------------------------
  // price_filter

  /** The prices this model covers: one ending in `M` goes through `float()`
      in the source, and only an integer mantissa that `float()` also accepts
      (no whitespace between sign and digits) is modelled. */
  predicate PriceModelled(s: string)
  {
    s != [] && s[|s| - 1] == 'M' ==> ParseInt(s[..|s| - 1]).Some? && NoSpaceAfterSign(s[..|s| - 1])
  }

  /** No sign is followed by whitespace. */
  predicate NoSpaceAfterSign(s: string)
  {
    forall i :: 0 <= i < |s| - 1 && (s[i] == '-' || s[i] == '+') ==> s[i + 1] !in Whitespace
  }

  /** `int()` of a string, with the ValueError it raises. */
  function IntOf(s: string): (r: Result<int, PyError>)
    ensures r.Ok? <==> ParseInt(s).Some?
    ensures r.Ok? ==> r.value == ParseInt(s).value
    ensures r.Err? ==> r.error == ValueError
  {
    match ParseInt(s)
    case Some(v) => Ok(v)
    case None => Err(ValueError)
  }

  /** `price_filter`: a price text as an integer. `K` appends three zeros, a
      trailing `+` is dropped, `M` multiplies by a million, and anything else
      is read as it stands. */
  function PriceFilter(s: string): (r: Result<int, PyError>)
    requires PriceModelled(s)
    ensures s == [] <==> r == Err(IndexError)
    ensures r.Err? ==> r.error == IndexError || r.error == ValueError
  {
    if s == [] then Err(IndexError)
    else
      var body, last := s[..|s| - 1], s[|s| - 1];
      if last == 'K' then IntOf(body + "000")
      else if last == '+' then IntOf(body)
      else if last == 'M' then Ok(ParseInt(body).value * 1000000)
      else IntOf(s)
  }

  lemma ThreeZeros()
    ensures AllDigits("000") && DigitsValue("000") == 0 && Pow10(|"000"|) == 1000
  {
    assert "000"[..2] == "00" && "00"[..1] == "0" && "0"[..0] == "";
  }

  /** `700K` is 700000: the digits before `K`, times a thousand. */
  lemma PriceFilterThousands(d: string)
    requires d != [] && AllDigits(d)
    ensures PriceFilter(d + "K") == Ok(DigitsValue(d) * 1000)
  {
    var s := d + "K";
    assert s[..|s| - 1] == d && s[|s| - 1] == 'K';
    assert PriceFilter(s) == IntOf(d + "000");
    ThreeZeros();
    DigitsValueAppend(d, "000");
    var v := DigitsValue(d + "000");
    assert v == DigitsValue(d) * 1000;
    ParseDigits(d + "000");
  }

  /** `450000+` is 450000: the trailing `+` is dropped. */
  lemma PriceFilterAtLeast(d: string)
    requires d != [] && AllDigits(d)
    ensures PriceFilter(d + "+") == Ok(DigitsValue(d))
  {
    var s := d + "+";
    assert s[..|s| - 1] == d;
    ParseDigits(d);
  }

  /** `2M` is 2000000. */
  lemma PriceFilterMillions(d: string)
    requires d != [] && AllDigits(d)
    ensures PriceModelled(d + "M") && PriceFilter(d + "M") == Ok(DigitsValue(d) * 1000000)
  {
    var s := d + "M";
    assert s[..|s| - 1] == d;
    ParseDigits(d);
    assert NoSpaceAfterSign(d) by {
      forall i | 0 <= i < |d| - 1 ensures d[i] != '-' && d[i] != '+' { assert IsDigit(d[i]); }
    }
  }

  /** A plain digit string is read as the number it denotes. */
  lemma PriceFilterPlain(d: string)
    requires d != [] && AllDigits(d)
    ensures PriceFilter(d) == Ok(DigitsValue(d))
  {
    var last := d[|d| - 1];
    assert IsDigit(last);
    assert last != 'K' && last != '+' && last != 'M';
    ParseDigits(d);
    assert IntOf(d) == Ok(DigitsValue(d));
  }

  /** The partner of `str()`: a price printed as a whole number, with or
      without the `K` suffix of thousands, is read back exactly. */
  lemma PriceFilterOfPrinted(n: nat)
    ensures PriceFilter(NatToString(n)) == Ok(n)
    ensures PriceFilter(NatToString(n) + "K") == Ok(n * 1000)
  {
    PriceFilterPlain(NatToString(n));
    PriceFilterThousands(NatToString(n));
  }

  /** A price that still carries its dollar sign is not a number. */
  lemma PriceFilterDollar(d: string)
    requires d != [] && AllDigits(d)
    ensures PriceFilter("$" + d) == Err(ValueError)
  {
    var s := "$" + d;
    assert IsDigit(s[|s| - 1]);
    var t := Strip(s, Whitespace);
    StripUnchanged(s, Whitespace);
    assert t[0] == '$';
  }

  // ---------------------------------------------------------------------------
  // convert_coords

  /** The first argument of `convert_coords`: a value, or a Google location
      dictionary holding both coordinates. */
  datatype Coordinate = Plain(c: Cell) | LocationDict(lat: Cell, lng: Cell)

  /** `convert_coords`: `str()` of latitude and longitude joined by a comma. A
      location dictionary supplies both and the second argument is ignored. */
  function ConvertCoords(lat: Coordinate, lng: Cell): (r: string)
    ensures lat.Plain? ==> r == CellStr(lat.c) + "," + CellStr(lng)
    ensures lat.LocationDict? ==> r == CellStr(lat.lat) + "," + CellStr(lat.lng)
  {
    match lat
    case LocationDict(a, b) => JoinTwo(CellStr(a), CellStr(b)); Join(',', [CellStr(a), CellStr(b)])
    case Plain(a) => JoinTwo(CellStr(a), CellStr(lng)); Join(',', [CellStr(a), CellStr(lng)])
  }

  /** `','.join` of two parts puts one comma between them. */
  lemma JoinTwo(a: string, b: string)
    ensures Join(',', [a, b]) == a + "," + b
  {
    assert [a, b][1..] == [b];
    assert Join(',', [b]) == b;
    assert Join(',', [a, b]) == a + [','] + b;
  }

  /** Splitting the result on commas gives back the two coordinates when
      neither holds a comma. */
  lemma ConvertCoordsSplits(lat: Cell, lng: Cell)
    requires ',' !in CellStr(lat) && ',' !in CellStr(lng)
    ensures Split(ConvertCoords(Plain(lat), lng), ',') == [CellStr(lat), CellStr(lng)]
  {
    SplitJoin([CellStr(lat), CellStr(lng)], ',');
  }

  /** A location dictionary gives the same text as its two entries passed
      separately, whatever the second argument. */
  lemma ConvertCoordsOfDict(lat: Cell, lng: Cell, ignored: Cell)
    ensures ConvertCoords(LocationDict(lat, lng), ignored) == ConvertCoords(Plain(lat), lng)
  {
  }

  // ---------------------------------------------------------------------------
  // the directions service and google_dir_wrapper

  datatype Query = Query(origin: string, destination: string, departureTime: int, mode: string)

  /** The first leg of the first route of a directions reply; coordinates are
      the entries of Google's location dictionaries. */
  datatype Leg = Leg(
    startAddress: string, startLat: Cell, startLng: Cell,
    endAddress: string, endLat: Cell, endLng: Cell,
    duration: int,
    durationInTraffic: Option<int>)

  /** What a directions call does: return the routes (possibly none), or
      raise ApiError or Timeout. */
  datatype Reply = Routes(legs: seq<Leg>) | ApiError | RequestTimeout

  /** The directions service. A query it has no entry for finds no route. */
  type Directions = map<Query, Reply>

  function Ask(api: Directions, q: Query): Reply
  {
    if q in api then api[q] else Routes([])
  }

  /** The query retried after an ApiError: the first space-separated word (the
      house number) is removed from the endpoint that is not SLAC; time and
      mode are kept. */
  function RetryQuery(slac: string, q: Query): (r: Query)
    ensures r.departureTime == q.departureTime && r.mode == q.mode
    ensures q.origin == slac ==> r.origin == q.origin && r.destination == DropFirstWord(q.destination)
    ensures q.origin != slac ==> r.destination == q.destination && r.origin == DropFirstWord(q.origin)
  {
    if q.origin == slac then q.(destination := DropFirstWord(q.destination))
    else q.(origin := DropFirstWord(q.origin))
  }

  /** Going home, the retry drops the house number of the destination. */
  lemma RetryChopsHome(slac: string, number: string, rest: string, time: int, mode: string)
    requires ' ' !in number
    ensures RetryQuery(slac, Query(slac, number + " " + rest, time, mode)) == Query(slac, rest, time, mode)
  {
    DropFirstWordOf(number, rest);
  }

  /** Going to work, the retry drops the house number of the origin. */
  lemma RetryChopsStart(slac: string, number: string, rest: string, dest: string, time: int, mode: string)
    requires ' ' !in number && number + " " + rest != slac
    ensures RetryQuery(slac, Query(number + " " + rest, dest, time, mode)) == Query(rest, dest, time, mode)
  {
    DropFirstWordOf(number, rest);
  }

  /** The queries `google_dir_wrapper` sends: the given one, and the retry
      only after an ApiError. */
  function Consulted(api: Directions, slac: string, q: Query): (qs: seq<Query>)
    ensures 1 <= |qs| <= 2 && qs[0] == q
    ensures |qs| == 2 <==> Ask(api, q) == ApiError
    ensures |qs| == 2 ==> qs[1] == RetryQuery(slac, q)
  {
    if Ask(api, q) == ApiError then [q, RetryQuery(slac, q)] else [q]
  }

  /** `google_dir_wrapper`: the routes found, an empty answer when the retry
      also meets an ApiError, or the Timeout re-raised. */
  function DirWrapper(api: Directions, slac: string, q: Query): (r: Result<seq<Leg>, PyError>)
    ensures r.Err? ==> r.error == Timeout
    ensures r.Err? <==> Ask(api, q) == RequestTimeout ||
                        (Ask(api, q) == ApiError && Ask(api, RetryQuery(slac, q)) == RequestTimeout)
  {
    match Ask(api, q)
    case RequestTimeout => Err(Timeout)
    case Routes(legs) => Ok(legs)
    case ApiError =>
      match Ask(api, RetryQuery(slac, q))
      case Routes(legs) => Ok(legs)
      case ApiError => Ok([])
      case RequestTimeout => Err(Timeout)
  }

  /** The answer of `google_dir_wrapper` depends only on the replies to the
      queries it sends. */
  lemma DirWrapperDependsOnConsulted(api: Directions, other: Directions, slac: string, q: Query)
    requires forall i :: 0 <= i < |Consulted(api, slac, q)| ==>
               Ask(api, Consulted(api, slac, q)[i]) == Ask(other, Consulted(api, slac, q)[i])
    ensures DirWrapper(api, slac, q) == DirWrapper(other, slac, q)
  {
    var qs := Consulted(api, slac, q);
    assert Ask(api, qs[0]) == Ask(other, qs[0]);
    if Ask(api, q) == ApiError {
      assert Ask(api, qs[1]) == Ask(other, qs[1]);
    }
  }

  // ---------------------------------------------------------------------------
  // get_travel_time

  /** The `departure_time` argument: a name, or seconds since 1970. */
  datatype Departure = Named(name: string) | Seconds(t: int)

  /** What a successful lookup returns. `durationInTraffic` is a number or inf
      for driving and None for transit. */
  datatype Trip = Trip(
    startAddress: string, startLocation: string,
    endAddress: string, endLocation: string,
    duration: int, durationInTraffic: Cell)

  predicate ValidMode(mode: string)
  {
    mode == "driving" || mode == "transit"
  }

  /** The location used by `get_travel_time`: the given one, or the default
      location when it is None or empty. */
  function Endpoint(cfg: Config, location: Option<string>): (e: string)
    ensures location.None? || location.value == "" ==> e == cfg.defaultLocation
    ensures location.Some? && location.value != "" ==> e == location.value
  {
    if location.None? || location.value == "" then cfg.defaultLocation else location.value
  }

  /** The query `get_travel_time` builds, as written: a numeric departure time
      passes the checks but leaves `origin` and `destination` unassigned, so
      the call raises UnboundLocalError. */
  function TravelQueryAsWritten(cfg: Config, location: Option<string>, departure: Departure, mode: string): (r: Result<Query, PyError>)
    ensures r.Ok? ==> departure == Named("morning") || departure == Named("evening")
    ensures r.Ok? ==> ValidMode(r.value.mode) && r.value.mode == mode
    ensures r.Err? ==> r.error == ValueError || r.error == UnboundLocalError
  {
    var loc := Endpoint(cfg, location);
    if departure == Named("morning") then
      if ValidMode(mode) then Ok(Query(loc, cfg.slacAddress, cfg.morningTime, mode)) else Err(ValueError)
    else if departure == Named("evening") then
      if ValidMode(mode) then Ok(Query(cfg.slacAddress, loc, cfg.eveningTime, mode)) else Err(ValueError)
    else if departure.Named? && ParseInt(departure.name).None? then Err(ValueError)
    else if !ValidMode(mode) then Err(ValueError)
    else Err(UnboundLocalError)
  }

  /** The query `get_travel_time` is meant to build: a numeric departure time
      is a trip from the location to SLAC leaving at that time. */
  function TravelQuery(cfg: Config, location: Option<string>, departure: Departure, mode: string): (r: Result<Query, PyError>)
    ensures r.Ok? ==> ValidMode(r.value.mode) && r.value.mode == mode
    ensures r.Err? ==> r.error == ValueError
    ensures departure.Seconds? && ValidMode(mode) ==> r.Ok?
  {
    var loc := Endpoint(cfg, location);
    if departure == Named("morning") then
      if ValidMode(mode) then Ok(Query(loc, cfg.slacAddress, cfg.morningTime, mode)) else Err(ValueError)
    else if departure == Named("evening") then
      if ValidMode(mode) then Ok(Query(cfg.slacAddress, loc, cfg.eveningTime, mode)) else Err(ValueError)
    else
      var time := if departure.Seconds? then Some(departure.t) else ParseInt(departure.name);
      if time.None? then Err(ValueError)
      else if !ValidMode(mode) then Err(ValueError)
      else Ok(Query(loc, cfg.slacAddress, time.value, mode))
  }

  /** As written, every numeric departure time with a valid mode fails, where
      the corrected query goes from the location to SLAC at that time. */
  lemma NumericDepartureUnbound(cfg: Config, location: Option<string>, t: int, mode: string)
    requires ValidMode(mode)
    ensures TravelQueryAsWritten(cfg, location, Seconds(t), mode) == Err(UnboundLocalError)
    ensures TravelQuery(cfg, location, Seconds(t), mode) == Ok(Query(Endpoint(cfg, location), cfg.slacAddress, t, mode))
  {
  }

  /** The two agree on everything but numeric departure times. */
  lemma TravelQueryAgreesWhenNamed(cfg: Config, location: Option<string>, departure: Departure, mode: string)
    requires departure == Named("morning") || departure == Named("evening") || !ValidMode(mode) ||
             (departure.Named? && ParseInt(departure.name).None?)
    ensures TravelQueryAsWritten(cfg, location, departure, mode) == TravelQuery(cfg, location, departure, mode)
  {
  }

  /** Morning: from the location to SLAC at the morning time. */
  lemma MorningQuery(cfg: Config, location: Option<string>, mode: string)
    requires ValidMode(mode)
    ensures TravelQuery(cfg, location, Named("morning"), mode) ==
            Ok(Query(Endpoint(cfg, location), cfg.slacAddress, cfg.morningTime, mode))
  {
  }

  /** Evening is morning with origin and destination swapped, at the evening
      time. */
  lemma EveningSwapsMorning(cfg: Config, location: Option<string>, mode: string)
    requires ValidMode(mode)
    ensures var m := TravelQuery(cfg, location, Named("morning"), mode).value;
            TravelQuery(cfg, location, Named("evening"), mode) ==
            Ok(m.(origin := m.destination, destination := m.origin, departureTime := cfg.eveningTime))
  {
  }

  /** Any mode other than driving or transit raises ValueError, whatever the
      departure. */
  lemma InvalidModeRaises(cfg: Config, location: Option<string>, departure: Departure, mode: string)
    requires !ValidMode(mode)
    ensures TravelQuery(cfg, location, departure, mode) == Err(ValueError)
    ensures TravelQueryAsWritten(cfg, location, departure, mode) == Err(ValueError)
  {
  }

  /** The trip read off the first leg. */
  function TripOf(leg: Leg, mode: string): (t: Trip)
    ensures mode == "driving" && leg.durationInTraffic.Some? ==> t.durationInTraffic == Num(leg.durationInTraffic.value)
    ensures mode == "driving" && leg.durationInTraffic.None? ==> t.durationInTraffic == Inf
    ensures mode != "driving" ==> t.durationInTraffic == NoneValue
    ensures t.duration == leg.duration
  {
    Trip(leg.startAddress, ConvertCoords(LocationDict(leg.startLat, leg.startLng), NoneValue),
         leg.endAddress, ConvertCoords(LocationDict(leg.endLat, leg.endLng), NoneValue),
         leg.duration,
         if mode == "driving" then
           (if leg.durationInTraffic.Some? then Num(leg.durationInTraffic.value) else Inf)
         else NoneValue)
  }

  /** The rest of `get_travel_time` once the query is built: None when the
      lookup finds nothing, otherwise the trip of the first route's first
      leg. */
  function Answer(cfg: Config, api: Directions, query: Result<Query, PyError>, mode: string): Result<Option<Trip>, PyError>
  {
    match query
    case Err(e) => Err(e)
    case Ok(q) =>
      match DirWrapper(api, cfg.slacAddress, q)
      case Err(e) => Err(e)
      case Ok(legs) => if legs == [] then Ok(None) else Ok(Some(TripOf(legs[0], mode)))
  }

  /** `get_travel_time`, on the corrected query. It raises ValueError exactly
      when the arguments are refused and otherwise only Timeout; a trip it
      returns has the traffic duration its mode calls for. */
  function GetTravelTime(cfg: Config, api: Directions, location: Option<string>, departure: Departure, mode: string): (r: Result<Option<Trip>, PyError>)
    ensures r == Err(ValueError) <==> TravelQuery(cfg, location, departure, mode).Err?
    ensures r.Err? ==> r.error == ValueError || r.error == Timeout
    ensures r.Ok? ==> ValidMode(mode)
    ensures r.Ok? && r.value.Some? && mode == "transit" ==> r.value.value.durationInTraffic == NoneValue
    ensures r.Ok? && r.value.Some? && mode == "driving" ==>
              r.value.value.durationInTraffic.Num? || r.value.value.durationInTraffic.Inf?
  {
    Answer(cfg, api, TravelQuery(cfg, location, departure, mode), mode)
  }

  /** `get_travel_time` as written: a numeric departure time (a number, or a
      text `int()` reads) with a valid mode raises UnboundLocalError, and every other call behaves as the corrected
      one. */
  function GetTravelTimeAsWritten(cfg: Config, api: Directions, location: Option<string>, departure: Departure, mode: string): (r: Result<Option<Trip>, PyError>)
    ensures (ValidMode(mode) && (departure.Seconds? || ParseInt(departure.name).Some?) &&
             departure != Named("morning") && departure != Named("evening")) ==>
              r == Err(UnboundLocalError)
    ensures departure == Named("morning") || departure == Named("evening") || !ValidMode(mode) ||
            (departure.Named? && ParseInt(departure.name).None?) ==>
              r == GetTravelTime(cfg, api, location, departure, mode)
  {
    Answer(cfg, api, TravelQueryAsWritten(cfg, location, departure, mode), mode)
  }

  /** The outcome, in terms of the query and the wrapper: an empty answer is
      None and a non-empty one is the trip of its first leg. */
  lemma GetTravelTimeOutcome(cfg: Config, api: Directions, location: Option<string>, departure: Departure, mode: string)
    requires TravelQuery(cfg, location, departure, mode).Ok?
    ensures var q := TravelQuery(cfg, location, departure, mode).value;
            var w := DirWrapper(api, cfg.slacAddress, q);
            var r := GetTravelTime(cfg, api, location, departure, mode);
            (w == Ok([]) <==> r == Ok(None)) &&
            (w.Err? <==> r == Err(Timeout)) &&
            (w.Ok? && w.value != [] ==> r == Ok(Some(TripOf(w.value[0], mode))))
  {
  }

  /** A lookup for the named departures can only fail with Timeout. */
  lemma GetTravelTimeNamedErrors(cfg: Config, api: Directions, location: Option<string>, name: string, mode: string)
    requires name == "morning" || name == "evening"
    requires ValidMode(mode)
    ensures GetTravelTime(cfg, api, location, Named(name), mode).Err? ==>
            GetTravelTime(cfg, api, location, Named(name), mode).error == Timeout
  {
  }
}
