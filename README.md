# AffordableTravelTime: the scraper and the travel-time lookups, in Dafny

AffordableTravelTime collects house listings from Zillow, one zip code at a
time (gather_data.py). It then asks the Google directions service how long the
trip to and from the SLAC front gate takes by car and by transit
(google_api.py).

This project models the deterministic core of both scripts and proves what
that core does.

**The pagination controller** (`Search.ZipcodeSearch`):
- a search resets its flags and builds the first-page URL;
- it fetches at most 30 result pages, testing each one for a next-page control
  and for the "No matching results..." heading;
- it scrapes the pages it keeps and advances the page URL;
- it merges the scraped rows into the zip code's dump file.

**The card extractors** (`Listing`):
- the price, cleaned of its leading sign and commas;
- the days on the site;
- the home type found in the minibubble text;
- the page table with one row per card, appended to the master table.

**The incremental merge** (`Store`): concatenation followed by
`drop_duplicates(subset='zillow_id', keep='last')`.

**The pure helpers of `ATTGoogleAPI`** (`Travel`):
- `price_filter`;
- `convert_coords`;
- the argument handling and the origin/destination swap of `get_travel_time`;
- the address-chopping retry of `google_dir_wrapper`.

**The frame `ATTGoogleAPI` works on** (`Frame`, `GoogleApi`):
- a cell is NaN, inf, an integer, a text, a list, a timestamp or None;
- the cell rule of `add_data_to_df`;
- `check_df`;
- the filters and conversions of `process_data`;
- the budgeted double loop of `get_times`;
- what that loop writes into the frame.

**Inputs modelled as parameters:**
- The web the browser sees is a `map<string, Page>` from URL to page.
- The dump directory is a `map<string, seq<Row>>` from file name to rows.
- The Google directions service is a `map<Query, Reply>`. A query it has no
  entry for finds no route.

**How the imperative code is modelled.** `zillow_zipcode_search`,
`zillow_parser` and `ATTGoogleAPI` update their fields in place, so they are
classes with `modifies` clauses. Each of their methods is proved against a
specification function; the lemmas about those functions carry the properties.

`get_times` is a loop over rows with a loop over the four lookups inside it. It
is specified by three functions:
- `RowPass`: the inner loop, as a function.
- `FramePass`: the outer loop, as a function.
- `Applied`: the frame after the writes of the lookups tried, in order.

`GetTimes` is proved to return `FramePass`'s call count and error and to leave
`Applied`'s frame, through one step method per loop body (`VisitRow`,
`LookupSlot`).

The source's `get_times` docstring says a failed lookup writes -1. The code
writes `np.inf`, and the model follows the code.

## Model

| member | source | states |
|---|---|---|
| PyText.Split | gather_data.py:267 | `str.split` with one separator gives at least one piece, no piece holds the separator, and exactly one piece when the separator is absent |
| PyText.JoinSplit | google_api.py:397 | joining the pieces of a split with the same separator gives the string back |
| PyText.SplitJoin | google_api.py:216 | splitting a join of separator-free parts (at least one) gives the parts back |
| PyText.FirstPieceIsSplit | gather_data.py:240 | the text before the first separator is piece 0 of the split |
| PyText.FirstPiece | gather_data.py:240 | `s.split(sep)[0]` without building the split; `FirstPieceIsSplit` proves it is piece 0 of the split |
| PyText.Join | google_api.py:216 | `sep.join(parts)`, the parts with one separator between neighbours; `JoinSplit` and `SplitJoin` prove it undoes `Split` and is undone by it |
| PyText.SplitFirstWord | gather_data.py:240 | splitting `w + sep + rest` with `w` free of `sep` gives `w` followed by the pieces of `rest` |
| PyText.SplitAfterPrefix | gather_data.py:267 | a separator-free prefix joins the first piece of the rest and changes no other piece |
| PyText.DropFirstWordOf | google_api.py:397 | `' '.join(s.split(' ')[1:])` of `w + " " + rest` is `rest` when `w` has no space |
| PyText.DropFirstWord | google_api.py:397-399 | a text without a space loses everything when its first word is dropped |
| PyText.TrimLeft | gather_data.py:273 | the result is no longer than the input, its first character is not stripped, and every character removed is in the set |
| PyText.TrimLeftIsSuffix | gather_data.py:273 | `lstrip` returns a suffix of its input |
| PyText.TrimLeftUnchanged | google_api.py:228 | a text whose first character is not stripped is left as it is |
| PyText.TrimRight | gather_data.py:273 | the result is no longer than the input, its last character is not stripped, and every character removed is in the set |
| PyText.TrimRightIsPrefix | gather_data.py:273 | `rstrip` returns a prefix of its input |
| PyText.Strip | gather_data.py:273 | neither end of the result is in the set, it is no longer than the input and it only holds input characters |
| PyText.StripIsMiddle | gather_data.py:273 | `strip` returns a contiguous slice of its input |
| PyText.StripUnchanged | gather_data.py:273 | a string whose ends are not in the set is left as it is |
| PyText.RemoveAll | gather_data.py:226 | `replace(c, '')` leaves no `c` and keeps the count of every other character |
| PyText.RemoveAllAppend | gather_data.py:226 | removing a character distributes over concatenation |
| PyText.RemoveAllAbsent | gather_data.py:226 | removing a character a string lacks changes nothing |
| PyText.DigitsValueAppend | google_api.py:222 | the value of concatenated digit strings is the first value shifted by the second's length plus the second |
| PyText.ParseDigits | google_api.py:228 | `int()` of a non-empty digit string is the number the digits denote |
| PyText.ParseNegative | google_api.py:228 | `int()` of a minus sign followed by digits is the negated value of the digits |
| PyText.ParseNoDigits | gather_data.py:239-242 | `int()` of a string with no digit raises ValueError |
| PyText.ParseInt | google_api.py:228 | Python 2's `int()` of a string (surrounding whitespace, an optional sign, then decimal digits; anything else raises ValueError); `ParseDigits`, `ParseNegative`, `ParseNoDigits` and `ParseIntToString` state its values |
| PyText.DigitChar | gather_data.py:40 | the character printed for a digit value is a digit of that value |
| PyText.NatToString | gather_data.py:40 | `str()` of a natural number is a non-empty digit string without a leading zero that denotes it |
| PyText.IntToString | google_api.py:607 | `str()` of any integer, a minus sign before the digits of a negative one; `ParseIntToString` proves `int()` reads it back |
| PyText.ParseIntToString | google_api.py:607 | `int(str(i)) == i` for every integer |
| PyText.NatToStringInjective | gather_data.py:40 | different numbers print differently |
| Listing.CardPrice | gather_data.py:224-228 | no price span gives 0, and otherwise the text minus its first character, with no comma left and every other character kept |
| Listing.DropFirst | gather_data.py:226 | `t[1:]`, empty for an empty text; `CardPrice`'s ensures state what it leaves of a price |
| Listing.RemoveCommasOfJoin | gather_data.py:226 | removing commas from comma-free groups joined by commas runs the groups together |
| Listing.CardPriceOfGroups | gather_data.py:224-226 | `"$"` followed by comma-separated groups is stored as the groups run together |
| Listing.CardPriceExample | gather_data.py:224-226 | `"$1,250,000"` is stored as `"1250000"` |
| Listing.DaysOn | gather_data.py:236-243 | the count is what `int()` reads from the badge up to its first space whenever `int()` accepts that word, and 0 when it refuses it |
| Listing.DaysOnCount | gather_data.py:239-240 | a badge starting with a count and a space yields that count |
| Listing.DaysOnNotANumber | gather_data.py:239-242 | a badge whose first word holds no digit yields 0 |
| Listing.HomeTypeOf | gather_data.py:263-275 | the home type is "0" when no comma piece names it, and otherwise the value of the last piece that does; it is always "0" or the value of a matching piece |
| Listing.PieceValue | gather_data.py:273 | the text between the first and second colon of a piece, stripped of spaces and then of double quotes; `ScanHomeTypeLastAt` and `GetHomeType` prove it is the home type of the last match |
| Listing.ScanHomeType | gather_data.py:264-275 | the outcome of the loop as a recursion from the last piece; `ScanHomeTypeIsLastMatch`, `ScanHomeTypeNoMatch`, `ScanHomeTypeLastAt` and `ScanHomeTypeIsSomeMatch` state it and `GetHomeType`'s loop is proved against it |
| Listing.ScanHomeTypeIsSomeMatch | gather_data.py:268-275 | a scan result other than the default is the value of a matching piece |
| Listing.ScanHomeTypeIsLastMatch | gather_data.py:264-275 | the home type is "0" when no piece has `homeType` at characters 1..8, and otherwise the value of the last such piece |
| Listing.ScanHomeTypeNoMatch | gather_data.py:264 | with no matching piece the default "0" stands |
| Listing.ScanHomeTypeLastAt | gather_data.py:268-275 | a matching piece with no match after it holds a colon and gives the home type |
| Listing.GetHomeType | gather_data.py:263-275 | the loop over the comma pieces ends with the value the scan specification gives |
| Listing.RowsOf | gather_data.py:278-306 | a page gives exactly one row per card |
| Listing.RowsOfIndex | gather_data.py:278-306 | row `k` of the page table is the row built from card `k` |
| Listing.CardRow | gather_data.py:281-307 | the row of one card, whose street column ends with the itemprop street that overwrites the caption address; `ScrapeCard` and `RowsOfIndex` tie the scraped rows to it |
| Listing.ZillowParser.constructor | gather_data.py:177-180 | a new parser has an empty master table |
| Listing.ZillowParser.GetHouses | gather_data.py:193-203 | the page's cards are kept, the page table is their rows, and the master table gains exactly those rows at its end |
| Listing.ZillowParser.ScrapeCard | gather_data.py:281-307 | the row written for one card is the card's specified row |
| Listing.ZillowParser.IterateOverHouseOnPage | gather_data.py:278-310 | the page table holds one row per card in card order; the master table is the old one followed by those rows, old rows unchanged |
| Store.IdsMembers | gather_data.py:115 | an id is among a table's ids exactly when some row carries it |
| Store.IdsAppend | gather_data.py:113-114 | the ids of a concatenation are the union of the ids |
| Store.KeepLast | gather_data.py:115 | keep-last never lengthens the table and always keeps its last row |
| Store.KeepLastProps | gather_data.py:115 | keep-last leaves each id once, loses no id and invents no row |
| Store.LastWithId | gather_data.py:115 | the last row with a given id is a row of the table with that id |
| Store.WithoutMembers | gather_data.py:115 | a row survives the removal of a set of ids exactly when its id is not in the set |
| Store.KeepLastKeepsLast | gather_data.py:115 | every survivor of keep-last is the last row bearing its id |
| Store.KeepLastOfUnique | gather_data.py:115 | keep-last leaves a table with unique ids unchanged |
| Store.KeepLastAppend | gather_data.py:113-115 | keep-last of old followed by new is the old survivors whose ids the new rows lack, then the new survivors |
| Store.WithoutTwice | gather_data.py:115 | removing the same ids twice is removing them once |
| Store.Merge | gather_data.py:110-120 | without a saved file the new rows are written as they are; with one, the result is no longer than saved and new rows together, ends with the last new row, and holds only saved or new rows |
| Store.MergeIds | gather_data.py:110-115 | with a saved file, the merge carries each id once and its ids are the union of saved and new ids |
| Store.MergeNewestWins | gather_data.py:113-115 | the merged row for an id among the new rows is the last new row with it; otherwise it is the last saved row with it |
| Store.MergeFirstWrite | gather_data.py:117-118 | without a saved file the new rows are written unchanged, duplicates included |
| Store.MergeTwice | gather_data.py:110-120 | merging the same new rows twice into a saved file gives what merging once gives |
| Store.MergeTwiceWithoutFile | gather_data.py:110-120 | starting with no file, a second merge equals the first exactly when the new ids are unique |
| Search.PageUrlInjective | gather_data.py:38-40 | two page numbers of one search share a URL only when they are equal |
| Search.PageUrl | gather_data.py:38-40 | the URL of page `n`: the first page's URL for page 1, and otherwise that URL followed by `n` and `_p/`; `PageUrlInjective` and `NextPage` state it |
| Search.Load | gather_data.py:44-48 | what the browser shows at a URL, a blank page without next control or cards for an unknown one; `GetCurrentPage` is proved against it |
| Search.ZipcodeSearch.constructor | gather_data.py:33-35 | a new search works on the given dump directory and has loaded no page |
| Search.LastPage | gather_data.py:150-164 | a search that has reached page `n` ends on a page between `n` and 30 |
| Search.LastPageIsFirstEnd | gather_data.py:150-164 | every page before the last lets the search go on, and the last either stops it or is page 30 |
| Search.StopsAtFirstEnd | gather_data.py:150-164 | conversely, the first stopping page reached is where the search ends |
| Search.FinalPageNumber | gather_data.py:150-164 | the page number at the end lies between the start and 31 |
| Search.FinalPageNumberIsLastPage | gather_data.py:150-164 | the final page number is the last page, plus one exactly when page 30 was reached without stopping |
| Search.GoesOnThroughPage | gather_data.py:150-164 | in a search that goes on through page `k`, every page up to `k` goes on |
| Search.EndsAt | gather_data.py:152-164 | when pages before `k` go on and page `k` stops, the search ends on page `k` with the page number left at `k` |
| Search.RunsOut | gather_data.py:150-162 | when none of the 30 pages stops, the search ends on page 30 with the page number at 31 |
| Search.Urls | gather_data.py:150-162 | the URLs of pages 1 to `k` are `k` in number |
| Search.UrlsIndex | gather_data.py:150-162 | the `j`-th URL loaded is that of page `j + 1` |
| Search.UrlsDistinct | gather_data.py:150-162 | no URL is loaded twice in one search |
| Search.SearchEnd | gather_data.py:150-164 | the page a search from page 1 ends on; `LastPageIsFirstEnd`, `StopsAtFirstEnd`, `EndsAt` and `RunsOut` characterise it, and `ScrapePages` ends there |
| Search.DumpName | gather_data.py:95 | a zip code's file is `<zip>.csv`; `DumpZipcodeDataframe` and `SearchZipcode` write exactly that file |
| Search.ZipcodeSearch.NextPage | gather_data.py:38-40 | the page number grows by exactly one and the URL becomes the first page's URL followed by that number and `_p/` |
| Search.ZipcodeSearch.GetCurrentPage | gather_data.py:44-48 | the current page is what the current URL shows, and the URL is recorded as loaded |
| Search.ZipcodeSearch.TestCurrentPage | gather_data.py:63-90 | the next-page flag is cleared exactly when there is no next control; the no-results flag is set exactly when the first collapsed heading reads "No matching results...", and otherwise it is left alone |
| Search.ZipcodeSearch.DumpZipcodeDataframe | gather_data.py:93-122 | the zip code's file becomes the merge of its saved rows, if any, with the new rows; no other file changes |
| Search.ZipcodeSearch.ScrapeStep | gather_data.py:151-164 | one loop pass loads and tests a page, scrapes it unless it says "no results", and advances exactly when the loop goes on |
| Search.ZipcodeSearch.ScrapePages | gather_data.py:150-164 | the loop loads the URLs of pages 1 to the search's last page, gathers their rows in page order and ends on the final page number, with that page loaded and the next-page and no-results flags read from it |
| Search.ZipcodeSearch.SearchZipcode | gather_data.py:133-168 | a search resets its state, starts at `https://www.zillow.com/homes/<zip>_rb/`, loads exactly the pages up to the first stop (30 at most), and merges the rows into `<zip>.csv`; it ends on the last page loaded, with `doNextPage` and `noResults` as that page sets them |
| Frame.AddDataRule | google_api.py:545-552 | a list grows by `data` with its prefix kept, a number (NaN and inf included) is replaced, a string becomes `[old, data]`, and any other value stays |
| Frame.AddDataToNumber | google_api.py:547-549 | a number cell is replaced by the data |
| Frame.AddAllCollects | google_api.py:545-552 | once a cell holds a string or a list, every value stored later is kept, in order |
| Frame.AddAllFromNaN | google_api.py:623-630 | a NaN cell that first receives a string keeps everything it is given |
| Frame.AddAllNumbers | google_api.py:547-549 | a number cell given only numbers keeps the last one |
| Frame.AddData | google_api.py:545-552 | a number is replaced by the data, a text or a list ends up a list whose observations gain the data at the end, and a timestamp or None is kept |
| Frame.CheckDfIgnoresZipcode | google_api.py:151-161 | frames that differ only in the zipcode column get the same `check_df` answer |
| Frame.CheckDf | google_api.py:136-161 | the frame passes exactly when every row has an integer id and price, a text location and a timestamp date, so an empty frame passes |
| Frame.CellStr | google_api.py:209-215 | `str()` of an integer is read back by `int()` as that integer, of a text is the text, and of a list is bracketed |
| Travel.MakeConfig | google_api.py:98-106 | the object keeps the given departure times, the SLAC address and the default location |
| Travel.Ask | google_api.py:382-386 | one call to the directions service, which finds no route for a query it has no entry for; `Consulted`, `DirWrapper` and `DirWrapperDependsOnConsulted` state what the wrapper asks it |
| Travel.IntOf | google_api.py:228 | `int()` succeeds exactly on integer texts, with their value, and raises ValueError otherwise |
| Travel.PriceFilter | google_api.py:219-228 | an empty text raises IndexError, and no other input does; the only other exception is ValueError |
| Travel.PriceFilterThousands | google_api.py:221-222 | digits followed by `K` are the digits' value times 1000 |
| Travel.PriceFilterAtLeast | google_api.py:223-224 | digits followed by `+` are the digits' value |
| Travel.PriceFilterMillions | google_api.py:225-226 | digits followed by `M` are the digits' value times 1000000 |
| Travel.PriceFilterPlain | google_api.py:227-228 | plain digits are their value |
| Travel.PriceFilterOfPrinted | google_api.py:219-228 | a printed whole number, with or without `K`, is read back exactly |
| Travel.PriceFilterDollar | google_api.py:227-228 | a price that still carries its dollar sign raises ValueError |
| Travel.ConvertCoords | google_api.py:183-216 | the result is `str(lat) + "," + str(lng)`, where a location dictionary supplies both coordinates |
| Travel.ConvertCoordsSplits | google_api.py:216 | when neither part holds a comma, splitting the result on commas gives back exactly the two parts |
| Travel.ConvertCoordsOfDict | google_api.py:208-210 | a location dictionary gives the same text as its `lat` and `lng` entries passed separately, whatever the second argument |
| Travel.RetryQuery | google_api.py:396-399 | the retry drops the first word of exactly the endpoint that is not SLAC; the other endpoint, the time and the mode are kept |
| Travel.RetryChopsHome | google_api.py:396-397 | going home, the house number is dropped from the destination |
| Travel.RetryChopsStart | google_api.py:398-399 | going to work, the house number is dropped from the origin |
| Travel.Consulted | google_api.py:381-408 | the wrapper sends the given query, and the retry query second exactly when the first reply is an ApiError |
| Travel.DirWrapper | google_api.py:381-410 | it raises only Timeout, and exactly when the first call times out or the retry after an ApiError does |
| Travel.DirWrapperDependsOnConsulted | google_api.py:381-410 | two services that agree on the queries sent give the same answer |
| Travel.Endpoint | google_api.py:267-268 | an absent or empty location becomes the default location, and any other is kept |
| Travel.TravelQuery | google_api.py:285-305 | a query that is built has a valid mode, the one asked for; the only exception is ValueError, and a numeric departure time with a valid mode always gives a query |
| Travel.TravelQueryAsWritten | google_api.py:286-313 | as written, a query is built only for the named departures, with the mode asked for, and the only exceptions are ValueError and UnboundLocalError |
| Travel.NumericDepartureUnbound | google_api.py:286-313 | as written, a numeric departure time with a valid mode raises UnboundLocalError; the corrected query goes from the location to SLAC at that time |
| Travel.TravelQueryAgreesWhenNamed | google_api.py:286-305 | the written and the corrected query agree on everything but numeric departure times |
| Travel.MorningQuery | google_api.py:286-289 | morning goes from the location to SLAC at the morning time |
| Travel.EveningSwapsMorning | google_api.py:290-293 | evening is morning with origin and destination swapped, at the evening time |
| Travel.InvalidModeRaises | google_api.py:304-305 | a mode other than driving or transit raises ValueError whatever the departure |
| Travel.TripOf | google_api.py:330-355 | the duration is the leg's; for driving the traffic duration is the leg's, or inf when missing; for transit it is None |
| Travel.Answer | google_api.py:306-355 | the rest of `get_travel_time` once the query is built; `GetTravelTimeOutcome` states its three outcomes |
| Travel.GetTravelTime | google_api.py:231-355 | on the corrected query, ValueError is raised exactly when the arguments are refused and Timeout is the only other exception; a transit trip has no traffic duration and a drive has a number or inf |
| Travel.GetTravelTimeAsWritten | google_api.py:231-355 | as written, a numeric departure time with a valid mode raises UnboundLocalError, and every other call gives what the corrected lookup gives |
| Travel.GetTravelTimeOutcome | google_api.py:310-355 | an empty answer gives None, a Timeout is re-raised, and otherwise the trip of the first leg is returned |
| Travel.GetTravelTimeNamedErrors | google_api.py:286-313 | with a named departure and a valid mode, the only possible exception is Timeout |
| GoogleApi.Keep | google_api.py:491-494 | a mask keeps exactly the rows that pass it, none added; `KeepOne` and `KeepAppend` add that it keeps their order and their repeats |
| GoogleApi.Passes | google_api.py:491-519 | the status mask (`ForSale` or `RecentlySold`, price not the text `'0'`) and the address mask (street, city and state are strings); `Keep` and `ProcessedRowsFrom` use it |
| GoogleApi.KeepOne | google_api.py:494 | one row is kept exactly when it passes the mask |
| GoogleApi.KeepAppend | google_api.py:494 | a mask applied to two frames in a row keeps the rows of the first and then those of the second, so the kept rows stay in order and repeats stay |
| GoogleApi.KeepAll | google_api.py:514-520 | a mask that every row passes keeps the frame as it is |
| GoogleApi.Processed | google_api.py:483-520 | an empty or already processed frame is returned as it is, and the frame never grows; `ProcessedRows` and `ProcessedRowsFrom` give its rows |
| GoogleApi.ProcessedRaises | google_api.py:490-520 | the only exceptions `process_data` raises are ValueError, TypeError and IndexError |
| GoogleApi.Convert | google_api.py:497-506 | integer and price conversions give integers; a price conversion of an empty list raises IndexError and of any other non-text TypeError, as `price_str[-1]` does; a date conversion succeeds on everything but inf and lists, always gives a timestamp and turns a missing date (NaN or None) into NaT; the only exceptions are ValueError, TypeError and IndexError |
| GoogleApi.ConvertColumn | google_api.py:497-506 | a column conversion succeeds exactly when every cell converts, and keeps the row count |
| GoogleApi.ConvertColumnRow | google_api.py:497-506 | each converted row has that column replaced by its converted cell and every other column kept |
| GoogleApi.AddLocation | google_api.py:509-511 | every row gains a location text and nothing else changes |
| GoogleApi.WithLocation | google_api.py:509-511 | the row with its location column set to `convert_coords(latitude, longitude)`; `AddLocation` and `ProcessRowProps` state it |
| GoogleApi.ProcessRow | google_api.py:497-511 | the form `process_data` gives one row: id, zipcode, date and price converted, then the location added; `ProcessRowKeeps` and `ProcessRowProps` state it |
| GoogleApi.ProcessRowKeeps | google_api.py:497-511 | a processed row keeps every column the conversions and the location do not write |
| GoogleApi.ProcessRowProps | google_api.py:497-520 | processing leaves the address mask's verdict as it was, and a row that passes both masks comes out clean |
| GoogleApi.ProcessAll | google_api.py:497-511 | the rows processed one by one, as many as there were |
| GoogleApi.ProcessAllAt | google_api.py:497-511 | row `i` of the processed frame is the processed row `i` |
| GoogleApi.ProcessAllMembers | google_api.py:497-511 | a row is in the processed frame exactly when it is the processed form of some row |
| GoogleApi.KeepProcessAll | google_api.py:497-520 | applying the address mask after processing is processing the rows that pass it, in order |
| GoogleApi.ConvertColumnAt | google_api.py:497-506 | a column conversion that succeeds replaces row `i`'s cell by that cell's own conversion |
| GoogleApi.ChainRow | google_api.py:497-506 | a row whose four conversions succeed one after another, each on the row the previous one left, ends as the processed row once the location is added |
| GoogleApi.StagesRow | google_api.py:497-511 | the four conversions and the location, stage after stage, give each row its processed form |
| GoogleApi.StagesFrame | google_api.py:497-511 | the stages applied to a frame give the processed frame, row for row |
| GoogleApi.ProcessedRows | google_api.py:490-520 | after a successful run the frame is, in order and with repeats, the processed form of each row that passes the status mask and then the address mask |
| GoogleApi.ProcessedRowsFrom | google_api.py:490-520 | after a successful run, a row is in the frame exactly when it is the processed form of an input row that passes both masks |
| GoogleApi.RowStages | google_api.py:490-520 | a row that passed the status mask and went through the four conversions and the location comes out clean, with a timestamp date, when its address fields are texts |
| GoogleApi.SurvivorClean | google_api.py:490-520 | every row left by a successful run is clean, its date a timestamp (NaT when it was missing) |
| GoogleApi.ProcessedRowsClean | google_api.py:490-520 | after a successful run, every row has a wanted status, integer id, zipcode and price, a location text and text address fields |
| GoogleApi.ProcessDataIdempotent | google_api.py:483-520 | after any successful run, missing dates included, the frame passes `check_df`, so a second `process_data` changes nothing |
| GoogleApi.SlotTime | google_api.py:599 | lookups 0 and 2 are in the morning, 1 and 3 in the evening |
| GoogleApi.SlotMode | google_api.py:600 | lookups 0 and 1 drive and 2 and 3 take transit |
| GoogleApi.IsNaN | google_api.py:590-595 | `np.isnan` is true exactly on NaN (false on inf) and raises TypeError on a value that is not a number |
| GoogleApi.Missing | google_api.py:590-595 | a drive is wanted when its duration is NaN, or is a number and its traffic duration is NaN; a transit is wanted when its duration is NaN; numbers never raise |
| GoogleApi.Wants | google_api.py:590-595 | the four flags are read exactly when each can be, and flag `k` is lookup `k`'s flag |
| GoogleApi.Address | google_api.py:604-607 | the address is built exactly when street, city and state are texts |
| GoogleApi.Attempt | google_api.py:604-610 | a successful drive lookup has a number or inf as its traffic duration |
| GoogleApi.StoreCellOthers | google_api.py:523-552 | storing into one cell leaves every other cell of the row alone |
| GoogleApi.StoreCell | google_api.py:523-552 | one cell of a row takes the value of the cell rule (`AddDataRule` states that rule), and `StoreCellOthers` shows no other cell changes |
| GoogleApi.StoreGoogleCells | google_api.py:623-630 | each `google_*` column receives its own tagged entry by the cell rule |
| GoogleApi.StoreGoogleOthers | google_api.py:623-630 | the `google_*` entries change no other column |
| GoogleApi.StoreDurationsCells | google_api.py:612-621 | a lookup's duration columns receive its values by the cell rule and no other column changes |
| GoogleApi.StoreDurationsOverNumbers | google_api.py:631-638 | over numbers, a lookup's duration columns end up holding exactly the values stored |
| GoogleApi.FailureWritesInf | google_api.py:612-621 | a failed lookup writes inf into exactly its own duration columns (both drive columns, or the one transit column) and changes no other column |
| GoogleApi.SuccessWritesGoogle | google_api.py:623-630 | a successful lookup adds one entry tagged `time:mode:` to each `google_*` column |
| GoogleApi.SuccessWritesDurations | google_api.py:631-638 | a successful lookup stores its duration (and, for a drive, its traffic duration) in its own columns |
| GoogleApi.SuccessLeavesOthers | google_api.py:623-638 | a successful lookup changes no column but its own duration columns and the `google_*` ones |
| GoogleApi.Written | google_api.py:612-638 | a lookup's writes change no column but its own duration columns and the `google_*` ones, and a failed lookup touches only its duration columns |
| GoogleApi.StoreDurationsKeepsNumeric | google_api.py:612-638 | storing numbers into duration columns keeps every duration a number |
| GoogleApi.StoreGoogleKeepsNumeric | google_api.py:623-630 | the `google_*` entries leave the durations numbers |
| GoogleApi.WrittenKeepsDurationsNumeric | google_api.py:612-638 | every write of `get_times` keeps the durations numbers |
| GoogleApi.NumericFlagsReadable | google_api.py:590-595 | a row whose durations are numbers has all four flags readable |
| GoogleApi.RowPass | google_api.py:597-621 | the inner loop makes a lookup only when its flag is set and the budget allows, counts each call once, and keeps the calls within `number` |
| GoogleApi.FramePass | google_api.py:589-621 | the outer loop tries lookups of later rows only, keeps the calls within `number` and only tries lookups that answered; `GetTimesInOrder` adds row order and no repeats |
| GoogleApi.Applied | google_api.py:589-638 | the writes of the lookups tried keep the frame's row count |
| GoogleApi.AppliedUntouched | google_api.py:589-638 | a row no lookup was tried for is left as it was |
| GoogleApi.RowApplied | google_api.py:597-638 | the writes of one row's lookups, in the order they were made; `AppliedRow` and `RowAppliedFailure` state it |
| GoogleApi.AppliedRow | google_api.py:589-638 | each row of the written frame is its own row with only its own lookups' writes applied, in order |
| GoogleApi.FillsDisjoint | google_api.py:612-638 | two different lookups fill different duration columns, none of them a `google_*` column |
| GoogleApi.RowAppliedFailure | google_api.py:612-621 | a failed lookup of a row leaves inf in its column whatever else the row's lookups write, and an untried lookup's column keeps its value |
| GoogleApi.AppliedKeepsDurationsNumeric | google_api.py:589-638 | whatever lookups are tried, a frame whose durations are numbers keeps them numbers |
| GoogleApi.GetTimesBudget | google_api.py:584-641 | `get_times` makes at most `number` calls (none when `number <= 0`), and the count is the number of lookups tried |
| GoogleApi.OnlyMissingTried | google_api.py:589-598 | only lookups whose flag was set are tried |
| GoogleApi.RowPassTriesEveryWanted | google_api.py:597-610 | when the inner loop ends without an exception and with budget left, it has tried exactly the row's flagged lookups, in slot order |
| GoogleApi.RowPassMakesLookup | google_api.py:597-610 | the same, from a turn whose lookup is flagged and answered |
| GoogleApi.WantedFromMembers | google_api.py:597-598 | every flagged slot from `k` on is among the lookups the row wants |
| GoogleApi.FramePassTriesMissing | google_api.py:589-621 | when the outer loop ends without an exception and with budget left, every missing lookup of the rows it visited was made |
| GoogleApi.GetTimesTriesExactlyMissing | google_api.py:555-621 | when `get_times` ends without an exception and with budget left, a lookup was made exactly when the row was missing it |
| GoogleApi.RowPassIncreasing | google_api.py:597-621 | the inner loop adds its row's lookups after every earlier one, in slot order |
| GoogleApi.FramePassIncreasing | google_api.py:589-621 | the outer loop adds the lookups in (row, slot) order |
| GoogleApi.IncreasingOrdered | google_api.py:589-621 | in a list in (row, slot) order, every earlier entry comes before every later one |
| GoogleApi.GetTimesInOrder | google_api.py:589-621 | `get_times` makes its lookups in row order and never makes one twice |
| GoogleApi.DistinctCard | google_api.py:589-621 | a list without repeats has as many members as entries |
| GoogleApi.DistinctMissingCard | google_api.py:589-621 | a list without repeats that holds exactly the missing lookups is as long as there are missing lookups |
| GoogleApi.GetTimesCallsMissing | google_api.py:555-621 | when `get_times` ends without an exception and with budget left, it has made exactly one call per missing lookup of the frame |
| GoogleApi.GetTimesFailureLeavesInf | google_api.py:589-621 | in the frame `get_times` leaves, the column of a failed lookup it made holds inf when it held a number before |
| GoogleApi.NothingMissingNothingTried | google_api.py:597-598 | a row whose remaining flags are clear costs no call |
| GoogleApi.AttGoogleApi.constructor | google_api.py:98-109 | the object holds the given departure times and the given frame |
| GoogleApi.AttGoogleApi.AddDataToDf | google_api.py:523-552 | one cell takes the value of the cell rule and every other cell of the frame keeps its value |
| GoogleApi.AttGoogleApi.ProcessData | google_api.py:450-520 | the frame and the exception are those of the stage-by-stage specification, completed stages kept when one raises |
| GoogleApi.AttGoogleApi.RecordOutcome | google_api.py:612-638 | the writes after a lookup are those `Written` specifies, in row `index` only |
| GoogleApi.AttGoogleApi.LookupSlot | google_api.py:597-638 | one inner-loop turn advances the inner-loop specification by one lookup and leaves the frame that the lookups tried give |
| GoogleApi.AttGoogleApi.UpdateRow | google_api.py:597-638 | the inner loop ends with the calls, error and tried lookups of the inner-loop specification |
| GoogleApi.AttGoogleApi.VisitRow | google_api.py:589-638 | one outer-loop turn advances the outer-loop specification by one row |
| GoogleApi.AttGoogleApi.GetTimes | google_api.py:555-641 | the call count and the exception are those of the outer-loop specification, and the frame is the original with the writes of exactly the lookups it tried |

## Left out

- Selenium, page loading, `get_saved_page` and `close_browser`: browser I/O. A page is what a URL shows in the web map: its next-page control, its first collapsed heading and its cards.
- BeautifulSoup matching: a foreign HTML library. A card is a record of the texts the extractors read.
- Listing.Card: a card that lacks a field read with `[0]` raises IndexError in the source. The model requires those fields, except the price span, which the source handles.
- Listing.GetHomeType: requires that every matching piece holds a colon, because the source raises IndexError otherwise.
- Listing.DaysOn: `np.int64` of a text is modelled as Python's `int()`.
- Listing.Row: the `date_scraped` timestamp comes from the clock and is not modelled.
- `time.sleep` with a random pause, every `print`, and the module-level script lines: no behaviour to verify.
- CSV, temp-file and HDF5 reads and writes, `open_dataframe`, `load_files`, `save_dataframe_csv`, `save_dataframe_hdf`, `find_some_times` and the credentials file: file I/O and pandas dtype coercion. The merge is modelled on in-memory rows.
- `address_to_coords` and the `googlemaps` client: network. Directions are a map from query to reply.
- Travel.PriceFilter: the `M` branch goes through `float()`, so it is modelled only for integer mantissas with no space after a sign (`PriceModelled`), because floating point is not modelled and `float()`, unlike `int()`, refuses that space.
- Travel.PriceFilter: `price_str[-1] is 'K'` (and `'+'`, `'M'`) is read as equality. That holds for byte strings, whose one-character values CPython caches; for a unicode price the identity test is false, the call falls through to `int()` and raises ValueError, which the model does not follow.
- GoogleApi.Convert: `astype(int)` is modelled as `int()` on texts. `pd.to_datetime` is modelled as turning a text into a timestamp carrying that text and an integer into one carrying its digits, without parsing the date or checking its range; NaT is the timestamp `Stamp("NaT")`.
- GoogleApi.Processed: applying to an empty frame after the status mask is modelled like any other frame, although pandas' `apply` with `axis=1` on an empty frame behaves differently.
- GoogleApi.IsNaN: `np.isnan` of a value that is not a number is modelled as TypeError.
- GoogleApi.AttGoogleApi.GetTimes: a row's pandas label and its position are the same. The rows `iterrows` yields are the rows of the frame when the loop started. The lookup answers are fixed per row and slot (`Table`), since a row's address and query do not change during the loop.
- GoogleApi.Written: lookups 0 and 1 are taken to drive and 2 and 3 to take transit, which is how `get_times` chooses the mode.
- Numbers are integers: floating-point durations and the float NaN/inf are datatype constructors.
- The pandas version check on `use_inf_as_na`: it does not change `np.isnan`.
- Frame.Get: a column a row does not have reads as NaN, where pandas raises KeyError for a column missing from the frame.
- shared_res.py: the model assumes a frame that has every column the code reads. As given, `pandas_column_names` lacks columns the code reads (among them `location`, `date_scraped`, `zillow_id` and `zillow_status`), so `check_df` would raise KeyError, and `pandas_dtypes`, read at google_api.py:108, does not exist, so the constructor would raise AttributeError.
- data_analysis.py and test.py: a floating-point formula and a one-off browser script.
- The `get_times` docstring's -1 sentinel: the code writes inf, and the model follows the code.

## Findings

| source | as written | input that shows it | evidently intended | confidence | as-written member | corrected member |
|---|---|---|---|---|---|---|
| google_api.py:295-313 | a departure time that is neither `'morning'` nor `'evening'` passes the integer check, but `origin` and `destination` are never assigned, so the call to `google_dir_wrapper` raises UnboundLocalError | `get_travel_time(location='37.3,-122.0', departure_time=1551196800, mode='driving')` | a numeric departure time is a trip from the location to SLAC leaving at that time, as the docstring at 234-235 allows | high; not executed | Travel.TravelQueryAsWritten, Travel.GetTravelTimeAsWritten, Travel.NumericDepartureUnbound | Travel.TravelQuery, Travel.GetTravelTime |
