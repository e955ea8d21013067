/** The per-card field extractors and the row accumulation of the listing
    scraper (`zillow_parser` in gather_data.py). A card is reduced to the
    texts the extractors read; locating them in the page markup is not part
    of this model. */
module Listing {
  import opened PyText

  /** One search-result card. Fields the source reads with `findAll(...)[0]`
      and no fallback are plain strings: a card lacking one of them raises
      IndexError in the source and is outside this model. */
  datatype Card = Card(
    zpid: Option<string>,        // the card's `data-zpid` attribute
    statusType: Option<string>,  // the card's `data-pgapt` attribute
    latitude: string,            // content of the latitude meta tag
    longitude: string,           // content of the longitude meta tag
    priceText: Option<string>,   // text of the first price span, if any
    captionAddress: string,      // text of the first caption address span
    street: string,
    city: string,
    state: string,
    zipcode: string,
    badgeText: string,           // text of the first badge list
    typeBlob: string             // str() of the first minibubble div
  )

  /** The price column at scrape time: the cleaned price text, or the integer
      0 the source stores when a card has no price span. */
  datatype Price = PriceText(text: string) | ZeroPrice

  /** One row of the scraped table. The scrape timestamp is not modelled. */
  datatype Row = Row(
    id: Option<string>,
    status: Option<string>,
    latitude: string,
    longitude: string,
    price: Price,
    zipcode: string,
    street: string,
    city: string,
    state: string,
    homeType: string,
    daysOn: int
  )

  // ---------------------------------------------------------------------------
  // get_card_caption: the price

  /** Python's `t[1:]`. */
  function DropFirst(t: string): string
  {
    if t == [] then [] else t[1..]
  }

  /** The price of a card: its price text without the leading character (the
      dollar sign) and without commas; 0 when the card has no price span. */
  function CardPrice(priceText: Option<string>): (p: Price)
    ensures priceText.None? <==> p == ZeroPrice
    ensures p.PriceText? ==> ',' !in p.text
    ensures priceText.Some? && priceText.value != [] ==>
              forall c :: c != ',' ==> multiset(p.text)[c] == multiset(priceText.value[1..])[c]
  {
    match priceText
    case None => ZeroPrice
    case Some(t) => PriceText(RemoveAll(DropFirst(t), ','))
  }

  /** A dollar amount written with thousands separators loses exactly its
      sign and separators: "$" + groups joined by "," becomes the groups run
      together. */
  lemma {:induction false} CardPriceOfGroups(groups: seq<string>)
    requires forall i :: 0 <= i < |groups| ==> ',' !in groups[i]
    ensures CardPrice(Some("$" + Join(',', groups))) == PriceText(Concat(groups))
    decreases |groups|
  {
    assert DropFirst("$" + Join(',', groups)) == Join(',', groups);
    RemoveCommasOfJoin(groups);
  }

  function Concat(parts: seq<string>): string
    decreases |parts|
  {
    if parts == [] then "" else parts[0] + Concat(parts[1..])
  }

  lemma {:induction false} RemoveCommasOfJoin(groups: seq<string>)
    requires forall i :: 0 <= i < |groups| ==> ',' !in groups[i]
    ensures RemoveAll(Join(',', groups), ',') == Concat(groups)
    decreases |groups|
  {
    if |groups| == 1 {
      RemoveAllAbsent(groups[0], ',');
      assert Concat(groups[1..]) == "";
    } else if |groups| > 1 {
      RemoveCommasOfJoin(groups[1..]);
      RemoveAllAppend(groups[0] + [','], Join(',', groups[1..]), ',');
      RemoveAllAppend(groups[0], [','], ',');
      RemoveAllAbsent(groups[0], ',');
      assert RemoveAll([','], ',') == "";
    }
  }

  /** The worked example: "$1,250,000" is stored as "1250000". */
  lemma CardPriceExample()
    ensures CardPrice(Some("$1,250,000")) == PriceText("1250000")
  {
    var groups := ["1", "250", "000"];
    assert Join(',', groups) == "1,250,000" by {
      assert groups[1..] == ["250", "000"];
      assert groups[1..][1..] == ["000"];
      assert Join(',', ["000"]) == "000";
      assert Join(',', ["250", "000"]) == "250" + [','] + "000";
      assert Join(',', groups) == "1" + [','] + Join(',', groups[1..]);
      assert "1" + [','] + ("250" + [','] + "000") == "1,250,000";
    }
    CardPriceOfGroups(groups);
    assert Concat(groups) == "1250000" by {
      assert Concat(groups[2..]) == "000";
    }
  }

  // ---------------------------------------------------------------------------
  // get_days_on

  /** Days on the site: `int()` of the badge text up to its first space, or 0
      when that word is not an integer. */
  function DaysOn(badgeText: string): (r: int)
    ensures ParseInt(FirstPiece(badgeText, ' ')).Some? ==> r == ParseInt(FirstPiece(badgeText, ' ')).value
    ensures r != 0 ==> ParseInt(FirstPiece(badgeText, ' ')) == Some(r)
    ensures ParseInt(FirstPiece(badgeText, ' ')).None? ==> r == 0
  {
    match ParseInt(FirstPiece(badgeText, ' '))
    case Some(v) => v
    case None => 0
  }

  /** A badge that starts with a count followed by a space yields that count. */
  lemma DaysOnCount(n: nat, rest: string)
    ensures DaysOn(NatToString(n) + " " + rest) == n
  {
    var d := NatToString(n);
    assert ' ' !in d by {
      forall i | 0 <= i < |d| ensures d[i] != ' ' { assert IsDigit(d[i]); }
    }
    SplitFirstWord(d, rest, ' ');
    FirstPieceIsSplit(d + " " + rest, ' ');
    ParseIntToString(n);
  }

  /** A badge whose first word holds no digit yields 0. */
  lemma DaysOnNotANumber(w: string, rest: string)
    requires ' ' !in w
    requires forall i :: 0 <= i < |w| ==> !IsDigit(w[i])
    ensures DaysOn(w + " " + rest) == 0
  {
    SplitFirstWord(w, rest, ' ');
    FirstPieceIsSplit(w + " " + rest, ' ');
    ParseNoDigits(w);
  }

  // ---------------------------------------------------------------------------
  // get_home_type

  /** A comma-separated piece whose characters 1 to 8 spell `homeType`. */
  predicate IsHomeTypePiece(piece: string)
  {
    |piece| >= 9 && piece[1..9] == "homeType"
  }

  /** The source reads `piece.split(':')[1]`, which raises IndexError for a
      matching piece without a colon; a blob must not hold such a piece. */
  predicate WellFormedBlob(blob: string)
  {
    forall piece :: piece in Split(blob, ',') && IsHomeTypePiece(piece) ==> ':' in piece
  }

  /** The value of a matching piece: the text between its first and second
      colon, stripped of spaces and then of double quotes. */
  function PieceValue(piece: string): string
    requires ':' in piece
  {
    Strip(Strip(Split(piece, ':')[1], {' '}), {'"'})
  }

  /** The home type after scanning `pieces`: the value of the last matching
      piece, or "0" when none matches. */
  function ScanHomeType(pieces: seq<string>): string
    requires forall piece :: piece in pieces && IsHomeTypePiece(piece) ==> ':' in piece
    decreases |pieces|
  {
    if pieces == [] then "0"
    else
      var last := pieces[|pieces| - 1];
      assert last in pieces;
      if IsHomeTypePiece(last) then PieceValue(last)
      else ScanHomeType(pieces[..|pieces| - 1])
  }

  /** The home type of a card: "0" when no comma piece names it, and
      otherwise the value of the last piece that does. */
  function HomeTypeOf(blob: string): (r: string)
    requires WellFormedBlob(blob)
    ensures (forall piece :: piece in Split(blob, ',') ==> !IsHomeTypePiece(piece)) ==> r == "0"
    ensures forall k :: 0 <= k < |Split(blob, ',')| && IsHomeTypePiece(Split(blob, ',')[k]) &&
                        (forall j :: k < j < |Split(blob, ',')| ==> !IsHomeTypePiece(Split(blob, ',')[j])) ==>
                          ':' in Split(blob, ',')[k] && r == PieceValue(Split(blob, ',')[k])
    ensures r == "0" || exists piece :: piece in Split(blob, ',') && IsHomeTypePiece(piece) && ':' in piece &&
                                        r == PieceValue(piece)
  {
    var pieces := Split(blob, ',');
    ScanHomeTypeIsLastMatch(pieces);
    ScanHomeTypeIsSomeMatch(pieces);
    ScanHomeType(pieces)
  }

  /** The scan returns the default exactly when no piece matches, and otherwise
      the value of the last matching piece. */
  lemma ScanHomeTypeIsLastMatch(pieces: seq<string>)
    requires forall piece :: piece in pieces && IsHomeTypePiece(piece) ==> ':' in piece
    ensures (forall k :: 0 <= k < |pieces| ==> !IsHomeTypePiece(pieces[k])) ==> ScanHomeType(pieces) == "0"
    ensures forall k :: 0 <= k < |pieces| && IsHomeTypePiece(pieces[k]) &&
                        (forall j :: k < j < |pieces| ==> !IsHomeTypePiece(pieces[j])) ==>
                          ':' in pieces[k] && ScanHomeType(pieces) == PieceValue(pieces[k])
  {
    if forall k :: 0 <= k < |pieces| ==> !IsHomeTypePiece(pieces[k]) {
      ScanHomeTypeNoMatch(pieces);
    }
    forall k | 0 <= k < |pieces| && IsHomeTypePiece(pieces[k]) &&
               (forall j :: k < j < |pieces| ==> !IsHomeTypePiece(pieces[j]))
      ensures ':' in pieces[k] && ScanHomeType(pieces) == PieceValue(pieces[k])
    {
      ScanHomeTypeLastAt(pieces, k);
    }
  }

  /** With no matching piece the scan keeps the default. */
  lemma {:induction false} ScanHomeTypeNoMatch(pieces: seq<string>)
    requires forall piece :: piece in pieces && IsHomeTypePiece(piece) ==> ':' in piece
    requires forall k :: 0 <= k < |pieces| ==> !IsHomeTypePiece(pieces[k])
    ensures ScanHomeType(pieces) == "0"
    decreases |pieces|
  {
    if pieces != [] {
      var init := pieces[..|pieces| - 1];
      assert forall piece :: piece in init ==> piece in pieces;
      assert !IsHomeTypePiece(pieces[|pieces| - 1]);
      assert forall k :: 0 <= k < |init| ==> init[k] == pieces[k];
      ScanHomeTypeNoMatch(init);
    }
  }

  /** When piece `k` matches and no later piece does, the scan returns its value. */
  lemma {:induction false} ScanHomeTypeLastAt(pieces: seq<string>, k: int)
    requires forall piece :: piece in pieces && IsHomeTypePiece(piece) ==> ':' in piece
    requires 0 <= k < |pieces| && IsHomeTypePiece(pieces[k])
    requires forall j :: k < j < |pieces| ==> !IsHomeTypePiece(pieces[j])
    ensures ':' in pieces[k] && ScanHomeType(pieces) == PieceValue(pieces[k])
    decreases |pieces|
  {
    assert pieces[k] in pieces;
    if k < |pieces| - 1 {
      var init := pieces[..|pieces| - 1];
      assert forall piece :: piece in init ==> piece in pieces;
      assert !IsHomeTypePiece(pieces[|pieces| - 1]);
      assert init[k] == pieces[k];
      assert forall j :: k < j < |init| ==> init[j] == pieces[j];
      ScanHomeTypeLastAt(init, k);
    }
  }

  /** A home type other than the default is the value of a matching piece. */
  lemma {:induction false} ScanHomeTypeIsSomeMatch(pieces: seq<string>)
    requires forall piece :: piece in pieces && IsHomeTypePiece(piece) ==> ':' in piece
    ensures ScanHomeType(pieces) == "0" ||
            exists piece :: piece in pieces && IsHomeTypePiece(piece) && ':' in piece &&
                            ScanHomeType(pieces) == PieceValue(piece)
    decreases |pieces|
  {
    if pieces != [] {
      var init := pieces[..|pieces| - 1];
      assert forall piece :: piece in init ==> piece in pieces;
      ScanHomeTypeIsSomeMatch(init);
    }
  }

  /** `get_home_type`: default "0", then every matching piece overwrites it. */
  method GetHomeType(typeBlob: string) returns (homeType: string)
    requires WellFormedBlob(typeBlob)
    ensures homeType == HomeTypeOf(typeBlob)
  {
    homeType := "0";
    var pieces := Split(typeBlob, ',');
    for i := 0 to |pieces|
      invariant homeType == ScanHomeType(pieces[..i])
    {
      var j := pieces[i];
      assert pieces[..i + 1][..i] == pieces[..i];
      if |j| >= 9 && j[1..9] == "homeType" {
        assert ':' in j by {
          assert j in pieces;
        }
        homeType := Strip(Strip(Split(j, ':')[1], {' '}), {'"'});
      }
    }
    assert pieces[..|pieces|] == pieces;
  }

  // ---------------------------------------------------------------------------
  // iterate_over_house_on_page

  /** The row a card produces. The caption address is read but then
      overwritten in the street column by the itemprop street. */
  function CardRow(card: Card): Row
    requires WellFormedBlob(card.typeBlob)
  {
    Row(card.zpid, card.statusType, card.latitude, card.longitude,
        CardPrice(card.priceText), card.zipcode, card.street, card.city,
        card.state, HomeTypeOf(card.typeBlob), DaysOn(card.badgeText))
  }

  predicate WellFormedCards(cards: seq<Card>)
  {
    forall k :: 0 <= k < |cards| ==> WellFormedBlob(cards[k].typeBlob)
  }

  /** The rows of a page, one per card, in card order. */
  function RowsOf(cards: seq<Card>): (rows: seq<Row>)
    requires WellFormedCards(cards)
    ensures |rows| == |cards|
  {
    seq(|cards|, k requires 0 <= k < |cards| => CardRow(cards[k]))
  }

  /** Row `k` of a page table is the row scraped from card `k`. */
  lemma RowsOfIndex(cards: seq<Card>)
    requires WellFormedCards(cards)
    ensures forall k :: 0 <= k < |cards| ==> RowsOf(cards)[k] == CardRow(cards[k])
  {
  }

  /** A blank row, standing for the NaN-filled frame the source pre-sizes. */
  const BlankRow := Row(None, None, "", "", ZeroPrice, "", "", "", "", "", 0)

  class ZillowParser {
    /** `zillow_data_master`: every row scraped so far, in order. */
    var master: seq<Row>
    /** `photo_cards`: the cards of the page being scraped. */
    var photoCards: seq<Card>
    /** `zillow_data`: the rows of the page being scraped. */
    var pageData: seq<Row>

    constructor ()
      ensures master == [] && photoCards == [] && pageData == []
    {
      master := [];
      photoCards := [];
      pageData := [];
    }

    /** `get_houses`: take the page's cards, size the page table, scrape. */
    method GetHouses(cards: seq<Card>)
      requires WellFormedCards(cards)
      modifies this
      ensures photoCards == cards
      ensures pageData == RowsOf(cards)
      ensures master == old(master) + RowsOf(cards)
    {
      photoCards := cards;
      pageData := seq(|cards|, _ => BlankRow);
      IterateOverHouseOnPage();
    }

    /** The body of `iterate_over_house_on_page` for one card: read each
        field off the card into the row at that position. */
    method ScrapeCard(k: Card) returns (row: Row)
      requires WellFormedBlob(k.typeBlob)
      ensures row == CardRow(k)
    {
      var homeType := GetHomeType(k.typeBlob);
      var price := CardPrice(k.priceText);
      var daysOn := DaysOn(k.badgeText);
      row := Row(k.zpid, k.statusType, k.latitude, k.longitude,
                 price, k.zipcode, k.street, k.city, k.state, homeType, daysOn);
    }

    /** `iterate_over_house_on_page`: write one row per card at position `m`,
        then append the page table to the master table. */
    method IterateOverHouseOnPage()
      requires WellFormedCards(photoCards)
      requires |pageData| == |photoCards|
      modifies this`pageData, this`master
      ensures pageData == RowsOf(photoCards)
      ensures master == old(master) + RowsOf(photoCards)
    {
      var m := 0;
      while m < |photoCards|
        invariant 0 <= m <= |photoCards|
        invariant |pageData| == |photoCards|
        invariant forall k :: 0 <= k < m ==> pageData[k] == CardRow(photoCards[k])
        invariant master == old(master)
      {
        var row := ScrapeCard(photoCards[m]);
        pageData := pageData[m := row];
        m := m + 1;
      }
      RowsOfIndex(photoCards);
      master := master + pageData;
    }
  }
}
