/** The incremental merge of `dump_zipcode_dataframe` (gather_data.py): the
    rows already saved for a zip code are concatenated with the newly scraped
    rows and duplicate `zillow_id` values are dropped, keeping the last. With
    no saved file the new rows are written as they are. The CSV round trip and
    its dtype coercion are not modelled. */
module Store {
  import opened PyText
  import opened Listing

  /** The ids occurring in `rows`. */
  function Ids(rows: seq<Row>): set<Option<string>>
    decreases |rows|
  {
    if rows == [] then {} else {rows[0].id} + Ids(rows[1..])
  }

  /** An id is in `Ids(rows)` exactly when some row carries it. */
  lemma {:induction false} IdsMembers(rows: seq<Row>)
    ensures forall x :: x in rows ==> x.id in Ids(rows)
    ensures forall id :: id in Ids(rows) ==> exists x :: x in rows && x.id == id
    decreases |rows|
  {
    if rows != [] {
      IdsMembers(rows[1..]);
      assert rows == [rows[0]] + rows[1..];
    }
  }

  predicate UniqueIds(rows: seq<Row>)
  {
    forall i, j :: 0 <= i < j < |rows| ==> rows[i].id != rows[j].id
  }

  lemma {:induction false} IdsAppend(a: seq<Row>, b: seq<Row>)
    ensures Ids(a + b) == Ids(a) + Ids(b)
    decreases |a|
  {
    if a == [] {
      assert a + b == b;
    } else {
      assert (a + b)[0] == a[0] && (a + b)[1..] == a[1..] + b;
      IdsAppend(a[1..], b);
    }
  }

  lemma IdsCons(r: Row, rest: seq<Row>)
    ensures Ids([r] + rest) == {r.id} + Ids(rest)
  {
    IdsAppend([r], rest);
  }

  /** `drop_duplicates(subset='zillow_id', keep='last')`: a row survives when no
      later row shares its id; survivors keep their order. (pandas treats two
      missing ids as equal, as `None == None` does here.) The table never
      grows, and its last row always survives. */
  function KeepLast(rows: seq<Row>): (r: seq<Row>)
    ensures |r| <= |rows|
    ensures rows != [] ==> r != [] && r[|r| - 1] == rows[|rows| - 1]
    decreases |rows|
  {
    if rows == [] then []
    else if rows[0].id in Ids(rows[1..]) then KeepLast(rows[1..])
    else [rows[0]] + KeepLast(rows[1..])
  }

  /** A row whose id the rest lacks keeps the ids unique. */
  lemma ConsUnique(h: Row, rest: seq<Row>)
    requires UniqueIds(rest) && h.id !in Ids(rest)
    ensures UniqueIds([h] + rest)
  {
    var r := [h] + rest;
    IdsMembers(rest);
    forall i, j | 0 <= i < j < |r| ensures r[i].id != r[j].id {
      if i == 0 {
        assert r[j] == rest[j - 1] && r[j] in rest;
      } else {
        assert r[i] == rest[i - 1] && r[j] == rest[j - 1];
      }
    }
  }

  /** Keep-last leaves each id once, loses no id and invents no row. */
  lemma {:induction false} KeepLastProps(rows: seq<Row>)
    ensures UniqueIds(KeepLast(rows))
    ensures Ids(KeepLast(rows)) == Ids(rows)
    ensures forall x :: x in KeepLast(rows) ==> x in rows
    decreases |rows|
  {
    if rows != [] {
      var rest := KeepLast(rows[1..]);
      KeepLastProps(rows[1..]);
      IdsCons(rows[0], rows[1..]);
      assert rows == [rows[0]] + rows[1..];
      if rows[0].id !in Ids(rows[1..]) {
        IdsCons(rows[0], rest);
        ConsUnique(rows[0], rest);
      }
    }
  }

  /** The rows kept by the merge: the new rows alone without a saved file,
      otherwise at most the saved and the new rows together, ending with the
      last new row, and every row one of those. */
  function Merge(saved: Option<seq<Row>>, scraped: seq<Row>): (r: seq<Row>)
    ensures saved.None? ==> r == scraped
    ensures saved.Some? ==> |r| <= |saved.value| + |scraped|
    ensures scraped != [] ==> r != [] && r[|r| - 1] == scraped[|scraped| - 1]
    ensures forall x :: x in r ==> x in scraped || (saved.Some? && x in saved.value)
  {
    match saved
    case None => scraped
    case Some(stored) =>
      KeepLastProps(stored + scraped);
      KeepLast(stored + scraped)
  }

  /** The last row of `rows` with the given id. */
  function LastWithId(rows: seq<Row>, id: Option<string>): (r: Row)
    requires id in Ids(rows)
    ensures r in rows && r.id == id
    decreases |rows|
  {
    var last := rows[|rows| - 1];
    if last.id == id then last
    else
      assert rows == rows[..|rows| - 1] + [last];
      IdsAppend(rows[..|rows| - 1], [last]);
      LastWithId(rows[..|rows| - 1], id)
  }

  /** The rows of `rows` whose id is not in `ids`, in order. */
  function Without(rows: seq<Row>, ids: set<Option<string>>): seq<Row>
    decreases |rows|
  {
    if rows == [] then []
    else if rows[0].id in ids then Without(rows[1..], ids)
    else [rows[0]] + Without(rows[1..], ids)
  }

  lemma {:induction false} WithoutMembers(rows: seq<Row>, ids: set<Option<string>>)
    ensures forall x :: x in Without(rows, ids) <==> x in rows && x.id !in ids
    decreases |rows|
  {
    if rows != [] {
      WithoutMembers(rows[1..], ids);
      assert rows == [rows[0]] + rows[1..];
    }
  }

  // ---------------------------------------------------------------------------
  // Properties of keep-last

  /** Every survivor is the last row bearing its id. */
  lemma {:induction false} KeepLastKeepsLast(rows: seq<Row>)
    ensures forall x :: x in KeepLast(rows) ==> x.id in Ids(rows) && x == LastWithId(rows, x.id)
    decreases |rows|
  {
    if rows != [] {
      var tail := rows[1..];
      KeepLastKeepsLast(tail);
      assert rows == [rows[0]] + tail;
      KeepLastCons(rows[0], tail);
      IdsCons(rows[0], tail);
      forall x | x in KeepLast(rows) ensures x.id in Ids(rows) && x == LastWithId(rows, x.id) {
        if x in KeepLast(tail) {
          LastWithIdOfSuffix(rows[0], tail, x.id);
        } else {
          assert x == rows[0] && rows[0].id !in Ids(tail);
          LastWithIdOfHead(rows[0], tail);
        }
      }
    }
  }

  lemma {:induction false} LastWithIdOfSuffix(h: Row, tail: seq<Row>, id: Option<string>)
    requires id in Ids(tail)
    ensures id in Ids([h] + tail) && LastWithId([h] + tail, id) == LastWithId(tail, id)
    decreases |tail|
  {
    IdsCons(h, tail);
    var rows := [h] + tail;
    var last := tail[|tail| - 1];
    assert rows[|rows| - 1] == last;
    if last.id != id {
      assert rows[..|rows| - 1] == [h] + tail[..|tail| - 1];
      assert tail == tail[..|tail| - 1] + [last];
      IdsAppend(tail[..|tail| - 1], [last]);
      LastWithIdOfSuffix(h, tail[..|tail| - 1], id);
    }
  }

  lemma {:induction false} LastWithIdOfHead(h: Row, tail: seq<Row>)
    requires h.id !in Ids(tail)
    ensures h.id in Ids([h] + tail) && LastWithId([h] + tail, h.id) == h
    decreases |tail|
  {
    IdsCons(h, tail);
    var rows := [h] + tail;
    if tail != [] {
      var last := tail[|tail| - 1];
      assert last in tail;
      assert rows[|rows| - 1] == last;
      assert rows[..|rows| - 1] == [h] + tail[..|tail| - 1];
      assert tail == tail[..|tail| - 1] + [last];
      IdsAppend(tail[..|tail| - 1], [last]);
      LastWithIdOfHead(h, tail[..|tail| - 1]);
    }
  }

  /** Keep-last leaves rows with unique ids alone. */
  lemma {:induction false} KeepLastOfUnique(rows: seq<Row>)
    requires UniqueIds(rows)
    ensures KeepLast(rows) == rows
    decreases |rows|
  {
    if rows != [] {
      var tail := rows[1..];
      assert UniqueIds(tail) by {
        forall i, j | 0 <= i < j < |tail| ensures tail[i].id != tail[j].id {
          assert tail[i] == rows[i + 1] && tail[j] == rows[j + 1];
        }
      }
      KeepLastOfUnique(tail);
      assert rows[0].id !in Ids(tail) by {
        IdsMembers(tail);
        forall x | x in tail ensures x.id != rows[0].id {
          var j :| 0 <= j < |tail| && tail[j] == x;
          assert rows[j + 1] == x;
        }
      }
      assert rows == [rows[0]] + tail;
    }
  }

  /** Keep-last of a concatenation: the survivors of the front part whose ids
      the back part does not mention, then the survivors of the back part. */
  lemma {:induction false} KeepLastAppend(a: seq<Row>, b: seq<Row>)
    ensures KeepLast(a + b) == Without(KeepLast(a), Ids(b)) + KeepLast(b)
    decreases |a|
  {
    if a == [] {
      assert a + b == b;
    } else {
      var h, t := a[0], a[1..];
      assert a == [h] + t;
      assert a + b == [h] + (t + b);
      KeepLastAppend(t, b);
      KeepLastAppendStep(h, t, b);
    }
  }

  lemma KeepLastAppendStep(h: Row, t: seq<Row>, b: seq<Row>)
    requires KeepLast(t + b) == Without(KeepLast(t), Ids(b)) + KeepLast(b)
    ensures KeepLast([h] + (t + b)) == Without(KeepLast([h] + t), Ids(b)) + KeepLast(b)
  {
    IdsAppend(t, b);
    KeepLastCons(h, t + b);
    KeepLastCons(h, t);
    if h.id in Ids(t) {
    } else if h.id in Ids(b) {
      WithoutCons(h, KeepLast(t), Ids(b));
    } else {
      WithoutCons(h, KeepLast(t), Ids(b));
      ConsAssoc(h, Without(KeepLast(t), Ids(b)), KeepLast(b));
    }
  }

  lemma ConsAssoc(h: Row, x: seq<Row>, y: seq<Row>)
    ensures [h] + (x + y) == ([h] + x) + y
  {
  }

  lemma KeepLastCons(h: Row, t: seq<Row>)
    ensures KeepLast([h] + t) == if h.id in Ids(t) then KeepLast(t) else [h] + KeepLast(t)
  {
    assert ([h] + t)[1..] == t;
  }

  lemma WithoutCons(h: Row, t: seq<Row>, ids: set<Option<string>>)
    ensures Without([h] + t, ids) == if h.id in ids then Without(t, ids) else [h] + Without(t, ids)
  {
    assert ([h] + t)[1..] == t;
  }

  lemma {:induction false} WithoutAll(rows: seq<Row>, ids: set<Option<string>>)
    requires Ids(rows) <= ids
    ensures Without(rows, ids) == []
    decreases |rows|
  {
    if rows != [] {
      IdsCons(rows[0], rows[1..]);
      assert rows == [rows[0]] + rows[1..];
      WithoutAll(rows[1..], ids);
    }
  }

  lemma {:induction false} WithoutTwice(rows: seq<Row>, ids: set<Option<string>>)
    ensures Without(Without(rows, ids), ids) == Without(rows, ids)
    decreases |rows|
  {
    if rows != [] {
      WithoutTwice(rows[1..], ids);
      if rows[0].id !in ids {
        assert ([rows[0]] + Without(rows[1..], ids))[1..] == Without(rows[1..], ids);
      }
    }
  }

  lemma {:induction false} WithoutAppend(a: seq<Row>, b: seq<Row>, ids: set<Option<string>>)
    ensures Without(a + b, ids) == Without(a, ids) + Without(b, ids)
    decreases |a|
  {
    if a == [] {
      assert a + b == b;
    } else {
      assert (a + b)[0] == a[0] && (a + b)[1..] == a[1..] + b;
      WithoutAppend(a[1..], b, ids);
    }
  }

  // ---------------------------------------------------------------------------
  // Properties of the merge

  /** With a saved file, the merged rows carry each id once and the ids are
      those of the saved and the new rows together. */
  lemma MergeIds(stored: seq<Row>, scraped: seq<Row>)
    ensures UniqueIds(Merge(Some(stored), scraped))
    ensures Ids(Merge(Some(stored), scraped)) == Ids(stored) + Ids(scraped)
  {
    KeepLastProps(stored + scraped);
    IdsAppend(stored, scraped);
  }

  /** Newest wins: for an id among the new rows, the merged row with that id is
      the last new row with it, taken whole; for an id only among the saved
      rows, it is the last saved row with it. */
  lemma MergeNewestWins(stored: seq<Row>, scraped: seq<Row>)
    ensures forall x :: x in Merge(Some(stored), scraped) && x.id in Ids(scraped) ==> x == LastWithId(scraped, x.id)
    ensures forall x :: x in Merge(Some(stored), scraped) && x.id !in Ids(scraped) ==> x.id in Ids(stored) && x == LastWithId(stored, x.id)
  {
    KeepLastKeepsLast(stored + scraped);
    KeepLastAppend(stored, scraped);
    KeepLastKeepsLast(stored);
    KeepLastKeepsLast(scraped);
    IdsAppend(stored, scraped);
    WithoutMembers(KeepLast(stored), Ids(scraped));
    KeepLastProps(scraped);
    assert forall x :: x in KeepLast(stored + scraped) ==> x in Without(KeepLast(stored), Ids(scraped)) || x in KeepLast(scraped);
  }

  /** Without a saved file the new rows are written unchanged, duplicates included. */
  lemma MergeFirstWrite(scraped: seq<Row>)
    ensures Merge(None, scraped) == scraped
  {
  }

  /** Merging the same new rows twice in succession into a saved file gives the
      same rows as merging them once. */
  lemma MergeTwice(stored: seq<Row>, scraped: seq<Row>)
    ensures Merge(Some(Merge(Some(stored), scraped)), scraped) == Merge(Some(stored), scraped)
  {
    var once := Merge(Some(stored), scraped);
    KeepLastAppend(stored, scraped);
    KeepLastAppend(once, scraped);
    KeepLastProps(stored + scraped);
    KeepLastProps(scraped);
    KeepLastOfUnique(once);
    WithoutAppend(Without(KeepLast(stored), Ids(scraped)), KeepLast(scraped), Ids(scraped));
    WithoutTwice(KeepLast(stored), Ids(scraped));
    WithoutAll(KeepLast(scraped), Ids(scraped));
    assert Without(KeepLast(stored), Ids(scraped)) + [] == Without(KeepLast(stored), Ids(scraped));
  }

  /** With no saved file, a second merge of the same rows drops the duplicates
      the first write kept: the two agree exactly when the new ids are unique. */
  lemma MergeTwiceWithoutFile(scraped: seq<Row>)
    ensures Merge(Some(Merge(None, scraped)), scraped) == KeepLast(scraped)
    ensures Merge(Some(Merge(None, scraped)), scraped) == Merge(None, scraped) <==> UniqueIds(scraped)
  {
    KeepLastAppend(scraped, scraped);
    KeepLastProps(scraped);
    WithoutAll(KeepLast(scraped), Ids(scraped));
    assert [] + KeepLast(scraped) == KeepLast(scraped);
    if UniqueIds(scraped) {
      KeepLastOfUnique(scraped);
    }
  }
}
