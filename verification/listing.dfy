/**
 Listing a category (`GetNotesByCategory` in db/cosmos.go): the query pager is
 drained page by page and every item of every page is unmarshalled, in order.
 The first page failure or item decode failure aborts the listing with that
 raw error and no notes.
 */
module Listing {
  import opened Wrappers
  import opened GoErrors
  import opened Storage

  /** Unmarshals `items` in order, stopping at the first failure. */
  function DecodeItems(items: seq<Bytes>, json: Json): Result<seq<Note>, Error>
    decreases |items|
  {
    if |items| == 0 then Success([])
    else
      match DecodeItems(items[..|items| - 1], json)
      case Failure(e) => Failure(e)
      case Success(ns) =>
        match json.unmarshal(items[|items| - 1])
        case Failure(e) => Failure(e)
        case Success(n) => Success(ns + [n])
  }

  /** Aggregates the pages in order, stopping at the first failing page or item. */
  function Collect(pages: seq<Page>, json: Json): Result<seq<Note>, Error>
    decreases |pages|
  {
    if |pages| == 0 then Success([])
    else
      match Collect(pages[..|pages| - 1], json)
      case Failure(e) => Failure(e)
      case Success(ns) =>
        match pages[|pages| - 1]
        case PageFailed(e) => Failure(e)
        case Page(items) =>
          match DecodeItems(items, json)
          case Failure(e) => Failure(e)
          case Success(ms) => Success(ns + ms)
  }

  /** The listing as the storage layer returns it: the collected notes, or no notes and the raw error. */
  function ListNotes(client: Client, json: Json, category: string): (r: Outcome<seq<Note>>)
    ensures r.sent == Some(QueryItems(category, SelectAll))
    ensures r.err.Some? ==> r.value == []
  {
    match Collect(client.query(category, SelectAll), json)
    case Success(ns) => Outcome(Some(QueryItems(category, SelectAll)), ns, None)
    case Failure(e) => Outcome(Some(QueryItems(category, SelectAll)), [], Some(e))
  }

  // ---------------------------------------------------------------------------
  // An independent description of the result

  /** All items of all pages, in page order (a failed page has none). */
  function Items(pages: seq<Page>): seq<Bytes>
    decreases |pages|
  {
    if |pages| == 0 then []
    else
      Items(pages[..|pages| - 1])
      + (match pages[|pages| - 1] case Page(items) => items case PageFailed(_) => [])
  }

  /** Every page arrived and every item in it unmarshals. */
  predicate AllDecode(pages: seq<Page>, json: Json)
  {
    && (forall i :: 0 <= i < |pages| ==> pages[i].Page?)
    && (forall b :: b in Items(pages) ==> json.unmarshal(b).Success?)
  }

  /** Item decoding succeeds exactly when every item unmarshals, and then yields their notes in order. */
  lemma {:induction false} DecodeItemsSpec(items: seq<Bytes>, json: Json)
    ensures DecodeItems(items, json).Success? <==> forall j :: 0 <= j < |items| ==> json.unmarshal(items[j]).Success?
    ensures DecodeItems(items, json).Success? ==>
              && |DecodeItems(items, json).value| == |items|
              && forall j :: 0 <= j < |items| ==> json.unmarshal(items[j]) == Success(DecodeItems(items, json).value[j])
    ensures DecodeItems(items, json).Failure? ==>
              exists j :: 0 <= j < |items| && json.unmarshal(items[j]) == Failure(DecodeItems(items, json).error)
    decreases |items|
  {
    if |items| > 0 {
      var init := items[..|items| - 1];
      DecodeItemsSpec(init, json);
      assert forall j :: 0 <= j < |init| ==> init[j] == items[j];
      if DecodeItems(init, json).Failure? {
        var j :| 0 <= j < |init| && json.unmarshal(init[j]) == Failure(DecodeItems(init, json).error);
        assert json.unmarshal(items[j]) == Failure(DecodeItems(items, json).error);
      }
    }
  }

  /**
   When every page and item succeeds, the listing is exactly the in-order
   decoding of all items of all pages; otherwise it fails. Zero pages give an
   empty listing.
   */
  lemma {:induction false} CollectSuccess(pages: seq<Page>, json: Json)
    ensures Collect(pages, json).Success? <==> AllDecode(pages, json)
    ensures Collect(pages, json).Success? ==>
              && |Collect(pages, json).value| == |Items(pages)|
              && forall k :: 0 <= k < |Items(pages)| ==>
                   json.unmarshal(Items(pages)[k]) == Success(Collect(pages, json).value[k])
    decreases |pages|
  {
    if |pages| > 0 {
      var init := pages[..|pages| - 1];
      var last := pages[|pages| - 1];
      CollectSuccess(init, json);
      assert forall i :: 0 <= i < |init| ==> init[i] == pages[i];
      if last.Page? {
        DecodeItemsSpec(last.items, json);
        assert Items(pages) == Items(init) + last.items;
        assert forall b :: b in last.items <==> exists j :: 0 <= j < |last.items| && last.items[j] == b;
        if Collect(pages, json).Success? {
          var ns := Collect(init, json).value;
          var ms := DecodeItems(last.items, json).value;
          assert Collect(pages, json).value == ns + ms;
          forall k | 0 <= k < |Items(pages)|
            ensures json.unmarshal(Items(pages)[k]) == Success(Collect(pages, json).value[k])
          {
            if k >= |Items(init)| {
              assert Items(pages)[k] == last.items[k - |Items(init)|];
            }
          }
        }
        if AllDecode(pages, json) {
          assert AllDecode(init, json);
        }
      } else {
        assert !AllDecode(pages, json);
      }
    }
  }

  /** A failed listing reports a raw error: a failed page's own error, or the unmarshal error of one of the items. */
  lemma {:induction false} CollectFailureIsRaw(pages: seq<Page>, json: Json)
    requires Collect(pages, json).Failure?
    ensures || (exists i :: 0 <= i < |pages| && pages[i] == PageFailed(Collect(pages, json).error))
            || (exists b :: b in Items(pages) && json.unmarshal(b) == Failure(Collect(pages, json).error))
    decreases |pages|
  {
    var e := Collect(pages, json).error;
    var init := pages[..|pages| - 1];
    var last := pages[|pages| - 1];
    assert forall i :: 0 <= i < |init| ==> init[i] == pages[i];
    if Collect(init, json).Failure? {
      CollectFailureIsRaw(init, json);
      if exists i :: 0 <= i < |init| && init[i] == PageFailed(e) {
        var i :| 0 <= i < |init| && init[i] == PageFailed(e);
        assert pages[i] == PageFailed(e);
      } else {
        var b :| b in Items(init) && json.unmarshal(b) == Failure(e);
      }
    } else if last.Page? {
      DecodeItemsSpec(last.items, json);
      var j :| 0 <= j < |last.items| && json.unmarshal(last.items[j]) == Failure(e);
    } else {
      assert pages[|pages| - 1] == PageFailed(e);
    }
  }

  // ---------------------------------------------------------------------------
  // The pager loop

  /** Once a prefix of the items fails to decode, the whole item list fails with the same error. */
  lemma {:induction false} DecodeItemsFailureSticks(items: seq<Bytes>, json: Json, j: nat, e: Error)
    requires j <= |items|
    requires DecodeItems(items[..j], json) == Failure(e)
    ensures DecodeItems(items, json) == Failure(e)
    decreases |items| - j
  {
    if j == |items| {
      assert items[..j] == items;
    } else {
      assert items[..j + 1][..j] == items[..j];
      DecodeItemsFailureSticks(items, json, j + 1, e);
    }
  }

  /** Once a prefix of the pages fails, the whole listing fails with the same error. */
  lemma {:induction false} CollectFailureSticks(pages: seq<Page>, json: Json, i: nat, e: Error)
    requires i <= |pages|
    requires Collect(pages[..i], json) == Failure(e)
    ensures Collect(pages, json) == Failure(e)
    decreases |pages| - i
  {
    if i == |pages| {
      assert pages[..i] == pages;
    } else {
      assert pages[..i + 1][..i] == pages[..i];
      CollectFailureSticks(pages, json, i + 1, e);
    }
  }

  /**
   `GetNotesByCategory`: queries partition `category` and drains the pager,
   appending each decoded item; aborts on the first page or decode error.
   */
  method GetNotesByCategory(client: Client, json: Json, category: string)
    returns (sent: Call, notes: seq<Note>, err: Option<Error>)
    ensures Outcome(Some(sent), notes, err) == ListNotes(client, json, category)
  {
    sent := QueryItems(category, SelectAll);
    var pages := client.query(category, SelectAll);
    notes := [];
    var i := 0;
    while i < |pages|
      invariant 0 <= i <= |pages|
      invariant Collect(pages[..i], json) == Success(notes)
    {
      assert pages[..i + 1][..i] == pages[..i];
      match pages[i]
      case PageFailed(e) =>
        CollectFailureSticks(pages, json, i + 1, e);
        return sent, [], Some(e);
      case Page(items) =>
        ghost var before := notes;
        var j := 0;
        while j < |items|
          invariant 0 <= j <= |items|
          invariant DecodeItems(items[..j], json).Success?
          invariant notes == before + DecodeItems(items[..j], json).value
        {
          assert items[..j + 1][..j] == items[..j];
          match json.unmarshal(items[j])
          case Failure(e) =>
            DecodeItemsFailureSticks(items, json, j + 1, e);
            CollectFailureSticks(pages, json, i + 1, e);
            return sent, [], Some(e);
          case Success(n) =>
            notes := notes + [n];
            j := j + 1;
        }
        assert items[..j] == items;
        i := i + 1;
    }
    assert pages[..i] == pages;
    err := None;
  }
}
