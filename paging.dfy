/**
 * Listing a collection page by page: the clients ask for a first page, then
 * follow `paging.next[0]` without query parameters until a page has no "next".
 * A walk is the sequence of responses the controller gives along that chain.
 */
module Paging {
  import opened Wrappers
  import opened Api
  import Utils

  predicate HasNext(r: Response<Page>)
  {
    r.json.Some? && r.json.value.next.Some?
  }

  /** Whether a listing loop asks for another page after r; the checking client also stops on a non-2xx status. */
  predicate GoesOn(r: Response<Page>, checked: bool)
  {
    (!checked || Is2xx(r.status)) && HasNext(r)
  }

  /** The request that follows r's next link: a GET of that URL, with the query parameters dropped. */
  function NextCall(r: Response<Page>): Call
    requires HasNext(r)
  {
    Call(GET, r.json.value.next.value, [], NoBody)
  }

  /** walk is what the controller answers to `first` and then to each followed next link. */
  ghost predicate Follows(server: Call -> Response<Page>, first: Call, walk: seq<Response<Page>>)
  {
    && |walk| > 0
    && walk[0] == server(first)
    && forall i :: 0 <= i < |walk| - 1 ==> HasNext(walk[i]) && walk[i + 1] == server(NextCall(walk[i]))
  }

  /** A whole listing: every page but the last lets the loop go on, the last one stops it. */
  ghost predicate IsWalk(server: Call -> Response<Page>, first: Call, walk: seq<Response<Page>>, checked: bool)
  {
    && Follows(server, first, walk)
    && (forall i :: 0 <= i < |walk| - 1 ==> GoesOn(walk[i], checked))
    && !GoesOn(walk[|walk| - 1], checked)
  }

  /** The request a listing loop sends for page i of walk: `first`, then the previous page's next link. */
  function WalkCall(first: Call, walk: seq<Response<Page>>, i: nat): Call
    requires i < |walk| && (i > 0 ==> HasNext(walk[i - 1]))
  {
    if i == 0 then first else NextCall(walk[i - 1])
  }

  /** The requests a walk takes: `first`, then one GET per followed next link. */
  function WalkSteps(first: Call, walk: seq<Response<Page>>): (steps: seq<Step>)
    requires forall i :: 0 <= i < |walk| - 1 ==> HasNext(walk[i])
    ensures |steps| == |walk|
  {
    seq(|walk|, i requires 0 <= i < |walk| && (i > 0 ==> HasNext(walk[i - 1])) => Request(WalkCall(first, walk, i)))
  }

  /**
   * Page n of a walk answers the n-th request of the listing loop, and the
   * loop goes on after it exactly when another page follows.
   */
  lemma WalkAt(server: Call -> Response<Page>, first: Call, walk: seq<Response<Page>>, checked: bool, n: nat)
    requires IsWalk(server, first, walk, checked)
    requires n < |walk|
    ensures n > 0 ==> HasNext(walk[n - 1])
    ensures walk[n] == server(WalkCall(first, walk, n))
    ensures GoesOn(walk[n], checked) <==> n < |walk| - 1
  {
  }

  /** Fetching page n of a walk adds one request: `first` for page 0, else the previous page's next link. */
  lemma WalkStepsExtend(first: Call, walk: seq<Response<Page>>, n: nat)
    requires n < |walk|
    requires forall i :: 0 <= i < |walk| - 1 ==> HasNext(walk[i])
    ensures WalkSteps(first, walk[..n + 1]) == WalkSteps(first, walk[..n]) + [Request(WalkCall(first, walk, n))]
  {
    var longer, shorter := WalkSteps(first, walk[..n + 1]), WalkSteps(first, walk[..n]);
    forall i | 0 <= i < n ensures longer[i] == shorter[i] {
      assert walk[..n + 1][..i] == walk[..n][..i];
    }
    assert longer == shorter + [Request(WalkCall(first, walk, n))];
  }

  /** Fetching page n of a walk adds that page's items after those already seen. */
  lemma ItemsExtend(walk: seq<Response<Page>>, n: nat)
    requires n < |walk|
    ensures Items(walk[..n + 1]) == Items(walk[..n]) + PageItems(walk[n])
  {
    assert walk[..n + 1][..n] == walk[..n];
  }

  /** Adding one item to the index sets that item's name. */
  lemma IndexExtend(items: seq<Item>, item: Item, what: Recorded)
    ensures Index(items + [item], what) == Index(items, what)[item.name := ValueOf(item, what)]
  {
    assert (items + [item])[..|items|] == items;
  }

  /**
   * The requests of a listing: one per page, `first` for the first page and,
   * for every later page, a GET of the previous page's next link with no
   * query parameters.
   */
  lemma WalkRequests(first: Call, walk: seq<Response<Page>>)
    requires |walk| > 0 && forall i :: 0 <= i < |walk| - 1 ==> HasNext(walk[i])
    ensures |WalkSteps(first, walk)| == |walk|
    ensures WalkSteps(first, walk)[0] == Request(first)
    ensures forall i :: 0 < i < |walk| ==>
      WalkSteps(first, walk)[i] == Request(Call(GET, walk[i - 1].json.value.next.value, [], NoBody))
  {
  }

  /** A walk only reads: one GET per page and nothing else. */
  lemma WalkReadOnly(first: Call, walk: seq<Response<Page>>)
    requires first.verb == GET
    requires forall i :: 0 <= i < |walk| - 1 ==> HasNext(walk[i])
    ensures !Writes(WalkSteps(first, walk))
    ensures forall k :: 0 <= k < |walk| ==> WalkSteps(first, walk)[k].Request?
  {
  }

  /** The items of a page whose body could be read. */
  function PageItems(r: Response<Page>): seq<Item>
  {
    if r.json.Some? then r.json.value.items else []
  }

  /** The items of every page of the walk, page after page. */
  function Items(walk: seq<Response<Page>>): seq<Item>
    decreases |walk|
  {
    if walk == [] then [] else Items(walk[..|walk| - 1]) + PageItems(walk[|walk| - 1])
  }

  /** Why a walk ended, when not at a page without "next": a non-2xx status (checking client) or a body without items. */
  function WalkError(last: Response<Page>, checked: bool): Option<Error>
  {
    if checked && !Is2xx(last.status) then Some(Raised(Utils.StatusCodeError(last.status, last.text)))
    else if last.json.None? then Some(Malformed("items"))
    else None
  }

  /** A walk that did not fail ends exactly at its first page without a next link. */
  lemma WalkEndsWithoutNext(server: Call -> Response<Page>, first: Call, walk: seq<Response<Page>>, checked: bool)
    requires IsWalk(server, first, walk, checked)
    requires WalkError(walk[|walk| - 1], checked).None?
    ensures walk[|walk| - 1].json.Some? && walk[|walk| - 1].json.value.next.None?
    ensures forall i :: 0 <= i < |walk| - 1 ==> walk[i].json.Some? && walk[i].json.value.next.Some?
  {
  }

  // ---------------------------------------------------------------------------
  // The name index built from a listing (get_all_hosts)
  // ---------------------------------------------------------------------------

  /** Which field of an item a name index records. */
  datatype Recorded = ItemId | ItemSelfLink

  function ValueOf(item: Item, what: Recorded): string
  {
    match what
    case ItemId => item.id
    case ItemSelfLink => item.selfLink
  }

  /** The dict built by `all_hosts[item.name] = value` for each item in order. */
  function Index(items: seq<Item>, what: Recorded): map<string, string>
    decreases |items|
  {
    if items == [] then map[]
    else Index(items[..|items| - 1], what)[items[|items| - 1].name := ValueOf(items[|items| - 1], what)]
  }

  /**
   * The inner loop of get_all_hosts: records every item of one page in the
   * index built from the items seen so far, one assignment per item in order.
   */
  method Record(index: map<string, string>, items: seq<Item>, what: Recorded, ghost seen: seq<Item>)
    returns (updated: map<string, string>)
    requires index == Index(seen, what)
    ensures updated == Index(seen + items, what)
  {
    updated := index;
    assert seen + items[..0] == seen;
    for j := 0 to |items|
      invariant updated == Index(seen + items[..j], what)
    {
      assert seen + items[..j + 1] == seen + items[..j] + [items[j]];
      IndexExtend(seen + items[..j], items[j], what);
      updated := updated[items[j].name := ValueOf(items[j], what)];
    }
    assert items[..|items|] == items;
  }

  /** Records the items of page n of a walk in the index of the pages before it. */
  method RecordPage(index: map<string, string>, page: Page, what: Recorded, ghost walk: seq<Response<Page>>, ghost n: nat)
    returns (updated: map<string, string>)
    requires n < |walk| && walk[n].json == Some(page)
    requires index == Index(Items(walk[..n]), what)
    ensures updated == Index(Items(walk[..n + 1]), what)
  {
    ItemsExtend(walk, n);
    updated := Record(index, page.items, what, Items(walk[..n]));
  }

  /** What get_all_hosts returns for a walk: the name index, or the error that ended the walk. */
  function ListingResult(walk: seq<Response<Page>>, checked: bool, what: Recorded): Result<map<string, string>, Error>
    requires |walk| > 0
  {
    match WalkError(walk[|walk| - 1], checked)
    case Some(e) => Err(e)
    case None => Ok(Index(Items(walk), what))
  }

  function Names(items: seq<Item>): (names: seq<string>)
    ensures |names| == |items|
    ensures forall i :: 0 <= i < |items| ==> names[i] == items[i].name
  {
    seq(|items|, i requires 0 <= i < |items| => items[i].name)
  }

  lemma NamesAppend(a: seq<Item>, b: seq<Item>)
    ensures Names(a + b) == Names(a) + Names(b)
  {
  }

  /** The index has a key for every name on any page, and no other. */
  lemma {:induction false} IndexKeys(items: seq<Item>, what: Recorded)
    ensures Index(items, what).Keys == set i | i in items :: i.name
    decreases |items|
  {
    if items != [] {
      var prefix, last := items[..|items| - 1], items[|items| - 1];
      assert items == prefix + [last];
      IndexKeys(prefix, what);
    }
  }

  /** The position of the last item carrying `name`, or -1 when none does. */
  function LastWith(items: seq<Item>, name: string): (k: int)
    ensures -1 <= k < |items|
    ensures k >= 0 ==> items[k].name == name && forall j :: k < j < |items| ==> items[j].name != name
    ensures k == -1 ==> forall j :: 0 <= j < |items| ==> items[j].name != name
    decreases |items|
  {
    if items == [] then -1
    else if items[|items| - 1].name == name then |items| - 1
    else LastWith(items[..|items| - 1], name)
  }

  /** The index records, for each name, the value of the item that carries the name last. */
  lemma {:induction false} IndexLastWins(items: seq<Item>, what: Recorded)
    ensures forall name :: name in Index(items, what) ==>
      LastWith(items, name) >= 0 && Index(items, what)[name] == ValueOf(items[LastWith(items, name)], what)
    decreases |items|
  {
    if items != [] {
      var prefix, last := items[..|items| - 1], items[|items| - 1];
      IndexLastWins(prefix, what);
      assert Index(items, what) == Index(prefix, what)[last.name := ValueOf(last, what)];
      forall name | name in Index(items, what) && name != last.name
        ensures LastWith(items, name) >= 0 && Index(items, what)[name] == ValueOf(items[LastWith(items, name)], what)
      {
        assert LastWith(items, name) == LastWith(prefix, name);
        assert items[LastWith(prefix, name)] == prefix[LastWith(prefix, name)];
      }
    }
  }

  // ---------------------------------------------------------------------------
  // First match by name (the searches, the deployable-device lookup)
  // ---------------------------------------------------------------------------

  /** The first position at which `name` occurs in `names`, if any. */
  function FirstIndex(names: seq<string>, name: string): (k: Option<nat>)
    ensures k.Some? ==> k.value < |names| && names[k.value] == name
    ensures k.Some? ==> forall j :: 0 <= j < k.value ==> names[j] != name
    ensures k.None? <==> name !in names
    decreases |names|
  {
    if names == [] then None
    else if names[0] == name then Some(0)
    else
      match FirstIndex(names[1..], name)
      case None => None
      case Some(k) => Some(k + 1)
  }

  /** A name absent from a prefix is found first in what follows it. */
  lemma FirstIndexAfter(a: seq<string>, b: seq<string>, name: string)
    requires name !in a
    ensures FirstIndex(a + b, name) == match FirstIndex(b, name)
      case None => None
      case Some(k) => Some(|a| + k)
  {
    assert forall j :: 0 <= j < |a| ==> (a + b)[j] != name;
    assert forall j :: |a| <= j < |a + b| ==> (a + b)[j] == b[j - |a|];
    match FirstIndex(b, name)
    case None =>
      assert name !in a + b;
    case Some(k) =>
      assert (a + b)[|a| + k] == name;
      var r := FirstIndex(a + b, name).value;
      assert |a| <= r <= |a| + k;
      assert b[r - |a|] == name;
  }

  /** Whether a search loop asks for another page: the page is good, has no match, and has a next link. */
  predicate SearchGoesOn(r: Response<Page>, name: string)
  {
    GoesOn(r, true) && name !in Names(r.json.value.items)
  }

  /** A search: every page but the last is passed over, the last one stops it (a match, an error, or no next link). */
  ghost predicate IsSearch(server: Call -> Response<Page>, first: Call, walk: seq<Response<Page>>, name: string)
  {
    && Follows(server, first, walk)
    && (forall i :: 0 <= i < |walk| - 1 ==> SearchGoesOn(walk[i], name))
    && !SearchGoesOn(walk[|walk| - 1], name)
  }

  /** Page n of a search answers the n-th request of the search loop, which goes on after it exactly when another page follows. */
  lemma SearchAt(server: Call -> Response<Page>, first: Call, walk: seq<Response<Page>>, name: string, n: nat)
    requires IsSearch(server, first, walk, name)
    requires n < |walk|
    ensures n > 0 ==> HasNext(walk[n - 1])
    ensures walk[n] == server(WalkCall(first, walk, n))
    ensures SearchGoesOn(walk[n], name) <==> n < |walk| - 1
  {
  }

  /** What a search finds: the first item carrying `name`, over all pages in order. */
  function SearchResult(walk: seq<Response<Page>>, name: string): Result<Option<Item>, Error>
    requires |walk| > 0
  {
    match WalkError(walk[|walk| - 1], true)
    case Some(e) => Err(e)
    case None =>
      match FirstIndex(Names(Items(walk)), name)
      case None => Ok(None)
      case Some(k) => Ok(Some(Items(walk)[k]))
  }

  /**
   * The inner loop of the searches: the position of the first item on a page
   * that carries `name`, if any.
   */
  method MatchOnPage(items: seq<Item>, name: string) returns (k: Option<nat>)
    ensures k == FirstIndex(Names(items), name)
  {
    for i := 0 to |items|
      invariant forall j :: 0 <= j < i ==> items[j].name != name
    {
      if items[i].name == name {
        assert Names(items)[i] == name;
        return Some(i);
      }
    }
    return None;
  }

  /** The id of what a search found. */
  function FoundId(found: Result<Option<Item>, Error>): (r: Result<Option<string>, Error>)
    ensures found.Err? ==> r == Err(found.error)
    ensures found.Ok? && found.value.None? ==> r == Ok(None)
    ensures found.Ok? && found.value.Some? ==> r == Ok(Some(found.value.value.id))
  {
    match found
    case Err(e) => Err(e)
    case Ok(None) => Ok(None)
    case Ok(Some(item)) => Ok(Some(item.id))
  }

  /** No page a search passes over carries the name. */
  lemma {:induction false} PassedOverPages(walk: seq<Response<Page>>, n: nat, name: string)
    requires n <= |walk|
    requires forall i :: 0 <= i < n ==> SearchGoesOn(walk[i], name)
    ensures name !in Names(Items(walk[..n]))
    decreases n
  {
    if n > 0 {
      assert walk[..n][..n - 1] == walk[..n - 1];
      PassedOverPages(walk, n - 1, name);
      NamesAppend(Items(walk[..n - 1]), PageItems(walk[n - 1]));
    }
  }

  /**
   * A search returns the first item named `name` in page order, and that item
   * is on the last page fetched: no page after the match is requested.
   */
  lemma SearchFindsFirst(server: Call -> Response<Page>, first: Call, walk: seq<Response<Page>>, name: string)
    requires IsSearch(server, first, walk, name)
    requires SearchResult(walk, name).Ok? && SearchResult(walk, name).value.Some?
    ensures var items := Items(walk);
      exists k :: (|Items(walk[..|walk| - 1])| <= k < |items| && items[k] == SearchResult(walk, name).value.value
        && items[k].name == name && forall j :: 0 <= j < k ==> items[j].name != name)
  {
    var n := |walk|;
    var prior := Items(walk[..n - 1]);
    PassedOverPages(walk, n - 1, name);
    assert walk[..n] == walk;
    NamesAppend(prior, PageItems(walk[n - 1]));
    FirstIndexAfter(Names(prior), Names(PageItems(walk[n - 1])), name);
    assert Items(walk) == prior + PageItems(walk[n - 1]);
    var k := FirstIndex(Names(Items(walk)), name).value;
    assert |prior| <= k;
    assert Items(walk)[k] == SearchResult(walk, name).value.value;
    assert Names(Items(walk))[k] == Items(walk)[k].name;
    assert forall j :: 0 <= j < k ==> Names(Items(walk))[j] == Items(walk)[j].name;
  }

  /**
   * A search's outcome is decided by the page it stops at: the error that
   * page raises, else the first match on it, else nothing.
   */
  lemma SearchOnLast(walk: seq<Response<Page>>, name: string)
    requires |walk| > 0
    requires forall i :: 0 <= i < |walk| - 1 ==> SearchGoesOn(walk[i], name)
    ensures var last := walk[|walk| - 1];
      SearchResult(walk, name) == match WalkError(last, true)
        case Some(e) => Err(e)
        case None =>
          match FirstIndex(Names(last.json.value.items), name)
          case None => Ok(None)
          case Some(k) => Ok(Some(last.json.value.items[k]))
  {
    var n := |walk|;
    var last := walk[n - 1];
    if WalkError(last, true).None? {
      PassedOverPages(walk, n - 1, name);
      assert Items(walk) == Items(walk[..n - 1]) + last.json.value.items;
      FirstMatchAfter(Items(walk[..n - 1]), last.json.value.items, name);
    }
  }

  /** Items before a page that carry no name leave the first match on the page where it was, shifted past them. */
  lemma FirstMatchAfter(prior: seq<Item>, here: seq<Item>, name: string)
    requires name !in Names(prior)
    ensures match FirstIndex(Names(here), name)
      case None => FirstIndex(Names(prior + here), name).None?
      case Some(k) => FirstIndex(Names(prior + here), name) == Some(|prior| + k) && (prior + here)[|prior| + k] == here[k]
  {
    NamesAppend(prior, here);
    FirstIndexAfter(Names(prior), Names(here), name);
  }

  /** A search finds nothing only after a page without a next link, with the name on no page. */
  lemma SearchNoneExhausted(server: Call -> Response<Page>, first: Call, walk: seq<Response<Page>>, name: string)
    requires IsSearch(server, first, walk, name)
    requires SearchResult(walk, name) == Ok(None)
    ensures walk[|walk| - 1].json.Some? && walk[|walk| - 1].json.value.next.None?
    ensures forall i :: i in Items(walk) ==> i.name != name
  {
    var n := |walk|;
    assert walk[..n] == walk;
    NamesAppend(Items(walk[..n - 1]), PageItems(walk[n - 1]));
    forall i | i in Items(walk) ensures i.name != name {
      var j :| 0 <= j < |Items(walk)| && Items(walk)[j] == i;
      assert Names(Items(walk))[j] == i.name;
    }
  }
}
