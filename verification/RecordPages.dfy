/** The pager of web/src/lib/mockEngine.ts and the page collector of web/src/lib/api.ts that follows
    its tokens. */
module RecordPages {
  import opened Prelude
  import opened Decimal

  datatype Page<T> = Page(records: seq<T>, nextPageToken: string, totalCount: nat)

  const DEFAULT_PAGE_SIZE := 20

  /** A slice bound as JavaScript reads it: negative counts from the end, and both ends are clamped. */
  function Clamp(n: nat, i: int): nat {
    if i < 0 then (if n + i < 0 then 0 else n + i) else if i < n then i else n
  }

  function Slice<T>(s: seq<T>, from: int, to: int): seq<T> {
    var a, b := Clamp(|s|, from), Clamp(|s|, to);
    if a <= b then s[a..b] else []
  }

  /** getBatchRecords; an unknown batch is an error. */
  function GetBatchRecords<T>(batch: Option<seq<T>>, pageSize: int, pageToken: string): Result<Page<T>> {
    if batch.None? then Err else Ok(PageOf(batch.value, pageSize, pageToken))
  }

  function PageOf<T>(all: seq<T>, pageSize: int, pageToken: string): Page<T> {
    var size := if pageSize > 0 then pageSize else DEFAULT_PAGE_SIZE;
    var offset := if pageToken == "" then 0 else
      match ParseInt(pageToken) case Ok(n) => n case Err => 0;
    var page := Slice(all, offset, offset + size);
    var nextOffset := offset + |page|;
    Page(page, if nextOffset < |all| then Print(nextOffset) else "", |all|)
  }

  datatype Collected<T> = Collected(records: seq<T>, totalCount: nat, truncated: bool)

  /** Following tokens from `token` with at most `budget` further pages allowed after the first; a page
      that cannot be fetched fails the whole collection. */
  function Follow<T>(fetchPage: string -> Result<Page<T>>, token: string, budget: nat): Result<Collected<T>>
    decreases budget
  {
    match fetchPage(token)
    case Err => Err
    case Ok(page) =>
      if page.nextPageToken == "" then Ok(Collected(page.records, page.totalCount, false))
      else if budget == 0 then Ok(Collected(page.records, page.totalCount, true))
      else Before(page.records, Follow(fetchPage, page.nextPageToken, budget - 1))
  }

  function Before<T>(records: seq<T>, rest: Result<Collected<T>>): Result<Collected<T>> {
    match rest
    case Err => Err
    case Ok(c) => Ok(c.(records := records + c.records))
  }

  lemma BeforeJoins<T>(a: seq<T>, b: seq<T>, rest: Result<Collected<T>>)
    ensures Before(a, Before(b, rest)) == Before(a + b, rest)
  {
    if rest.Ok? { assert a + (b + rest.value.records) == (a + b) + rest.value.records; }
  }

  lemma NothingBefore<T>(rest: Result<Collected<T>>)
    ensures Before([], rest) == rest
  {
    if rest.Ok? { assert [] + rest.value.records == rest.value.records; }
  }

  /** collectAllRecordPages. A cap below one still fetches the first page. */
  method CollectAllRecordPages<T>(fetchPage: string -> Result<Page<T>>, maxPages: int) returns (r: Result<Collected<T>>)
    ensures r == Follow(fetchPage, "", if maxPages > 1 then maxPages - 1 else 0)
  {
    var records: seq<T>, pageToken, totalCount, truncated, pagesFetched := [], "", 0, false, 0;
    ghost var budget := if maxPages > 1 then maxPages - 1 else 0;
    ghost var whole := Follow(fetchPage, "", budget);
    NothingBefore(whole);
    while true
      invariant 0 <= pagesFetched <= budget
      invariant !truncated
      invariant whole == Before(records, Follow(fetchPage, pageToken, budget - pagesFetched))
      decreases budget - pagesFetched
    {
      var fetched := fetchPage(pageToken);
      if fetched.Err? {
        return Err;
      }
      var page := fetched.value;
      if page.nextPageToken != "" && pagesFetched < budget {
        BeforeJoins(records, page.records, Follow(fetchPage, page.nextPageToken, budget - pagesFetched - 1));
      }
      records := records + page.records;
      totalCount := page.totalCount;
      pagesFetched := pagesFetched + 1;
      if page.nextPageToken == "" { break; }
      if pagesFetched >= maxPages {
        truncated := true;
        break;
      }
      pageToken := page.nextPageToken;
    }
    return Ok(Collected(records, totalCount, truncated));
  }

  function Least(a: nat, b: nat): nat {
    if a <= b then a else b
  }

  /** The token the pager hands out for the page that starts at `offset`. */
  function TokenFor(offset: nat): string {
    if offset == 0 then "" else Print(offset)
  }

  lemma PageAt<T>(all: seq<T>, size: int, offset: nat)
    requires size > 0 && offset <= |all|
    ensures var next := Least(|all|, offset + size);
            PageOf(all, size, TokenFor(offset))
            == Page(all[offset..next], if next < |all| then TokenFor(next) else "", |all|)
  {
    if offset > 0 { ParseIntOfDigits(offset); }
  }

  /** The records `pages` full pages hold. */
  function Room(size: nat, pages: nat): nat {
    if pages == 0 then 0 else size + Room(size, pages - 1)
  }

  lemma {:induction false} RoomIsProduct(size: nat, pages: nat)
    ensures Room(size, pages) == pages * size
  {
    if pages > 0 {
      RoomIsProduct(size, pages - 1);
      assert pages * size == size + (pages - 1) * size;
    }
  }

  /** `fetch` serves `all` in pages of `size`, naming the page that starts at `o` by `token(o)`. */
  ghost predicate Serves<T>(fetch: string -> Result<Page<T>>, token: nat -> string, all: seq<T>, size: int) {
    && size > 0
    && (forall o: nat :: 0 < o ==> token(o) != "")
    && (forall o: nat :: o <= |all| ==>
          var next := Least(|all|, o + size);
          fetch(token(o)) == Ok(Page(all[o..next], if next < |all| then token(next) else "", |all|)))
  }

  /** Following a pager's tokens from any page start yields the rest of the batch in order, up to the
      pages allowed, and says truthfully whether records are left. */
  lemma {:induction false} FollowFrom<T>(fetch: string -> Result<Page<T>>, token: nat -> string, all: seq<T>, size: int,
                                         offset: nat, budget: nat)
    requires Serves(fetch, token, all, size) && offset <= |all|
    ensures var end := Least(|all|, offset + Room(size, budget + 1));
            Follow(fetch, token(offset), budget) == Ok(Collected(all[offset..end], |all|, end < |all|))
    decreases budget
  {
    var next := Least(|all|, offset + size);
    assert fetch(token(offset)) == Ok(Page(all[offset..next], if next < |all| then token(next) else "", |all|));
    if next < |all| && budget > 0 {
      FollowFrom(fetch, token, all, size, next, budget - 1);
      var end := Least(|all|, next + Room(size, budget));
      assert all[offset..next] + all[next..end] == all[offset..end];
    }
  }

  lemma PagerServes<T>(all: seq<T>, size: int, fetch: string -> Result<Page<T>>)
    requires size > 0 && forall token :: fetch(token) == GetBatchRecords(Some(all), size, token)
    ensures Serves(fetch, TokenFor, all, size)
  {
    forall o: nat | o <= |all|
      ensures var next := Least(|all|, o + size);
              fetch(TokenFor(o)) == Ok(Page(all[o..next], if next < |all| then TokenFor(next) else "", |all|))
    {
      PageAt(all, size, o);
    }
  }

  lemma WholeBatch<T>(all: seq<T>, size: int, fetch: string -> Result<Page<T>>, budget: nat)
    requires Serves(fetch, TokenFor, all, size)
    ensures var end := Least(|all|, Room(size, budget + 1));
            Follow(fetch, "", budget) == Ok(Collected(all[..end], |all|, end < |all|))
  {
    FollowFrom(fetch, TokenFor, all, size, 0, budget);
  }

  /** The `n`-th token a collector that starts at `token` would follow, while pages come back. */
  function TokenAt<T>(fetch: string -> Result<Page<T>>, token: string, n: nat): Option<string>
    decreases n
  {
    if n == 0 then Some(token)
    else
      match fetch(token)
      case Err => None
      case Ok(page) => if page.nextPageToken == "" then None else TokenAt(fetch, page.nextPageToken, n - 1)
  }

  ghost predicate FailsAt<T>(fetch: string -> Result<Page<T>>, token: string, n: nat) {
    TokenAt(fetch, token, n).Some? && fetch(TokenAt(fetch, token, n).value).Err?
  }

  /** The whole collection fails exactly when the fetch of some page it reaches does. */
  lemma {:induction false} FailsExactly<T>(fetch: string -> Result<Page<T>>, token: string, budget: nat)
    ensures Follow(fetch, token, budget).Err? <==> exists n: nat :: n <= budget && FailsAt(fetch, token, n)
    decreases budget
  {
    var first := fetch(token);
    if first.Err? {
      assert FailsAt(fetch, token, 0);
    } else if first.value.nextPageToken != "" && budget > 0 {
      var next := first.value.nextPageToken;
      FailsExactly(fetch, next, budget - 1);
      forall n: nat ensures FailsAt(fetch, token, n + 1) <==> FailsAt(fetch, next, n) {}
      if n: nat :| n <= budget && FailsAt(fetch, token, n) { assert n > 0 && FailsAt(fetch, next, n - 1); }
      if n: nat :| n <= budget - 1 && FailsAt(fetch, next, n) { assert FailsAt(fetch, token, n + 1); }
    } else {
      forall n: nat | n <= budget ensures !FailsAt(fetch, token, n) {}
    }
  }

  /** A token without a digit in it serves the first page. */
  lemma NoNumberIsFirstPage<T>(all: seq<T>, pageSize: int, token: string)
    requires forall ch <- token :: !IsDigit(ch)
    ensures PageOf(all, pageSize, token) == PageOf(all, pageSize, "")
  {
    if token != "" {
      var digits := if token[0] == '-' || token[0] == '+' then token[1..] else token;
      assert digits != [] ==> digits[0] in token;
    }
  }

  /** The collector over the pager returns every record exactly once, in order, when the batch fits in
      the pages allowed, and otherwise exactly the first maxPages * size of them, flagged as truncated. */
  method CollectBatch<T>(batch: Option<seq<T>>, pageSize: int, maxPages: int) returns (r: Result<Collected<T>>)
    ensures r.Err? <==> batch.None?
    ensures r.Ok? ==>
              var all, size := batch.value, if pageSize > 0 then pageSize else DEFAULT_PAGE_SIZE;
              var pages := if maxPages > 1 then maxPages else 1;
              && r.value.records == all[..Least(|all|, pages * size)]
              && r.value.totalCount == |all|
              && (r.value.truncated <==> pages * size < |all|)
  {
    var size := if pageSize > 0 then pageSize else DEFAULT_PAGE_SIZE;
    var fetch := token => GetBatchRecords(batch, size, token);
    r := CollectAllRecordPages(fetch, maxPages);
    ghost var pages := if maxPages > 1 then maxPages else 1;
    if batch.Some? {
      PagerServes(batch.value, size, fetch);
      WholeBatch(batch.value, size, fetch, pages - 1);
      RoomIsProduct(size, pages);
    }
  }
}
