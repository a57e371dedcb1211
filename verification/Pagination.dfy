/**
 Cursor pagination of the model list: core/schemas/models.go.

 Cursor text (JSON in unpadded base64url, section 5 of RFC 4648) is an inverse pair and is kept as
 a value: a token is empty, the text of a cursor, or text that does not decode.  Offsets and page
 sizes are 64-bit integers and their sum wraps around.
 */
module Pagination {

  datatype Model = Model(id: string)

  datatype Token = Empty | Encoded(offset: int, lastID: string) | Malformed

  datatype Cursor = Cursor(offset: int, lastID: string)

  datatype Response = Response(data: seq<Model>, next: Token)

  /** A slice expression with bounds out of order panics. */
  datatype Result = Page(response: Response) | Panics

  const MAX_INT := 0x7FFF_FFFF_FFFF_FFFF

  /** The value a 64-bit signed addition leaves, for operands in range. */
  function Wrapped(n: int): int {
    if n > MAX_INT then n - 0x1_0000_0000_0000_0000 else n
  }

  function Decode(token: Token): Cursor {
    match token
    case Encoded(offset, lastID) => if offset < 0 then Cursor(0, "") else Cursor(offset, lastID)
    case _ => Cursor(0, "")
  }

  function Encode(offset: int, lastID: string): Token {
    if offset <= 0 then Empty else Encoded(offset, lastID)
  }

  predicate Valid(cursor: Cursor, data: seq<Model>) {
    cursor.lastID == "" || (0 < cursor.offset <= |data| && data[cursor.offset - 1].id == cursor.lastID)
  }

  function Start(data: seq<Model>, token: Token): int {
    var cursor := Decode(token);
    if cursor.lastID != "" && !Valid(cursor, data) then 0 else cursor.offset
  }

  function ApplyPagination(response: Response, pageSize: int, token: Token): Result {
    if pageSize <= 0 then Page(response)
    else
      var data := response.data;
      var offset := Start(data, token);
      if offset >= |data| then Page(Response([], Empty))
      else
        var sum := Wrapped(offset + pageSize);
        var end := if sum > |data| then |data| else sum;
        if end < offset then Panics
        else
          var page := data[offset..end];
          var lastID := if |page| > 0 then page[|page| - 1].id else "";
          Page(Response(page, if end < |data| then Encode(end, lastID) else Empty))
  }

  predicate InRange(response: Response, pageSize: int) {
    |response.data| <= MAX_INT && pageSize <= MAX_INT
  }

  /** Whatever the token, the page is a contiguous slice of at most pageSize items beginning where
      the token says or at the front, and a next token is given exactly when items follow. */
  lemma AnyToken(response: Response, pageSize: int, token: Token)
    requires InRange(response, pageSize) && pageSize > 0 && ApplyPagination(response, pageSize, token).Page?
    ensures
      var page := ApplyPagination(response, pageSize, token).response;
      var n := |response.data|;
      var a := if Start(response.data, token) > n then n else Start(response.data, token);
      && 0 <= a && |page.data| <= pageSize && a + |page.data| <= n
      && page.data == response.data[a..a + |page.data|]
      && (|page.data| == pageSize || a + |page.data| == n)
      && (page.next == Empty <==> a + |page.data| == n)
      && (page.next != Empty ==> page.next == Encoded(a + |page.data|, response.data[a + |page.data| - 1].id))
  {
  }

  /** A token that names the item before the page resumes right after that item or, when the data
      has changed so that the item is not there, at the front. */
  lemma ResumesOrRestarts(data: seq<Model>, offset: int, lastID: string)
    requires lastID != ""
    ensures
      var a := Start(data, Encoded(offset, lastID));
      (0 < offset <= |data| && data[offset - 1].id == lastID && a == offset) || a == 0
  {
  }

  /** The call panics exactly when the sum overflows for a page that is not past the end. */
  lemma PanicsExactly(response: Response, pageSize: int, token: Token)
    requires InRange(response, pageSize)
    ensures ApplyPagination(response, pageSize, token).Panics? <==>
              pageSize > 0 && Start(response.data, token) < |response.data| && Start(response.data, token) + pageSize > MAX_INT
  {
  }

  datatype Walk = Done(pages: seq<seq<Model>>) | Crashed

  /** Follow page tokens to the end. */
  function Follow(response: Response, pageSize: int, token: Token): Walk
    requires InRange(response, pageSize) && pageSize > 0
    decreases |response.data| - Start(response.data, token)
  {
    match ApplyPagination(response, pageSize, token)
    case Panics => Crashed
    case Page(page) =>
      if page.next == Empty then Done([page.data])
      else
        match Follow(response, pageSize, page.next)
        case Crashed => Crashed
        case Done(rest) => Done([page.data] + rest)
  }

  function Flatten(pages: seq<seq<Model>>): seq<Model> {
    if pages == [] then [] else pages[0] + Flatten(pages[1..])
  }

  /** The number of pages for n items, at least one. */
  function PageCount(n: nat, pageSize: int): int
    requires pageSize > 0
  {
    if n == 0 then 1 else (n + pageSize - 1) / pageSize
  }

  lemma OneMorePage(n: nat, pageSize: int)
    requires 0 < pageSize < n
    ensures PageCount(n, pageSize) == 1 + PageCount(n - pageSize, pageSize)
    ensures (n - 1) / pageSize == 1 + (n - pageSize - 1) / pageSize
  {
    DivisionStep(n - 1, pageSize);
    DivisionStep(n + pageSize - 1, pageSize);
  }

  lemma {:induction false} AtLeastOnce(k: int, d: int)
    requires d > 0
    ensures k > 0 ==> k * d >= d
    ensures k < 0 ==> k * d <= -d
    decreases if k < 0 then -k else k
  {
    if k > 1 {
      AtLeastOnce(k - 1, d);
      assert k * d == (k - 1) * d + d;
    } else if k < -1 {
      AtLeastOnce(k + 1, d);
      assert k * d == (k + 1) * d - d;
    }
  }

  lemma Quotient(x: int, d: int, q: int)
    requires d > 0 && q * d <= x < q * d + d
    ensures x / d == q
  {
    var k := x / d - q;
    assert x == x / d * d + x % d;
    assert k * d == x / d * d - q * d;
    AtLeastOnce(k, d);
  }

  lemma DivisionStep(x: int, d: int)
    requires 0 < d <= x
    ensures x / d == 1 + (x - d) / d
  {
    var q := (x - d) / d;
    assert x - d == q * d + (x - d) % d;
    assert (1 + q) * d == d + q * d;
    Quotient(x, d, 1 + q);
  }

  /** The offset of the last page plus the page size stays within 64 bits. */
  predicate LastPageFits(n: nat, from: nat, pageSize: int)
    requires pageSize > 0
  {
    n <= from || from + (n - from - 1) / pageSize * pageSize + pageSize <= MAX_INT
  }

  /** The walk from an offset covers what lies behind it, unless the last page's end overflows. */
  predicate Covers(data: seq<Model>, pageSize: int, from: nat, walk: Walk)
    requires pageSize > 0 && from <= |data|
  {
    && (walk.Done? <==> LastPageFits(|data|, from, pageSize))
    && (walk.Done? ==> Flatten(walk.pages) == data[from..] && |walk.pages| == PageCount(|data| - from, pageSize))
  }

  lemma {:induction false} FollowFrom(response: Response, pageSize: int, token: Token, from: nat)
    requires InRange(response, pageSize) && pageSize > 0
    requires Start(response.data, token) == from && (from < |response.data| || from == 0)
    ensures Covers(response.data, pageSize, from, Follow(response, pageSize, token))
    decreases |response.data| - from
  {
    hide Covers;
    var n := |response.data|;
    if from == n || from + pageSize > MAX_INT || from + pageSize >= n {
      NoMorePages(response, pageSize, token, from);
      CoversLast(response.data, pageSize, from);
    } else {
      MorePages(response, pageSize, token, from);
      var next := ApplyPagination(response, pageSize, token).response.next;
      FollowFrom(response, pageSize, next, from + pageSize);
      CoversMore(response.data, pageSize, from, Follow(response, pageSize, next));
    }
  }

  lemma CoversLast(data: seq<Model>, pageSize: int, from: nat)
    requires pageSize > 0 && |data| <= MAX_INT && (from < |data| || from == |data| == 0)
    requires from == |data| || from + pageSize > MAX_INT || from + pageSize >= |data|
    ensures Covers(data, pageSize, from, if from < |data| && from + pageSize > MAX_INT then Crashed else Done([data[from..]]))
  {
    LastPage(|data|, from, pageSize);
    hide LastPageFits, PageCount;
    var all := data[from..];
    assert [all][1..] == [] && Flatten([all]) == all + Flatten([]);
  }

  lemma CoversMore(data: seq<Model>, pageSize: int, from: nat, rest: Walk)
    requires pageSize > 0 && from + pageSize < |data| && Covers(data, pageSize, from + pageSize, rest)
    ensures Covers(data, pageSize, from, match rest case Crashed => Crashed case Done(pages) => Done([data[from..from + pageSize]] + pages))
  {
    OneMorePage(|data| - from, pageSize);
    FitsShifts(|data|, from, pageSize);
    hide LastPageFits, PageCount;
    if rest.Done? { Prepends(data, from, pageSize, rest.pages); }
  }

  lemma Prepends(data: seq<Model>, from: nat, pageSize: int, rest: seq<seq<Model>>)
    requires 0 <= pageSize && from + pageSize <= |data| && Flatten(rest) == data[from + pageSize..]
    ensures Flatten([data[from..from + pageSize]] + rest) == data[from..]
  {
    var pages := [data[from..from + pageSize]] + rest;
    assert pages[1..] == rest;
  }

  /** The page that reaches the end is the last one, unless its end overflows. */
  lemma NoMorePages(response: Response, pageSize: int, token: Token, from: nat)
    requires InRange(response, pageSize) && pageSize > 0 && Start(response.data, token) == from <= |response.data|
    requires from == |response.data| || from + pageSize > MAX_INT || from + pageSize >= |response.data|
    ensures Follow(response, pageSize, token) ==
            if from < |response.data| && from + pageSize > MAX_INT then Crashed else Done([response.data[from..]])
  {
    assert response.data[from..] == response.data[from..|response.data|];
    assert from == |response.data| ==> response.data[from..] == [];
  }

  /** While items remain beyond this page the walk goes on right behind it. */
  lemma MorePages(response: Response, pageSize: int, token: Token, from: nat)
    requires InRange(response, pageSize) && pageSize > 0 && Start(response.data, token) == from
    requires from + pageSize <= MAX_INT && from + pageSize < |response.data|
    ensures
      var result := ApplyPagination(response, pageSize, token);
      && result.Page? && result.response.data == response.data[from..from + pageSize]
      && Start(response.data, result.response.next) == from + pageSize
      && Follow(response, pageSize, token)
         == match Follow(response, pageSize, result.response.next)
            case Crashed => Crashed
            case Done(rest) => Done([result.response.data] + rest)
  {
  }

  lemma LastPage(n: nat, from: nat, pageSize: int)
    requires pageSize > 0 && n <= MAX_INT && (from < n || from == 0)
    ensures from < n && from + pageSize > MAX_INT ==> !LastPageFits(n, from, pageSize)
    ensures from + pageSize <= MAX_INT && from + pageSize >= n ==>
              LastPageFits(n, from, pageSize) && PageCount(n - from, pageSize) == 1
    ensures from == n ==> LastPageFits(n, from, pageSize) && PageCount(n - from, pageSize) == 1
  {
    if from < n {
      var q := (n - from - 1) / pageSize;
      assert q >= 0;
      assert q * pageSize >= 0;
      if from + pageSize >= n {
        Quotient(n - from - 1, pageSize, 0);
        Quotient(n - from + pageSize - 1, pageSize, 1);
      }
    }
  }

  lemma FitsShifts(n: nat, from: nat, pageSize: int)
    requires pageSize > 0 && from + pageSize < n
    ensures LastPageFits(n, from, pageSize) <==> LastPageFits(n, from + pageSize, pageSize)
  {
    var q := (n - from - pageSize - 1) / pageSize;
    OneMorePage(n - from, pageSize);
    assert (1 + q) * pageSize == pageSize + q * pageSize;
  }

  /** Following page tokens from the empty token over unchanged data returns every model exactly
      once, in order, in max(1, ceil(n / pageSize)) pages, exactly when the end of the last page can
      be computed without overflow. */
  lemma FollowingCoversAll(response: Response, pageSize: int)
    requires InRange(response, pageSize) && pageSize > 0
    ensures
      var n := |response.data|;
      var walk := Follow(response, pageSize, Empty);
      && (walk.Done? <==> LastPageFits(n, 0, pageSize))
      && (walk.Done? ==> Flatten(walk.pages) == response.data && |walk.pages| == PageCount(n, pageSize))
  {
    FollowFrom(response, pageSize, Empty, 0);
    hide LastPageFits, PageCount, Follow;
    assert response.data[0..] == response.data;
  }
}
