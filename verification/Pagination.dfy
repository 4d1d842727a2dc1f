/** Cursor pagination of analytics results. */
module Pagination {
  import opened Wrappers

  const DEFAULT_LIMIT := 100
  const MAX_LIMIT := 500

  /** What identifies a query across pages; times are in their printed form. */
  datatype Scope = Scope(kind: string, tenant: string, cluster: string, start: string, end: string, groupBy: string)

  datatype Cursor = Cursor(scope: Scope, offset: int)

  /** Token encoding; a token is never empty and decodes to the cursor it was made from. */
  datatype Tokens = Tokens(encode: Cursor -> string, decode: string -> Option<Cursor>)

  ghost predicate Lossless(t: Tokens) {
    forall c :: t.encode(c) != "" && t.decode(t.encode(c)) == Some(c)
  }

  function Limit(limit: int): (n: nat)
    ensures 1 <= n <= 500 && (1 <= limit <= 500 ==> n == limit)
    ensures (limit < 1 ==> n == 100) && (limit > 500 ==> n == 500)
  {
    if limit <= 0 then DEFAULT_LIMIT else if limit > MAX_LIMIT then MAX_LIMIT else limit
  }

  /** The offset a request resumes at: zero without a cursor, `None` for a bad or foreign one. */
  function Resume(scope: Scope, token: string, t: Tokens): Option<nat> {
    if token == "" then Some(0)
    else
      var c := t.decode(token);
      if c.None? || c.value.offset < 0 || c.value.scope != scope then None else Some(c.value.offset)
  }

  /** LIMIT and OFFSET over the ordered result: one row more than the page, to see if there is a next. */
  function Fetch<T>(rows: seq<T>, limit: int, offset: nat): seq<T> {
    var from := if offset < |rows| then offset else |rows|;
    var to := from + Limit(limit) + 1;
    rows[from..if to < |rows| then to else |rows|]
  }

  /** The page and the token of the next one, empty at the end. */
  function Paginate<T>(fetched: seq<T>, scope: Scope, limit: int, offset: nat, t: Tokens): (seq<T>, string) {
    if |fetched| <= Limit(limit) then (fetched, "")
    else (fetched[..Limit(limit)], t.encode(Cursor(scope, offset + Limit(limit))))
  }

  /** A cursor is honoured by exactly the query it was issued for, from an offset that is not negative;
      no cursor starts at the beginning, and what is no cursor is refused. */
  lemma CursorBelongsToItsQuery(issued: Scope, asked: Scope, offset: int, t: Tokens)
    requires Lossless(t)
    ensures Resume(asked, t.encode(Cursor(issued, offset)), t)
            == (if asked == issued && offset >= 0 then Some(offset) else None)
    ensures Resume(asked, "", t) == Some(0)
    ensures forall token :: token != "" && t.decode(token) == None ==> Resume(asked, token, t) == None
  {
    assert t.decode(t.encode(Cursor(issued, offset))) == Some(Cursor(issued, offset));
  }

  function Least(a: nat, b: nat): nat { if a < b then a else b }

  /** One page: it is the next stretch of rows, as many as were asked for or are left, and the token
      leads to right after it unless nothing is left. Past the end the page is empty. */
  lemma PageIsNextStretch<T>(rows: seq<T>, scope: Scope, limit: int, offset: nat, t: Tokens)
    requires Lossless(t)
    ensures var (page, next) := Paginate(Fetch(rows, limit, offset), scope, limit, offset, t);
            var start := Least(offset, |rows|);
            && |page| == Least(if limit < 1 then 100 else Least(limit, 500), |rows| - start)
            && page == rows[start..start + |page|]
            && (next == "" <==> start + |page| == |rows|)
            && (next != "" ==> Resume(scope, next, t) == Some(offset + |page|))
  {
    var fetched := Fetch(rows, limit, offset);
    if |fetched| > Limit(limit) {
      CursorBelongsToItsQuery(scope, scope, offset + Limit(limit), t);
    }
  }

  function Joined<T>(pages: seq<seq<T>>): seq<T> {
    if pages == [] then [] else Joined(pages[..|pages| - 1]) + pages[|pages| - 1]
  }

  function Wanted(limit: int): nat { if limit < 1 then 100 else Least(limit, 500) }

  /** Following cursors from the start, with any limit on any page, yields every row once and in order:
      full pages, and on the last one what is left. */
  method FollowCursors<T>(rows: seq<T>, scope: Scope, limits: nat -> int, t: Tokens) returns (pages: seq<seq<T>>)
    requires Lossless(t)
    ensures Joined(pages) == rows && pages != []
    ensures forall i :: 0 <= i < |pages| - 1 ==> |pages[i]| == Wanted(limits(i))
    ensures |pages[|pages| - 1]| <= Wanted(limits(|pages| - 1)) && (rows != [] ==> pages[|pages| - 1] != [])
  {
    pages := [];
    var token, more := "", true;
    ghost var read := 0;
    while more
      invariant 0 <= read <= |rows| && Joined(pages) == rows[..read]
      invariant more ==> Resume(scope, token, t) == Some(read) && (read < |rows| || pages == [])
      invariant more ==> forall i :: 0 <= i < |pages| ==> |pages[i]| == Wanted(limits(i))
      invariant !more ==> read == |rows| && pages != []
      invariant !more ==> forall i :: 0 <= i < |pages| - 1 ==> |pages[i]| == Wanted(limits(i))
      invariant !more ==> |pages[|pages| - 1]| <= Wanted(limits(|pages| - 1))
      invariant !more && rows != [] ==> pages[|pages| - 1] != []
      decreases more, |rows| - read
    {
      var offset, limit := Resume(scope, token, t).value, limits(|pages|);
      PageIsNextStretch(rows, scope, limit, offset, t);
      var (page, next) := Paginate(Fetch(rows, limit, offset), scope, limit, offset, t);
      assert (pages + [page])[..|pages|] == pages;
      pages, token, more := pages + [page], next, next != "";
      read := read + |page|;
    }
  }
}
