/** Values shared by every page of the console and by the backend model:
    identifiers, optional values, the reply of a network call, list responses
    and their page count, string trimming and sequence filtering. */
module Common {

  /** Every identifier the console handles is a UUID rendered as a string. */
  type Id = string

  datatype Option<T> = None | Some(value: T)

  /** The outcome of one awaited network call: the decoded body, or the thrown
      error's message (possibly empty). */
  datatype Reply<T> = Ok(value: T) | Failed(message: string)

  /** A list endpoint answers either `{count, results}` or a bare array. */
  datatype ListResponse<T> = Paginated(count: nat, results: seq<T>) | Bare(items: seq<T>)

  /** The part of a prompt row the pages read. */
  datatype PromptRef = PromptRef(id: Id, name: string)

  /** The part of a folder row the pages read. */
  datatype FolderRow = FolderRow(id: Id, name: string)

  /** A value of a request's query parameters. */
  datatype Param = Str(text: string) | Num(number: int)

  /** The query parameters object of a list request. */
  type Params = map<string, Param>

  /** A link row of the form `{team: id}` as the serializers return it. */
  datatype TeamShare = TeamShare(team: Id)

  /** `shares ? shares.map(t => t.team) : []`. */
  function TeamIdsOf(shares: Option<seq<TeamShare>>): (r: seq<Id>)
    ensures shares.None? ==> r == []
    ensures shares.Some? ==> |r| == |shares.value| && forall k :: 0 <= k < |r| ==> r[k] == shares.value[k].team
  {
    if shares.None? then [] else seq(|shares.value|, k requires 0 <= k < |shares.value| => shares.value[k].team)
  }

  const PRIVATE: string := "PRIVATE"
  const TEAM: string := "TEAM"
  const PUBLIC: string := "PUBLIC"

  /** Every list request of the console asks for pages of ten. */
  const PageSize: nat := 10

  /** `message || fallback`: the error text a page shows for a failed call. */
  function ErrorText(message: string, fallback: string): (r: string)
    ensures r == message || r == fallback
    ensures r == "" <==> message == "" && fallback == ""
    ensures message != "" ==> r == message
  {
    if message != "" then message else fallback
  }

  /** `value || fallback` for a string field that may be missing: a missing or
      empty value gives the fallback. */
  function OrDefault(o: Option<string>, fallback: string): (r: string)
    ensures o.Some? && o.value != "" ==> r == o.value
    ensures o.None? || o.value == "" ==> r == fallback
  {
    if o.Some? && o.value != "" then o.value else fallback
  }

  /** `Math.ceil(count / 10)`: the least number of pages of ten that hold
      `count` rows (zero rows give zero pages). */
  function Pages(count: nat): (r: nat)
    ensures count <= r * PageSize
    ensures r == 0 || (r - 1) * PageSize < count
    ensures r == 0 <==> count == 0
  {
    (count + PageSize - 1) / PageSize
  }

  /** The rows of a list response, whichever shape it has. */
  function Rows<T>(resp: ListResponse<T>): (r: seq<T>)
    ensures resp.Paginated? ==> r == resp.results
    ensures resp.Bare? ==> r == resp.items
  {
    match resp
    case Paginated(_, results) => results
    case Bare(items) => items
  }

  /** The total-pages rule of the list and history pages: the ceiling of
      `count / 10` for a paginated response, otherwise a single page. */
  function TotalPagesOf<T>(resp: ListResponse<T>): (r: nat)
    ensures resp.Bare? ==> r == 1
    ensures resp.Paginated? ==> resp.count <= r * PageSize && (r == 0 || (r - 1) * PageSize < resp.count)
  {
    if resp.Paginated? then Pages(resp.count) else 1
  }

  /** The characters `String.prototype.trim` removes: WhiteSpace and
      LineTerminator of ECMAScript, section 12.2 and 12.3 of ECMA-262. */
  predicate IsJsWhitespace(c: char) {
    c == '\t' || c == '\U{000B}' || c == '\U{000C}' || c == ' ' || c == '\U{00A0}' || c == '\U{FEFF}'
    || c == '\n' || c == '\r' || c == '\U{2028}' || c == '\U{2029}'
    || c == '\U{1680}' || ('\U{2000}' <= c <= '\U{200A}') || c == '\U{202F}' || c == '\U{205F}' || c == '\U{3000}'
  }

  /** The characters Python's `str.strip()` removes (those with `str.isspace()`). */
  predicate IsPyWhitespace(c: char) {
    ('\t' <= c <= '\r') || ('\U{001C}' <= c <= '\U{001F}') || c == ' ' || c == '\U{0085}' || c == '\U{00A0}'
    || c == '\U{1680}' || ('\U{2000}' <= c <= '\U{200A}') || c == '\U{2028}' || c == '\U{2029}'
    || c == '\U{202F}' || c == '\U{205F}' || c == '\U{3000}'
  }

  /** The suffix of `s` after its longest prefix of characters in `ws`. */
  function TrimStart(s: string, ws: char -> bool): (r: string)
    ensures |r| <= |s| && r == s[|s| - |r|..]
    ensures r == [] || !ws(r[0])
    ensures forall i :: 0 <= i < |s| - |r| ==> ws(s[i])
    decreases |s|
  {
    if s != [] && ws(s[0]) then TrimStart(s[1..], ws) else s
  }

  /** The prefix of `s` before its longest suffix of characters in `ws`. */
  function TrimEnd(s: string, ws: char -> bool): (r: string)
    ensures |r| <= |s| && r == s[..|r|]
    ensures r == [] || !ws(r[|r| - 1])
    ensures forall i :: |r| <= i < |s| ==> ws(s[i])
    decreases |s|
  {
    if s != [] && ws(s[|s| - 1]) then TrimEnd(s[..|s| - 1], ws) else s
  }

  /** Both ends trimmed; the result is empty exactly when every character of
      `s` is in `ws`. */
  function Trim(s: string, ws: char -> bool): (r: string)
    ensures r == "" <==> forall i :: 0 <= i < |s| ==> ws(s[i])
    ensures r == [] || (!ws(r[0]) && !ws(r[|r| - 1]))
  {
    var t := TrimStart(s, ws);
    var r := TrimEnd(t, ws);
    r
  }

  /** `!s.trim()` in the pages: the field holds nothing but whitespace. */
  predicate IsBlank(s: string) {
    forall i :: 0 <= i < |s| ==> IsJsWhitespace(s[i])
  }

  /** A blank field is exactly one that `trim()` empties. */
  lemma BlankIsTrimmedEmpty(s: string)
    ensures IsBlank(s) <==> Trim(s, IsJsWhitespace) == ""
  {
  }

  /** `s.filter(keep)`: the elements of `s` that satisfy `keep`, in order. */
  function Filter<T>(s: seq<T>, keep: T -> bool): seq<T> {
    if s == [] then []
    else if keep(s[0]) then [s[0]] + Filter(s[1..], keep)
    else Filter(s[1..], keep)
  }

  /** `Filter` keeps exactly the elements that satisfy `keep`, each as often
      as it occurs, and keeps everything when every element does. */
  lemma FilterSpec<T(!new)>(s: seq<T>, keep: T -> bool)
    ensures |Filter(s, keep)| <= |s|
    ensures forall x :: x in Filter(s, keep) <==> x in s && keep(x)
    ensures (forall i :: 0 <= i < |s| ==> keep(s[i])) ==> Filter(s, keep) == s
    ensures forall x :: multiset(Filter(s, keep))[x] == if keep(x) then multiset(s)[x] else 0
  {
    FilterShape(s, keep);
    FilterCount(s, keep);
    var r := Filter(s, keep);
    forall x ensures x in r <==> x in s && keep(x) {
      assert x in r <==> multiset(r)[x] > 0;
      assert x in s <==> multiset(s)[x] > 0;
    }
  }

  /** `Filter` never grows a list and keeps it whole when all elements match. */
  lemma {:induction false} FilterShape<T>(s: seq<T>, keep: T -> bool)
    ensures |Filter(s, keep)| <= |s|
    ensures (forall i :: 0 <= i < |s| ==> keep(s[i])) ==> Filter(s, keep) == s
    decreases |s|
  {
    if s != [] {
      FilterShape(s[1..], keep);
      assert s == [s[0]] + s[1..];
      assert (forall i :: 0 <= i < |s| ==> keep(s[i])) ==> forall i :: 0 <= i < |s[1..]| ==> keep(s[1..][i]);
    }
  }

  /** `Filter` keeps every matching element as often as it occurs. */
  lemma {:induction false} FilterCount<T(!new)>(s: seq<T>, keep: T -> bool)
    ensures forall x :: multiset(Filter(s, keep))[x] == if keep(x) then multiset(s)[x] else 0
    decreases |s|
  {
    if s != [] {
      FilterCount(s[1..], keep);
      var rest := Filter(s[1..], keep);
      assert s == [s[0]] + s[1..];
      assert multiset(s) == multiset{s[0]} + multiset(s[1..]);
      if keep(s[0]) {
        assert multiset([s[0]] + rest) == multiset{s[0]} + multiset(rest);
      }
    }
  }

  /** Element `k` is the first of `s` that satisfies `p`. */
  predicate IsFirst<T>(s: seq<T>, p: T -> bool, k: int) {
    0 <= k < |s| && p(s[k]) && forall m :: 0 <= m < k ==> !p(s[m])
  }

  /** `s.find(p)`: the first element that satisfies `p`, if any. */
  function Find<T>(s: seq<T>, p: T -> bool): (r: Option<T>)
    ensures r.None? <==> forall k :: 0 <= k < |s| ==> !p(s[k])
    ensures r.Some? ==> exists k :: IsFirst(s, p, k) && s[k] == r.value
  {
    if s == [] then None
    else if p(s[0]) then
      assert IsFirst(s, p, 0);
      Some(s[0])
    else
      var rest := Find(s[1..], p);
      assert forall k :: 1 <= k < |s| ==> s[k] == s[1..][k - 1];
      assert rest.Some? ==> exists k :: IsFirst(s, p, k) && s[k] == rest.value by {
        if rest.Some? {
          var k :| IsFirst(s[1..], p, k) && s[1..][k] == rest.value;
          assert IsFirst(s, p, k + 1);
        }
      }
      rest
  }

  /** Nothing is kept when no element satisfies `keep`. */
  lemma {:induction false} NoneKept<T(!new)>(s: seq<T>, p: T -> bool)
    requires forall k :: 0 <= k < |s| ==> !p(s[k])
    ensures Filter(s, p) == []
    decreases |s|
  {
    if s != [] {
      NoneKept(s[1..], p);
    }
  }

  /** Filtering distributes over concatenation. */
  lemma {:induction false} FilterAppend<T>(s: seq<T>, u: seq<T>, p: T -> bool)
    ensures Filter(s + u, p) == Filter(s, p) + Filter(u, p)
    decreases |s|
  {
    if s == [] {
      assert s + u == u;
    } else {
      FilterAppend(s[1..], u, p);
      var h, su := s[0], s + u;
      assert su[0] == h && su[1..] == s[1..] + u;
      if p(h) {
        assert [h] + (Filter(s[1..], p) + Filter(u, p)) == ([h] + Filter(s[1..], p)) + Filter(u, p);
      }
    }
  }

  /** Appending a match to a sequence with none finds the match. */
  lemma {:induction false} FindAfterNone<T>(s: seq<T>, x: T, p: T -> bool)
    requires forall k :: 0 <= k < |s| ==> !p(s[k])
    requires p(x)
    ensures Find(s + [x], p) == Some(x)
    decreases |s|
  {
    if s != [] {
      assert (s + [x])[1..] == s[1..] + [x];
      FindAfterNone(s[1..], x, p);
    }
  }

  /** An optional id that JavaScript would treat as truthy. */
  predicate Known(o: Option<Id>) {
    o.Some? && o.value != ""
  }

  /** `ids.includes(x)` / `rows.some(...)` on a sequence. */
  predicate Contains<T(==)>(s: seq<T>, x: T) {
    exists i :: 0 <= i < |s| && s[i] == x
  }
}
