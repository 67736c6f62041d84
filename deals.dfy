/**
 * The request paths of the deals service: the list URL with its optional
 * `start`/`limit` query, built on a `URLSearchParams`, and the per-deal
 * endpoints. The HTTP calls themselves are not modelled; only the method
 * and path each call uses.
 */
module Deals {
  import opened Wrappers
  import opened Text

  const DealsPath: string := "/bitrix24/deals"
  const DealPrefix: string := "/bitrix24/deals/"
  const RepeatPrefix: string := "/bitrix24/deals/repeat/"

  /** The optional paging parameters of `getDeals`; each may be left out. */
  datatype Paging = Paging(start: Option<int>, limit: Option<int>)

  /** JavaScript truthiness of an optional integer: present and not zero. */
  predicate NumTruthy(n: Option<int>)
  {
    n.Some? && n.value != 0
  }

  /** `params?.start`, with no parameters object at all read as absent. */
  function StartOf(params: Option<Paging>): Option<int>
  {
    if params.Some? then params.value.start else None
  }

  function LimitOf(params: Option<Paging>): Option<int>
  {
    if params.Some? then params.value.limit else None
  }

  // ---------------------------------------------------------------------------
  // Query strings
  // ---------------------------------------------------------------------------

  /** One `name=value` pair of a query string. */
  function PairText(p: (string, string)): string
  {
    p.0 + "=" + p.1
  }

  /**
   * `URLSearchParams.prototype.toString` for names and values made of
   * letters, digits and `-`, which it writes without escapes.
   */
  function QueryText(pairs: seq<(string, string)>): (q: string)
    ensures q == "" <==> pairs == []
  {
    if |pairs| == 0 then ""
    else if |pairs| == 1 then PairText(pairs[0])
    else PairText(pairs[0]) + "&" + QueryText(pairs[1..])
  }

  /** The pairs `getDeals` appends: `start` when truthy, then `limit` when truthy. */
  function QueryPairs(params: Option<Paging>): seq<(string, string)>
  {
    (if NumTruthy(StartOf(params)) then [("start", IntToString(StartOf(params).value))] else [])
    + (if NumTruthy(LimitOf(params)) then [("limit", IntToString(LimitOf(params).value))] else [])
  }

  /** The list URL: the path, then `?` and the query only when the query is not empty. */
  function DealsUrl(params: Option<Paging>): string
  {
    var q := QueryText(QueryPairs(params));
    DealsPath + (if q != "" then "?" + q else "")
  }

  /** The URL building of `getDeals`, appending to the search parameters one at a time. */
  method GetDealsUrl(params: Option<Paging>) returns (url: string)
    ensures url == DealsUrl(params)
    ensures !NumTruthy(StartOf(params)) && !NumTruthy(LimitOf(params)) ==> url == DealsPath
    ensures NumTruthy(StartOf(params)) && NumTruthy(LimitOf(params)) ==>
      url == DealsPath + "?start=" + IntToString(StartOf(params).value) + "&limit=" + IntToString(LimitOf(params).value)
  {
    var searchParams: seq<(string, string)> := [];
    if params.Some? && NumTruthy(params.value.start) {
      searchParams := searchParams + [("start", IntToString(params.value.start.value))];
    }
    if params.Some? && NumTruthy(params.value.limit) {
      searchParams := searchParams + [("limit", IntToString(params.value.limit.value))];
    }
    var queryString := QueryText(searchParams);
    url := DealsPath + (if queryString != "" then "?" + queryString else "");
    if NumTruthy(StartOf(params)) && NumTruthy(LimitOf(params)) {
      BothParams(IntToString(StartOf(params).value), IntToString(LimitOf(params).value));
    }
  }

  lemma BothParams(s: string, l: string)
    ensures DealsPath + "?" + QueryText([("start", s), ("limit", l)]) == DealsPath + "?start=" + s + "&limit=" + l
  {
    assert QueryText([("start", s), ("limit", l)]) == PairText(("start", s)) + "&" + QueryText([("limit", l)]);
  }

  // ---------------------------------------------------------------------------
  // Reading the query back
  // ---------------------------------------------------------------------------

  /** The text after the first `?`, or nothing when there is none. */
  function QueryOf(url: string): string
  {
    var i := IndexOf(url, '?');
    if i < |url| then url[i + 1..] else ""
  }

  /** The value of a `name=value` segment: what follows its first `=`. */
  function ValueOf(segment: string): string
  {
    var i := IndexOf(segment, '=');
    if i < |segment| then segment[i + 1..] else ""
  }

  function FirstParam(segments: seq<string>, name: string): Option<string>
  {
    if |segments| == 0 then None
    else if Before(segments[0], '=') == name then Some(ValueOf(segments[0]))
    else FirstParam(segments[1..], name)
  }

  /**
   * `new URLSearchParams(query).get(name)` on the query of `url`: the value of
   * the first segment named `name`. Percent-decoding is not modelled; the
   * values written here never need it.
   */
  function SearchParam(url: string, name: string): Option<string>
  {
    FirstParam(Split(QueryOf(url), '&'), name)
  }

  /** A decimal rendering holds only digits and perhaps a leading `-`. */
  lemma IntToStringPlain(n: int)
    ensures forall i :: 0 <= i < |IntToString(n)| ==> IsDigit(IntToString(n)[i]) || IntToString(n)[i] == '-'
  {
    if n < 0 {
      var d := NatToString(-n);
      assert forall i :: 1 <= i < |IntToString(n)| ==> IntToString(n)[i] == d[i - 1];
    }
  }

  lemma PlainHasNo(s: string, c: char)
    requires forall i :: 0 <= i < |s| ==> IsDigit(s[i]) || s[i] == '-'
    requires c == '&' || c == '=' || c == '?'
    ensures c !in s
  {
    assert forall i :: 0 <= i < |s| ==> s[i] != c;
  }

  lemma NumberHasNo(n: int)
    ensures '&' !in IntToString(n) && '=' !in IntToString(n)
  {
    IntToStringPlain(n);
    PlainHasNo(IntToString(n), '&');
    PlainHasNo(IntToString(n), '=');
  }

  /** A segment `name=value` gives back its name and its value. */
  lemma SegmentParts(name: string, value: string)
    requires '=' !in name
    ensures Before(name + "=" + value, '=') == name
    ensures ValueOf(name + "=" + value) == value
  {
    var s := name + "=" + value;
    assert s == name + ['='] + value;
    IndexAfter(name, '=', value);
    assert s[..|name|] == name;
    assert s[|name| + 1..] == value;
  }

  /** The query of `DealsPath?q` is `q`. */
  lemma QueryOfUrl(q: string)
    ensures QueryOf(DealsPath + "?" + q) == q
  {
    var url := DealsPath + "?" + q;
    assert url == DealsPath + ['?'] + q;
    assert '?' !in DealsPath;
    IndexAfter(DealsPath, '?', q);
    assert url[|DealsPath| + 1..] == q;
  }

  /** Pairs whose names hold no `=` or `&` and whose values hold no `&`. */
  predicate PlainPairs(pairs: seq<(string, string)>)
  {
    forall i :: 0 <= i < |pairs| ==> '=' !in pairs[i].0 && '&' !in pairs[i].0 && '&' !in pairs[i].1
  }

  /** The segments of a query, one per pair. */
  function Segments(pairs: seq<(string, string)>): (r: seq<string>)
    ensures |r| == |pairs|
    ensures forall i :: 0 <= i < |pairs| ==> r[i] == PairText(pairs[i])
  {
    if |pairs| == 0 then [] else [PairText(pairs[0])] + Segments(pairs[1..])
  }

  /** The value of the first pair named `name`. */
  function PairValue(pairs: seq<(string, string)>, name: string): Option<string>
  {
    if |pairs| == 0 then None
    else if pairs[0].0 == name then Some(pairs[0].1)
    else PairValue(pairs[1..], name)
  }

  lemma PlainSegment(p: (string, string))
    requires '&' !in p.0 && '&' !in p.1
    ensures '&' !in PairText(p)
  {
    assert forall i :: 0 <= i < |PairText(p)| ==> PairText(p)[i] != '&' by {
      forall i | 0 <= i < |PairText(p)| ensures PairText(p)[i] != '&' {
        if i < |p.0| {
          assert PairText(p)[i] == p.0[i];
        } else if i > |p.0| {
          assert PairText(p)[i] == p.1[i - |p.0| - 1];
        }
      }
    }
  }

  /** Splitting a query on `&` gives back its segments. */
  lemma {:induction false} SplitQuery(pairs: seq<(string, string)>)
    requires |pairs| >= 1 && PlainPairs(pairs)
    ensures Split(QueryText(pairs), '&') == Segments(pairs)
    decreases |pairs|
  {
    var seg := PairText(pairs[0]);
    PlainSegment(pairs[0]);
    if |pairs| == 1 {
      assert IndexOf(seg, '&') == |seg|;
    } else {
      var rest := QueryText(pairs[1..]);
      var q := QueryText(pairs);
      assert q == seg + ['&'] + rest;
      IndexAfter(seg, '&', rest);
      assert q[..|seg|] == seg;
      assert q[|seg| + 1..] == rest;
      assert PlainPairs(pairs[1..]) by {
        forall i | 0 <= i < |pairs[1..]| ensures '=' !in pairs[1..][i].0 && '&' !in pairs[1..][i].0 && '&' !in pairs[1..][i].1 {
          assert pairs[1..][i] == pairs[i + 1];
        }
      }
      SplitQuery(pairs[1..]);
    }
  }

  /** Looking a name up among the segments finds the first pair of that name. */
  lemma {:induction false} FirstParamSegments(pairs: seq<(string, string)>, name: string)
    requires PlainPairs(pairs)
    ensures FirstParam(Segments(pairs), name) == PairValue(pairs, name)
    decreases |pairs|
  {
    if |pairs| > 0 {
      SegmentParts(pairs[0].0, pairs[0].1);
      assert Segments(pairs)[0] == PairText(pairs[0]);
      assert Segments(pairs)[1..] == Segments(pairs[1..]);
      assert PlainPairs(pairs[1..]) by {
        forall i | 0 <= i < |pairs[1..]| ensures '=' !in pairs[1..][i].0 && '&' !in pairs[1..][i].0 && '&' !in pairs[1..][i].1 {
          assert pairs[1..][i] == pairs[i + 1];
        }
      }
      FirstParamSegments(pairs[1..], name);
    }
  }

  /** A URL without a query has no parameters. */
  lemma NoQuery(name: string)
    requires name != ""
    ensures SearchParam(DealsPath, name) == None
  {
    PathHasNoQuery();
    EmptyQuery(name);
  }

  lemma PathHasNoQuery()
    ensures QueryOf(DealsPath) == ""
  {
    assert '?' !in DealsPath;
  }

  lemma EmptyQuery(name: string)
    requires name != ""
    ensures FirstParam(Split("", '&'), name) == None
  {
    assert Split("", '&') == [""];
    assert Before("", '=') == "";
    assert FirstParam([""][1..], name) == None;
  }

  /** `URLSearchParams` reads back from a query exactly the first value written under each name. */
  lemma SearchParamOfQuery(pairs: seq<(string, string)>, name: string)
    requires PlainPairs(pairs) && pairs != []
    ensures SearchParam(DealsPath + "?" + QueryText(pairs), name) == PairValue(pairs, name)
  {
    QueryOfUrl(QueryText(pairs));
    SplitQuery(pairs);
    FirstParamSegments(pairs, name);
  }

  lemma StartLimitDiffer()
    ensures "start" != "limit"
  {
    assert "start"[0] != "limit"[0];
  }

  /** The pairs of the list URL are plain: the names are words and the values numbers. */
  lemma QueryPairsPlain(params: Option<Paging>)
    ensures PlainPairs(QueryPairs(params))
  {
    var pairs := QueryPairs(params);
    if NumTruthy(StartOf(params)) {
      NumberHasNo(StartOf(params).value);
    }
    if NumTruthy(LimitOf(params)) {
      NumberHasNo(LimitOf(params).value);
    }
    assert '=' !in "start" && '&' !in "start" && '=' !in "limit" && '&' !in "limit";
  }

  /**
   * Reading the list URL back with `URLSearchParams` gives each parameter
   * that was truthy, as its decimal rendering, and nothing for the others;
   * the rendering parses back to the number.
   */
  lemma DealsUrlRoundTrip(params: Option<Paging>)
    ensures SearchParam(DealsUrl(params), "start") ==
      (if NumTruthy(StartOf(params)) then Some(IntToString(StartOf(params).value)) else None)
    ensures SearchParam(DealsUrl(params), "limit") ==
      (if NumTruthy(LimitOf(params)) then Some(IntToString(LimitOf(params).value)) else None)
    ensures NumTruthy(StartOf(params)) ==> ParseInt(IntToString(StartOf(params).value)) == StartOf(params)
    ensures NumTruthy(LimitOf(params)) ==> ParseInt(IntToString(LimitOf(params).value)) == LimitOf(params)
  {
    var pairs := QueryPairs(params);
    QueryPairsPlain(params);
    if pairs == [] {
      assert DealsUrl(params) == DealsPath;
      NoQuery("start");
      NoQuery("limit");
    } else {
      assert DealsUrl(params) == DealsPath + "?" + QueryText(pairs);
      SearchParamOfQuery(pairs, "start");
      SearchParamOfQuery(pairs, "limit");
    }
    StartLimitDiffer();
    if NumTruthy(StartOf(params)) {
      IntToStringRoundTrip(StartOf(params).value);
    }
    if NumTruthy(LimitOf(params)) {
      IntToStringRoundTrip(LimitOf(params).value);
    }
  }

  // ---------------------------------------------------------------------------
  // Per-deal endpoints
  // ---------------------------------------------------------------------------

  datatype HttpMethod = Get | Post | Put | Delete

  /** The calls of the deals service. */
  datatype DealsCall =
    | GetDeals(params: Option<Paging>)
    | GetDealById(id: int)
    | CreateDeal
    | RepeatDeal(id: int)
    | UpdateDeal(id: int)
    | DeleteDeal(id: int)

  /** `/bitrix24/deals/${id}`. */
  function DealPath(id: int): string
  {
    DealPrefix + IntToString(id)
  }

  /** `/bitrix24/deals/repeat/${id}`. */
  function RepeatPath(id: int): string
  {
    RepeatPrefix + IntToString(id)
  }

  /** The HTTP method and path each call sends. */
  function Route(call: DealsCall): (HttpMethod, string)
  {
    match call
    case GetDeals(params) => (Get, DealsUrl(params))
    case GetDealById(id) => (Get, DealPath(id))
    case CreateDeal => (Post, DealsPath)
    case RepeatDeal(id) => (Post, RepeatPath(id))
    case UpdateDeal(id) => (Put, DealPath(id))
    case DeleteDeal(id) => (Delete, DealPath(id))
  }

  /** The id a per-deal path names, as the server reads it. */
  function DealIdOf(path: string): Option<int>
  {
    if StartsWith(path, DealPrefix) then ParseInt(path[|DealPrefix|..]) else None
  }

  /** The per-deal path gives back its id. */
  lemma DealPathRoundTrip(id: int)
    ensures DealIdOf(DealPath(id)) == Some(id)
  {
    assert DealPath(id)[|DealPrefix|..] == IntToString(id);
    IntToStringRoundTrip(id);
  }

  /** The repeat path names no deal id: `repeat/…` is not a number. */
  lemma RepeatPathNotDealPath(id: int)
    ensures DealIdOf(RepeatPath(id)) == None
  {
    var p := RepeatPath(id);
    assert StartsWith(p, DealPrefix) by {
      assert p[..|DealPrefix|] == RepeatPrefix[..|DealPrefix|];
    }
    var rest := p[|DealPrefix|..];
    assert rest[0] == 'r';
  }

  lemma RepeatPathRoundTrip(id: int)
    ensures StartsWith(RepeatPath(id), RepeatPrefix) && ParseInt(RepeatPath(id)[|RepeatPrefix|..]) == Some(id)
  {
    assert RepeatPath(id)[|RepeatPrefix|..] == IntToString(id);
    IntToStringRoundTrip(id);
  }

  /** The list URL is no per-deal path: after `/bitrix24/deals` it has nothing or a `?`. */
  lemma DealsUrlNotDealPath(params: Option<Paging>, id: int)
    ensures DealsUrl(params) != DealPath(id)
  {
    var u, p := DealsUrl(params), DealPath(id);
    assert p[|DealsPath|] == '/';
    if |u| > |DealsPath| {
      assert u[|DealsPath|] == '?';
    }
  }

  /**
   * Two calls other than two list calls never share a method and path: the
   * server can tell every call, and every id, apart.
   */
  lemma RoutesDistinct(c1: DealsCall, c2: DealsCall)
    requires !(c1.GetDeals? && c2.GetDeals?)
    requires Route(c1) == Route(c2)
    ensures c1 == c2
  {
    match c1
    case GetDeals(params) =>
      DealsUrlNotDealPath(params, c2.id);
    case GetDealById(id) =>
      if c2.GetDeals? {
        DealsUrlNotDealPath(c2.params, id);
      } else {
        DealPathRoundTrip(id);
        DealPathRoundTrip(c2.id);
      }
    case CreateDeal =>
    case RepeatDeal(id) =>
      if c2.RepeatDeal? {
        RepeatPathRoundTrip(id);
        RepeatPathRoundTrip(c2.id);
      }
    case UpdateDeal(id) =>
      DealPathRoundTrip(id);
      DealPathRoundTrip(c2.id);
    case DeleteDeal(id) =>
      DealPathRoundTrip(id);
      DealPathRoundTrip(c2.id);
  }
}
