/** The directory client: the request URLs it builds and the rule that
    every failure yields the empty list. `fetch` and `encodeURIComponent`
    are parameters: the model does not know what they do beyond what a
    lemma states it requires of them. */
module RadioApi {
  import opened Types

  const ApiBaseUrl: string := "https://de1.api.radio-browser.info/json/stations"

  // ---------------------------------------------------------------------
  // Decimal rendering of the limit inside the top-stations URL
  // ---------------------------------------------------------------------

  predicate IsDigit(c: char) {
    '0' <= c <= '9'
  }

  predicate AllDigits(s: string) {
    forall i :: 0 <= i < |s| ==> IsDigit(s[i])
  }

  function DigitChar(d: nat): (c: char)
    requires d < 10
    ensures IsDigit(c)
  {
    ('0' as int + d) as char
  }

  function DigitValue(c: char): (d: nat)
    requires IsDigit(c)
    ensures d < 10
  {
    c as int - '0' as int
  }

  /** How a template literal renders a non-negative integer below 10^21:
      decimal digits without leading zeros. */
  function Decimal(n: nat): (s: string)
    ensures |s| > 0 && AllDigits(s)
    ensures s[0] == '0' <==> n == 0
    ensures s[0] == '0' ==> s == "0"
    decreases n
  {
    if n < 10 then [DigitChar(n)] else Decimal(n / 10) + [DigitChar(n % 10)]
  }

  /** Reading a digit string back as a number, most significant first. */
  function ParseDecimal(s: string): nat
    requires AllDigits(s)
  {
    if s == [] then 0 else 10 * ParseDecimal(s[..|s| - 1]) + DigitValue(s[|s| - 1])
  }

  lemma {:induction false} DecimalRoundTrip(n: nat)
    ensures ParseDecimal(Decimal(n)) == n
    decreases n
  {
    var s := Decimal(n);
    if n >= 10 {
      DecimalRoundTrip(n / 10);
      assert s[..|s| - 1] == Decimal(n / 10);
    }
  }

  // ---------------------------------------------------------------------
  // getTopStations
  // ---------------------------------------------------------------------

  const TopVotePath: string := ApiBaseUrl + "/topvote/"
  const TopVoteQuery: string := "?hidebroken=true"

  /** The URL `getTopStations(limit)` requests: the top-vote path, the
      limit in decimal, and the broken-station filter. */
  function TopStationsUrl(limit: nat): (url: string)
    ensures |url| > |TopVotePath| + |TopVoteQuery|
    ensures url[..|TopVotePath|] == TopVotePath
    ensures url[|url| - |TopVoteQuery|..] == TopVoteQuery
    ensures AllDigits(url[|TopVotePath|..|url| - |TopVoteQuery|])
    ensures ParseDecimal(url[|TopVotePath|..|url| - |TopVoteQuery|]) == limit
    ensures url[|TopVotePath|] == '0' ==> limit == 0
    ensures url[|TopVotePath|] == '0' ==> url == TopVotePath + "0" + TopVoteQuery
  {
    var digits := Decimal(limit);
    DecimalRoundTrip(limit);
    var url := TopVotePath + digits + TopVoteQuery;
    assert url[|TopVotePath|..|url| - |TopVoteQuery|] == digits;
    url
  }

  // ---------------------------------------------------------------------
  // Query strings: `key=value` pairs joined by '&', and their parse
  // ---------------------------------------------------------------------

  datatype Param = Param(key: string, value: string)

  function Render(p: Param): string {
    p.key + "=" + p.value
  }

  /** The pairs in order, separated by '&'. */
  function Join(ps: seq<Param>): string
    decreases |ps|
  {
    if |ps| == 0 then ""
    else if |ps| == 1 then Render(ps[0])
    else Join(ps[..|ps| - 1]) + "&" + Render(ps[|ps| - 1])
  }

  function Keys(ps: seq<Param>): (ks: seq<string>)
    ensures |ks| == |ps|
  {
    seq(|ps|, i requires 0 <= i < |ps| => ps[i].key)
  }

  /** A pair that survives a round trip: nothing in it can be read as a
      separator ('&' anywhere, '=' in the key). */
  predicate WellFormed(p: Param) {
    '&' !in p.key && '=' !in p.key && '&' !in p.value
  }

  /** The pieces of a query string between the '&' separators. */
  function Segments(s: string): (segs: seq<string>)
    ensures |segs| > 0
  {
    if s == [] then [""]
    else
      var rest := Segments(s[1..]);
      if s[0] == '&' then [""] + rest
      else [[s[0]] + rest[0]] + rest[1..]
  }

  /** One piece read as a pair: the key runs up to the first '='. */
  function SplitPair(seg: string): Param {
    if seg == [] then Param("", "")
    else if seg[0] == '=' then Param("", seg[1..])
    else
      var p := SplitPair(seg[1..]);
      Param([seg[0]] + p.key, p.value)
  }

  /** The pairs a server reads out of a query string. */
  function ParseQuery(q: string): seq<Param> {
    var segs := Segments(q);
    seq(|segs|, i requires 0 <= i < |segs| => SplitPair(segs[i]))
  }

  lemma {:induction false} SegmentsOfPlain(s: string)
    requires '&' !in s
    ensures Segments(s) == [s]
  {
    if s != [] {
      assert s[0] in s;
      assert forall c :: c in s[1..] ==> c in s;
      SegmentsOfPlain(s[1..]);
      assert [s[0]] + s[1..] == s;
    }
  }

  lemma {:induction false} SegmentsOfConcat(a: string, b: string)
    ensures Segments(a + "&" + b) == Segments(a) + Segments(b)
  {
    var t := a + "&" + b;
    if a == [] {
      assert t[0] == '&' && t[1..] == b;
    } else {
      assert t[0] == a[0] && t[1..] == a[1..] + "&" + b;
      SegmentsOfConcat(a[1..], b);
      var sa, sb := Segments(a[1..]), Segments(b);
      var rest := Segments(t[1..]);
      assert rest == sa + sb;
      if a[0] != '&' {
        assert rest[0] == sa[0];
        assert rest[1..] == sa[1..] + sb;
        assert Segments(t) == [[a[0]] + sa[0]] + (sa[1..] + sb);
        assert Segments(a) == [[a[0]] + sa[0]] + sa[1..];
      }
    }
  }

  lemma {:induction false} SplitPairOfRender(p: Param)
    requires '=' !in p.key
    ensures SplitPair(Render(p)) == p
    decreases |p.key|
  {
    if p.key == [] {
      assert Render(p) == "=" + p.value;
      assert Render(p)[1..] == p.value;
    } else {
      var rest := Param(p.key[1..], p.value);
      SplitPairOfRender(rest);
      assert Render(p)[1..] == Render(rest);
      assert [p.key[0]] + p.key[1..] == p.key;
    }
  }

  lemma {:induction false} SegmentsOfJoin(ps: seq<Param>)
    requires |ps| > 0
    requires forall i :: 0 <= i < |ps| ==> WellFormed(ps[i])
    ensures Segments(Join(ps)) == seq(|ps|, i requires 0 <= i < |ps| => Render(ps[i]))
    decreases |ps|
  {
    var last := ps[|ps| - 1];
    assert '&' !in Render(last) by {
      assert Render(last) == last.key + "=" + last.value;
    }
    SegmentsOfPlain(Render(last));
    if |ps| > 1 {
      var init := ps[..|ps| - 1];
      SegmentsOfJoin(init);
      SegmentsOfConcat(Join(init), Render(last));
    }
  }

  /** Parsing a joined list of well-formed pairs gives the list back. */
  lemma QueryRoundTrip(ps: seq<Param>)
    requires |ps| > 0
    requires forall i :: 0 <= i < |ps| ==> WellFormed(ps[i])
    ensures ParseQuery(Join(ps)) == ps
  {
    SegmentsOfJoin(ps);
    forall i | 0 <= i < |ps|
      ensures SplitPair(Render(ps[i])) == ps[i]
    {
      SplitPairOfRender(ps[i]);
    }
  }

  lemma JoinSnoc(ps: seq<Param>, p: Param)
    requires |ps| > 0
    ensures Join(ps + [p]) == Join(ps) + "&" + Render(p)
  {
    assert (ps + [p])[..|ps|] == ps;
  }

  // ---------------------------------------------------------------------
  // searchStations and getByGenre
  // ---------------------------------------------------------------------

  const SearchPath: string := ApiBaseUrl + "/search"

  /** The parameters every search carries: 30 results, no broken
      stations, most clicked first, https streams only. */
  const FixedSearchParams: seq<Param> := [
    Param("limit", "30"),
    Param("hidebroken", "true"),
    Param("order", "clickcount"),
    Param("reverse", "true"),
    Param("is_https", "true")
  ]

  /** The fixed part of every search query. */
  const FixedSearchQueryString: string := "limit=30&hidebroken=true&order=clickcount&reverse=true&is_https=true"

  // Join(FixedSearchParams[..k]) one parameter at a time, each step in a
  // lemma of its own to keep the string comparisons small.
  lemma FixedPrefix1()
    ensures Join(FixedSearchParams[..1]) == "limit=30"
  {
    assert FixedSearchParams[..1] == [Param("limit", "30")];
  }

  lemma FixedPrefix2()
    ensures Join(FixedSearchParams[..2]) == "limit=30&hidebroken=true"
  {
    FixedPrefix1();
    assert FixedSearchParams[..2] == FixedSearchParams[..1] + [FixedSearchParams[1]];
    JoinSnoc(FixedSearchParams[..1], FixedSearchParams[1]);
  }

  lemma FixedPrefix3()
    ensures Join(FixedSearchParams[..3]) == "limit=30&hidebroken=true&order=clickcount"
  {
    FixedPrefix2();
    assert FixedSearchParams[..3] == FixedSearchParams[..2] + [FixedSearchParams[2]];
    JoinSnoc(FixedSearchParams[..2], FixedSearchParams[2]);
  }

  lemma FixedPrefix4()
    ensures Join(FixedSearchParams[..4]) == "limit=30&hidebroken=true&order=clickcount&reverse=true"
  {
    FixedPrefix3();
    assert FixedSearchParams[..4] == FixedSearchParams[..3] + [FixedSearchParams[3]];
    JoinSnoc(FixedSearchParams[..3], FixedSearchParams[3]);
  }

  lemma FixedSearchQuery()
    ensures Join(FixedSearchParams) == FixedSearchQueryString
  {
    FixedPrefix4();
    assert FixedSearchParams == FixedSearchParams[..4] + [FixedSearchParams[4]];
    JoinSnoc(FixedSearchParams[..4], FixedSearchParams[4]);
  }

  lemma FixedSearchKeys()
    ensures "name" !in Keys(FixedSearchParams) && "tag" !in Keys(FixedSearchParams)
  {
    assert Keys(FixedSearchParams) == ["limit", "hidebroken", "order", "reverse", "is_https"];
  }

  /** The parameters of `searchStations(query, tag)`: the fixed ones, then
      the encoded name if the query is non-empty, then the encoded tag if
      the tag is non-empty. */
  function SearchParams(query: string, tag: string, enc: string -> string): (ps: seq<Param>)
    ensures |ps| >= |FixedSearchParams| && ps[..|FixedSearchParams|] == FixedSearchParams
    ensures "name" in Keys(ps) <==> query != ""
    ensures "tag" in Keys(ps) <==> tag != ""
    ensures query != "" ==> ps[|FixedSearchParams|] == Param("name", enc(query))
    ensures tag != "" ==> ps[|ps| - 1] == Param("tag", enc(tag))
    ensures |ps| == |FixedSearchParams| + (if query != "" then 1 else 0) + (if tag != "" then 1 else 0)
  {
    FixedSearchKeys();
    var name := if query != "" then [Param("name", enc(query))] else [];
    var tagged := if tag != "" then [Param("tag", enc(tag))] else [];
    var ps := FixedSearchParams + name + tagged;
    assert Keys(ps) == Keys(FixedSearchParams) + Keys(name) + Keys(tagged);
    assert Keys(name) == if query != "" then ["name"] else [];
    assert Keys(tagged) == if tag != "" then ["tag"] else [];
    ps
  }

  /** The URL `searchStations(query, tag)` requests. */
  function SearchRequest(query: string, tag: string, enc: string -> string): string {
    SearchPath + "?" + Join(SearchParams(query, tag, enc))
  }

  lemma AppendParam(url: string, head: string, ps: seq<Param>, key: string, value: string)
    requires |ps| > 0 && url == head + Join(ps)
    ensures url + ("&" + key + "=") + value == head + Join(ps + [Param(key, value)])
  {
    JoinSnoc(ps, Param(key, value));
    Regroup(head, Join(ps), key, value);
  }

  lemma Regroup(head: string, joined: string, key: string, value: string)
    ensures (head + joined) + ("&" + key + "=") + value == head + (joined + "&" + (key + "=" + value))
  {
  }

  /** The step-by-step construction of the search URL: a fixed prefix,
      then the optional name and tag parameters appended in that order. */
  method SearchUrl(query: string, tag: string, enc: string -> string) returns (url: string)
    ensures url == SearchRequest(query, tag, enc)
  {
    url := SearchPath + "?" + FixedSearchQueryString;
    FixedSearchQuery();
    ghost var ps := FixedSearchParams;
    if query != "" {
      AppendParam(url, SearchPath + "?", ps, "name", enc(query));
      assert "&name=" == "&" + "name" + "=";
      url := url + "&name=" + enc(query);
      ps := ps + [Param("name", enc(query))];
    }
    if tag != "" {
      AppendParam(url, SearchPath + "?", ps, "tag", enc(tag));
      assert "&tag=" == "&" + "tag" + "=";
      url := url + "&tag=" + enc(tag);
      ps := ps + [Param("tag", enc(tag))];
    }
    assert ps == SearchParams(query, tag, enc);
  }

  lemma FixedParamsWellFormed()
    ensures forall i :: 0 <= i < |FixedSearchParams| ==> WellFormed(FixedSearchParams[i])
  {
  }

  /** An encoder that never emits '&' (as `encodeURIComponent` does not)
      makes the search URL parse back to exactly its parameters. */
  lemma SearchRequestParses(query: string, tag: string, enc: string -> string)
    requires '&' !in enc(query) && '&' !in enc(tag)
    ensures var url := SearchRequest(query, tag, enc);
      url[..|SearchPath| + 1] == SearchPath + "?" &&
      ParseQuery(url[|SearchPath| + 1..]) == SearchParams(query, tag, enc)
  {
    var ps := SearchParams(query, tag, enc);
    var head := SearchPath + "?";
    assert (head + Join(ps))[..|head|] == head;
    assert (head + Join(ps))[|head|..] == Join(ps);
    FixedParamsWellFormed();
    forall i | 0 <= i < |ps|
      ensures WellFormed(ps[i])
    {
      if i < |FixedSearchParams| {
        assert ps[i] == FixedSearchParams[i];
      }
    }
    QueryRoundTrip(ps);
  }

  // ---------------------------------------------------------------------
  // The fetch wrapper
  // ---------------------------------------------------------------------

  /** An HTTP response: its `ok` flag and the decoded body, `None` when
      reading the body as JSON fails. */
  datatype Response = Response(ok: bool, body: Option<seq<Station>>)

  /** What `fetch` does with a URL: it throws, or it produces a response. */
  datatype FetchOutcome = Threw | Responded(response: Response)

  /** The try/catch around every query: a thrown error, a non-ok response
      and an undecodable body all give the empty list. */
  function Recover(outcome: FetchOutcome): (stations: seq<Station>)
    ensures outcome.Responded? && outcome.response.ok && outcome.response.body.Some? ==>
              stations == outcome.response.body.value
    ensures stations == [] || outcome == Responded(Response(true, Some(stations)))
  {
    match outcome
    case Threw => []
    case Responded(response) =>
      if !response.ok then []
      else match response.body
        case None => []
        case Some(stations) => stations
  }

  /** `getTopStations(limit)`; a call without a limit is `GetTopStations(20, fetch)`. */
  function GetTopStations(limit: nat, fetch: string -> FetchOutcome): (stations: seq<Station>)
    ensures var outcome := fetch(TopStationsUrl(limit));
              outcome.Responded? && outcome.response.ok && outcome.response.body.Some? ==>
                stations == outcome.response.body.value
    ensures stations == [] || fetch(TopStationsUrl(limit)) == Responded(Response(true, Some(stations)))
  {
    Recover(fetch(TopStationsUrl(limit)))
  }

  /** `searchStations(query, tag)`; callers without a tag pass "". */
  method SearchStations(query: string, tag: string, enc: string -> string, fetch: string -> FetchOutcome)
    returns (stations: seq<Station>)
    ensures stations == Recover(fetch(SearchRequest(query, tag, enc)))
    ensures stations == [] || fetch(SearchRequest(query, tag, enc)) == Responded(Response(true, Some(stations)))
  {
    var url := SearchUrl(query, tag, enc);
    stations := Recover(fetch(url));
  }

  /** `getByGenre(genre)`: the search with an empty query, so its request
      never carries a name parameter. */
  method GetByGenre(genre: string, enc: string -> string, fetch: string -> FetchOutcome)
    returns (stations: seq<Station>)
    ensures stations == Recover(fetch(SearchRequest("", genre, enc)))
    ensures "name" !in Keys(SearchParams("", genre, enc))
    ensures ("tag" in Keys(SearchParams("", genre, enc))) <==> genre != ""
  {
    stations := SearchStations("", genre, enc, fetch);
  }
}
