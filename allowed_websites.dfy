/** create_allowed_websites.py: six web searches whose result links are
    collected into a set, and the set of host names (component 2 of each link
    split on "/") that would be written to the allowed-websites file. The
    search service's answer to each query is a parameter. */
module AllowedWebsites {
  import opened PyJson
  import opened PyStr

  /** What the HTTP call gives: a failure (connection, timeout, bad status),
      a body that is not JSON, or the decoded JSON document. */
  datatype Response = RequestFailed | NotJson | Decoded(doc: Json)

  /** One kept search result: `{"title": ..., "link": ...}`. */
  datatype Hit = Hit(title: Json, link: Json)

  /** `{"title": result.get("title"), "link": result.get("link")}`; a result
      that is not a dict has no `get` and raises. */
  function HitOf(result: Json): (r: Option<Hit>)
    ensures r.Some? <==> result.JObj?
    ensures r.Some? ==> r.value == Hit(GetOr(result.fields, "title", JNull), GetOr(result.fields, "link", JNull))
  {
    if result.JObj? then Some(Hit(GetOr(result.fields, "title", JNull), GetOr(result.fields, "link", JNull)))
    else None
  }

  /** `f` applied to each of `xs`, in order, or None as soon as one
      application fails (the loop's `try` then gives up on the whole list). */
  function MapAll<T>(xs: seq<Json>, f: Json -> Option<T>): (r: Option<seq<T>>)
    ensures r.Some? ==> |r.value| == |xs|
    decreases |xs|
  {
    if xs == [] then Some([])
    else
      var n := |xs| - 1;
      var init := MapAll(xs[..n], f);
      var last := f(xs[n]);
      if init.None? || last.None? then None
      else Some(init.value + [last.value])
  }

  /** The mapping completes exactly when every application does. */
  lemma {:induction false} MapAllDefined<T>(xs: seq<Json>, f: Json -> Option<T>)
    ensures MapAll(xs, f).Some? <==> forall i :: 0 <= i < |xs| ==> f(xs[i]).Some?
    decreases |xs|
  {
    if xs != [] {
      var n := |xs| - 1;
      MapAllDefined(xs[..n], f);
      assert forall i :: 0 <= i < n ==> xs[..n][i] == xs[i];
    }
  }

  /** When it completes, item `i` of the result is `f` of item `i`. */
  lemma {:induction false} MapAllPointwise<T>(xs: seq<Json>, f: Json -> Option<T>)
    requires MapAll(xs, f).Some?
    ensures forall i :: 0 <= i < |xs| ==> f(xs[i]) == Some(MapAll(xs, f).value[i])
    decreases |xs|
  {
    if xs != [] {
      var n := |xs| - 1;
      MapAllPointwise(xs[..n], f);
      assert forall i :: 0 <= i < n ==> xs[..n][i] == xs[i];
    }
  }

  /** The hits of `results`, in order, or None when one of them raises:
      exactly when some result is not a dict. */
  lemma HitsDefined(results: seq<Json>)
    ensures MapAll(results, HitOf).Some? <==> forall i :: 0 <= i < |results| ==> results[i].JObj?
  {
    MapAllDefined(results, HitOf);
    assert forall i :: 0 <= i < |results| ==> (HitOf(results[i]).Some? <==> results[i].JObj?);
  }

  /** What `search_web` returns: `[]` without an API key, on any error, or
      when the document has no `organic_results`; otherwise one hit per
      organic result, in order. */
  function SearchResults(apiKey: string, response: Response): (r: seq<Hit>)
    ensures apiKey == [] || response.RequestFailed? || response.NotJson? ==> r == []
  {
    if apiKey == [] then []
    else match response
      case RequestFailed => []
      case NotJson => []
      case Decoded(doc) =>
        match doc
        case JObj(fs) =>
          (match Get(fs, "organic_results")
           case None => []
           case Some(organic) =>
             match Iterate(organic)
             case Raised(_) => []
             case Returned(items) =>
               match MapAll(items, HitOf)
               case Some(hits) => hits
               case None => [])
        // `"organic_results" in doc` on a list, a string or another value
        // either is false, or leads to an exception; both give [].
        case _ => []
  }

  /** `search_web(query)` with the loop that appends one hit per organic result. */
  method SearchWeb(apiKey: string, response: Response) returns (searchResults: seq<Hit>)
    ensures searchResults == SearchResults(apiKey, response)
  {
    if apiKey == [] {
      return [];
    }
    if !response.Decoded? || !response.doc.JObj? {
      return [];
    }
    var organic := Get(response.doc.fields, "organic_results");
    if organic.None? {
      return [];
    }
    var items := Iterate(organic.value);
    if items.Raised? {
      return [];
    }
    var results := items.value;
    searchResults := [];
    var i := 0;
    while i < |results|
      invariant 0 <= i <= |results|
      invariant MapAll(results[..i], HitOf) == Some(searchResults)
    {
      var hit := HitOf(results[i]);
      if hit.None? {
        // AttributeError inside the loop: the handler returns [].
        NoHitsAfterFailure(results, i);
        return [];
      }
      assert results[..i + 1][..i] == results[..i];
      searchResults := searchResults + [hit.value];
      i := i + 1;
    }
    assert results[..|results|] == results;
  }

  /** A result that is not a dict makes every longer prefix fail too. */
  lemma NoHitsAfterFailure(results: seq<Json>, i: nat)
    requires i < |results| && !results[i].JObj?
    ensures MapAll(results, HitOf) == None
  {
    HitsDefined(results);
  }

  /** The six fixed queries. */
  const Queries: seq<string> := [
    "top universities in the USA for computer science",
    "top universities in the UK for computer science",
    "top universities in Australia for computer science",
    "list of universities in USA",
    "list of universities in UK",
    "list of universities in Australia"]

  /** The truthy links among `hits`. */
  function Links(hits: seq<Hit>): (r: set<Json>)
    ensures forall l :: l in r ==> Truthy(l)
    decreases |hits|
  {
    if hits == [] then {}
    else
      var last := hits[|hits| - 1];
      Links(hits[..|hits| - 1]) + (if Truthy(last.link) then {last.link} else {})
  }

  /** A link is collected exactly when it is truthy and some hit carries it. */
  lemma {:induction false} LinksMembers(hits: seq<Hit>, l: Json)
    ensures l in Links(hits) <==> Truthy(l) && exists i :: 0 <= i < |hits| && hits[i].link == l
    decreases |hits|
  {
    if hits != [] {
      var n := |hits| - 1;
      LinksMembers(hits[..n], l);
      assert forall i :: 0 <= i < n ==> hits[..n][i] == hits[i];
      if l in Links(hits[..n]) {
        var i :| 0 <= i < n && hits[..n][i].link == l;
        assert hits[i].link == l;
      }
    }
  }

  /** One more hit adds its link when that is truthy. */
  lemma LinksStep(hits: seq<Hit>, j: nat)
    requires j < |hits|
    ensures Links(hits[..j + 1]) == Links(hits[..j]) + (if Truthy(hits[j].link) then {hits[j].link} else {})
  {
    assert hits[..j + 1][..j] == hits[..j];
  }

  /** The truthy links of the searches for `queries`, `respond` giving the
      search service's answer to each. */
  function QueryLinks(apiKey: string, respond: string -> Response, queries: seq<string>): (r: set<Json>)
    ensures forall l :: l in r ==> Truthy(l)
    decreases |queries|
  {
    if queries == [] then {}
    else QueryLinks(apiKey, respond, queries[..|queries| - 1]) + Links(SearchResults(apiKey, respond(queries[|queries| - 1])))
  }

  /** Without an API key every search gives `[]`, so no link is collected
      and no domain is allowed. */
  lemma {:induction false} NoKeyNoLinks(respond: string -> Response, queries: seq<string>)
    ensures QueryLinks([], respond, queries) == {}
    decreases |queries|
  {
    if queries != [] {
      NoKeyNoLinks(respond, queries[..|queries| - 1]);
    }
  }

  /** The host name of a link: component 2 of `link.split("/")`, if there
      are more than two components. */
  function Domain(link: string): (r: Option<string>)
    ensures r.Some? <==> |Split(link, "/")| > 2
    ensures r.Some? ==> !Occurs(r.value, "/")
  {
    SplitPiecesFree(link, "/");
    var parts := Split(link, "/");
    if |parts| > 2 then Some(parts[2]) else None
  }

  /** The domains of a set of string links. */
  function DomainsOf(links: set<Json>): (r: set<string>)
    ensures forall d :: d in r ==> !Occurs(d, "/")
    ensures forall l :: l in links && l.JStr? && |Split(l.s, "/")| > 2 ==> Split(l.s, "/")[2] in r
  {
    set l | l in links && l.JStr? && Domain(l.s).Some? :: Domain(l.s).value
  }

  /** `create_allowed_websites_file()` up to the write: the allowed domains,
      or the exception a truthy link that is not a string raises on `split`.
      `respond` gives the search service's answer to each query. */
  method CreateAllowedWebsites(apiKey: string, respond: string -> Response) returns (r: Outcome<set<string>>)
    ensures r.Raised? <==> exists l :: l in QueryLinks(apiKey, respond, Queries) && !l.JStr?
    ensures r.Returned? ==> r.value == DomainsOf(QueryLinks(apiKey, respond, Queries))
  {
    var allLinks := CollectLinks(apiKey, respond, Queries);
    r := Domains(allLinks);
  }

  /** The loop over the queries: every search's links go into one set. */
  method CollectLinks(apiKey: string, respond: string -> Response, queries: seq<string>) returns (allLinks: set<Json>)
    ensures allLinks == QueryLinks(apiKey, respond, queries)
  {
    allLinks := {};
    var qi := 0;
    while qi < |queries|
      invariant 0 <= qi <= |queries|
      invariant allLinks == QueryLinks(apiKey, respond, queries[..qi])
    {
      var searchResults := SearchWeb(apiKey, respond(queries[qi]));
      allLinks := AddLinks(allLinks, searchResults);
      assert queries[..qi + 1][..qi] == queries[..qi];
      qi := qi + 1;
    }
    assert queries[..qi] == queries;
  }

  /** `if search_results:` then each result's truthy `link` is added. */
  method AddLinks(allLinks: set<Json>, searchResults: seq<Hit>) returns (r: set<Json>)
    ensures r == allLinks + Links(searchResults)
  {
    r := allLinks;
    var j := 0;
    while j < |searchResults|
      invariant 0 <= j <= |searchResults|
      invariant r == allLinks + Links(searchResults[..j])
    {
      var link := searchResults[j].link;
      LinksStep(searchResults, j);
      if Truthy(link) {
        r := r + {link};
      }
      j := j + 1;
    }
    assert searchResults[..j] == searchResults;
  }

  /** The loop over the collected links: each string link's host name is
      added; a link without `split` raises. */
  method Domains(allLinks: set<Json>) returns (r: Outcome<set<string>>)
    ensures r.Raised? <==> exists l :: l in allLinks && !l.JStr?
    ensures r.Returned? ==> r.value == DomainsOf(allLinks)
  {
    var allowedDomains: set<string> := {};
    var remaining := allLinks;
    while remaining != {}
      invariant remaining <= allLinks
      invariant allowedDomains == DomainsOf(allLinks - remaining)
      invariant forall l :: l in allLinks - remaining ==> l.JStr?
      decreases |remaining|
    {
      var link :| link in remaining;
      if !link.JStr? {
        return Raised("AttributeError: object has no attribute 'split'");
      }
      var parts := Split(link.s, "/");
      DomainsAdd(allLinks - remaining, link);
      if |parts| > 2 {
        allowedDomains := allowedDomains + {parts[2]};
      }
      assert allLinks - (remaining - {link}) == (allLinks - remaining) + {link};
      remaining := remaining - {link};
    }
    assert allLinks - remaining == allLinks;
    r := Returned(allowedDomains);
  }

  /** Adding one link adds its domain, if it has one. */
  lemma DomainsAdd(links: set<Json>, link: Json)
    requires link.JStr?
    ensures DomainsOf(links + {link}) ==
      DomainsOf(links) + (if Domain(link.s).Some? then {Domain(link.s).value} else {})
  {
  }

  /** There are never more domains than links. */
  lemma {:induction false} DomainsBound(links: set<Json>)
    ensures |DomainsOf(links)| <= |links|
    decreases |links|
  {
    if links != {} {
      var l :| l in links;
      var rest := links - {l};
      DomainsBound(rest);
      assert links == rest + {l};
      if l.JStr? {
        DomainsAdd(rest, l);
      } else {
        assert DomainsOf(links) == DomainsOf(rest);
      }
    }
  }

  /** Every domain is component 2 of a collected link, and a link with at
      most two components contributes none. */
  lemma DomainsFromLinks(links: set<Json>, d: string)
    ensures d in DomainsOf(links) <==>
      exists l :: l in links && l.JStr? && |Split(l.s, "/")| > 2 && Split(l.s, "/")[2] == d
  {
  }

  /** Links with at most two components are dropped. */
  lemma ShortLinkIgnored(links: set<Json>, link: string)
    requires |Split(link, "/")| <= 2
    ensures DomainsOf(links + {JStr(link)}) == DomainsOf(links)
  {
    DomainsAdd(links, JStr(link));
  }

  /** `search_web` keeps the title and link of each organic result, in order. */
  lemma SearchKeepsOrder(apiKey: string, fs: seq<Field>, items: seq<Json>)
    requires apiKey != [] && Get(fs, "organic_results") == Some(JList(items))
    requires forall i :: 0 <= i < |items| ==> items[i].JObj?
    ensures var r := SearchResults(apiKey, Decoded(JObj(fs)));
      |r| == |items| && forall i :: 0 <= i < |items| ==>
        r[i] == Hit(GetOr(items[i].fields, "title", JNull), GetOr(items[i].fields, "link", JNull))
  {
    HitsDefined(items);
    MapAllPointwise(items, HitOf);
  }
}
