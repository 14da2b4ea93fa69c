/** The username probe of `OsintRepository`: the verdict for one site and
    the fan-out over a list of sites. HTTP is an input: `net` maps each
    request to the response it gets or to a failure. */
module OsintRepository {
  import opened Wrappers
  import opened Text
  import opened Seqs
  import opened Models

  const Placeholder: string := "{username}"

  datatype HttpMethod = Get | Head

  datatype Request = Request(verb: HttpMethod, url: string)

  /** What the probe reads from a response: the status code, the body
      (empty when there is none) and the URL of the last request after
      redirects were followed. */
  datatype Response = Response(code: int, body: string, finalUrl: string)

  /** A call either answers or throws (bad URL, timeout, I/O error). */
  datatype Outcome = Responded(response: Response) | Failed

  type Network = Request -> Outcome

  /** Sites whose URL template holds the placeholder are searchable. */
  predicate Templated(site: MaigretSite) {
    Contains(site.url, Placeholder)
  }

  /** `getSearchableSites()` over the loaded catalogue. */
  function SearchableSites(loaded: seq<MaigretSite>): (r: seq<MaigretSite>)
    ensures |r| <= |loaded|
    ensures forall s :: s in r <==> s in loaded && Templated(s)
  {
    FilterMembers(Templated, loaded);
    Filter(Templated, loaded)
  }

  /** The URL probed for `username`: every placeholder replaced. */
  function ProbeUrl(username: string, site: MaigretSite): string {
    ReplaceAll(site.url, Placeholder, username)
  }

  /** The request sent: GET for "message" sites, which need the body,
      HEAD for every other check type. */
  function RequestFor(username: string, site: MaigretSite): (r: Request)
    ensures r.url == ProbeUrl(username, site)
    ensures r.verb == Get <==> site.checkType == "message"
  {
    Request(if site.checkType == "message" then Get else Head, ProbeUrl(username, site))
  }

  predicate Is2xx(code: int) { 200 <= code <= 299 }

  predicate Is2xxOr3xx(code: int) { 200 <= code <= 399 }

  /** The `when (site.checkType)` of the probe: whether a response means
      that a profile exists. */
  function Found(site: MaigretSite, username: string, response: Response): bool {
    match site.checkType
    case "status_code" => Is2xx(response.code)
    case "message" =>
      if !Is2xx(response.code) then false
      else if site.errorMsg.None? || site.errorMsg.value == "" then true
      else !ContainsIgnoreCase(response.body, site.errorMsg.value)
    case "response_url" =>
      Is2xxOr3xx(response.code) && ContainsIgnoreCase(response.finalUrl, username)
    case _ => Is2xx(response.code)
  }

  /** A probe: its verdict, and the request it sent (None when the URL was
      rejected before any request). */
  datatype Probe = Probe(result: UsernameCheckResult, request: Option<Request>)

  /** `checkSingleSite`. */
  function CheckSingleSite(net: Network, username: string, site: MaigretSite): (p: Probe)
    ensures p.result.site == site && p.result.url == ProbeUrl(username, site)
    ensures p.result.status == FOUND || p.result.status == NOT_FOUND || p.result.status == ERROR
    ensures p.result.found <==> p.result.status == FOUND
    ensures p.result.httpStatus.Some? <==> p.result.status != ERROR
    // A URL that does not start with "http" is an error and sends nothing.
    ensures p.request.None? <==> !StartsWith(ProbeUrl(username, site), "http")
    ensures p.request.None? ==> p.result.status == ERROR
    ensures p.request.Some? ==> p.request.value == RequestFor(username, site)
    // A failed call is an error; an answered call is never one.
    ensures p.request.Some? ==>
      (p.result.status == ERROR <==> net(p.request.value).Failed?)
    ensures p.request.Some? && net(p.request.value).Responded? ==>
      p.result.httpStatus == Some(net(p.request.value).response.code)
    // The three rules, and the status-code rule for unknown check types.
    ensures p.request.Some? && net(p.request.value).Responded? ==>
      var code := net(p.request.value).response.code;
      (site.checkType != "message" && site.checkType != "response_url" ==>
        (p.result.found <==> 200 <= code <= 299))
      && (site.checkType == "message" ==>
        (p.result.found <==>
          200 <= code <= 299
          && (site.errorMsg.None? || site.errorMsg.value == ""
              || !ContainsIgnoreCase(net(p.request.value).response.body, site.errorMsg.value))))
      && (site.checkType == "response_url" ==>
        (p.result.found <==>
          200 <= code <= 399 && ContainsIgnoreCase(net(p.request.value).response.finalUrl, username)))
  {
    var url := ProbeUrl(username, site);
    if !StartsWith(url, "http") then
      Probe(UsernameCheckResult(site, false, url, ERROR, None), None)
    else
      var request := RequestFor(username, site);
      match net(request)
      case Failed =>
        Probe(UsernameCheckResult(site, false, url, ERROR, None), Some(request))
      case Responded(response) =>
        var found := Found(site, username, response);
        Probe(UsernameCheckResult(site, found, url, if found then FOUND else NOT_FOUND,
                                  Some(response.code)), Some(request))
  }

  /** `checkUsernameBatch`: one result per searchable site, in list order. */
  function CheckUsernameBatch(net: Network, username: string, sites: seq<MaigretSite>)
    : (r: seq<UsernameCheckResult>)
    ensures |r| == |Filter(Templated, sites)|
    ensures forall i :: 0 <= i < |r| ==>
      r[i].site == Filter(Templated, sites)[i]
      && r[i].url == ProbeUrl(username, Filter(Templated, sites)[i])
      && Templated(r[i].site)
  {
    var targets := Filter(Templated, sites);
    FilterMembers(Templated, sites);
    assert forall i :: 0 <= i < |targets| ==> targets[i] in targets;
    seq(|targets|, i requires 0 <= i < |targets| => CheckSingleSite(net, username, targets[i]).result)
  }

  /** `checkUsername`: the sites to probe are the given list, or the
      searchable catalogue when none is given, in both cases keeping only
      templated sites. The results are emitted by awaiting the probes in
      list order, so the stream is the batch result in the same order. */
  method CheckUsername(net: Network, username: string, sites: Option<seq<MaigretSite>>,
                       loaded: seq<MaigretSite>)
    returns (emitted: seq<UsernameCheckResult>)
    ensures emitted == CheckUsernameBatch(net, username, sites.GetOr(SearchableSites(loaded)))
  {
    var targets := Filter(Templated, sites.GetOr(SearchableSites(loaded)));
    ghost var batch := CheckUsernameBatch(net, username, sites.GetOr(SearchableSites(loaded)));
    emitted := [];
    var i := 0;
    while i < |targets|
      invariant 0 <= i <= |targets|
      invariant emitted == batch[..i]
    {
      var probe := CheckSingleSite(net, username, targets[i]);
      emitted := emitted + [probe.result];
      i := i + 1;
    }
  }

  /** With no explicit list, `checkUsername` probes exactly the searchable
      catalogue: filtering it again removes nothing. */
  lemma DefaultTargetsAreSearchable(loaded: seq<MaigretSite>)
    ensures Filter(Templated, SearchableSites(loaded)) == SearchableSites(loaded)
  {
    FilterIdempotent(Templated, loaded);
  }

  /** A template that starts with "http" still does after substitution,
      whatever the username: "http" holds no '{'. */
  lemma HttpTemplateStaysHttp(username: string, site: MaigretSite)
    requires StartsWith(site.url, "http")
    ensures StartsWith(ProbeUrl(username, site), "http")
  {
    var rest := site.url[4..];
    assert site.url == "http" + rest;
    ReplaceKeepsPrefix("http", rest, Placeholder, username);
  }

  /** A template with one placeholder, and no '{' before it, probes the
      URL with the username in its place. */
  lemma ProbeUrlSubstitutes(username: string, prefix: string, suffix: string, site: MaigretSite)
    requires site.url == prefix + Placeholder + suffix
    requires forall i :: 0 <= i < |prefix| ==> prefix[i] != '{'
    requires !Contains(suffix, Placeholder)
    ensures ProbeUrl(username, site) == prefix + username + suffix
  {
    ReplaceOne(prefix, suffix, Placeholder, username);
    ReplaceAbsent(suffix, Placeholder, username);
  }

  /** A "message" site without an error text decides like a status-code
      site, although it is fetched with GET: given the same answer to both
      requests, the verdicts agree. */
  lemma MessageWithoutErrorMsgIsStatusCode(net: Network, username: string, site: MaigretSite)
    requires site.checkType == "message"
    requires site.errorMsg.None? || site.errorMsg.value == ""
    requires net(RequestFor(username, site))
          == net(RequestFor(username, site.(checkType := "status_code")))
    ensures CheckSingleSite(net, username, site).result
         == CheckSingleSite(net, username, site.(checkType := "status_code")).result.(site := site)
  {
  }
}
