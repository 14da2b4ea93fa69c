/** `MaigretSiteLoader`: the bundled site catalogue, decoded on first use
    and cached, and the tag and text queries over it. */
module SiteLoader {
  import opened Wrappers
  import opened Text
  import opened Seqs
  import opened Models

  // ---------------------------------------------------------------------
  // The queries, as functions of the loaded list
  // ---------------------------------------------------------------------

  /** Some tag of the site equals `tag`, ignoring case. */
  predicate HasTagIgnoreCase(site: MaigretSite, tag: string) {
    exists t :: t in site.tags && EqualsIgnoreCase(t, tag)
  }

  /** `getSitesByTag`. */
  function SitesByTag(sites: seq<MaigretSite>, tag: string): (r: seq<MaigretSite>)
    ensures forall s :: s in r <==> s in sites && HasTagIgnoreCase(s, tag)
  {
    FilterMembers((s: MaigretSite) => HasTagIgnoreCase(s, tag), sites);
    Filter((s: MaigretSite) => HasTagIgnoreCase(s, tag), sites)
  }

  /** `flatMap { it.tags }`. */
  function FlatTags(sites: seq<MaigretSite>): (r: seq<string>)
    ensures forall t :: t in r <==> exists s :: s in sites && t in s.tags
  {
    if sites == [] then []
    else
      var rest := FlatTags(sites[1..]);
      assert forall s :: s in sites <==> s == sites[0] || s in sites[1..];
      sites[0].tags + rest
  }

  /** `getAllTags`: `flatMap`, `distinct`, `sorted`. */
  function AllTags(sites: seq<MaigretSite>): seq<string> {
    SortStrings(Distinct(FlatTags(sites)))
  }

  /** Every tag of every site is listed exactly once, in increasing order,
      and nothing else is listed. */
  lemma AllTagsSpec(sites: seq<MaigretSite>)
    ensures StrictlySorted(AllTags(sites))
    ensures forall t :: t in AllTags(sites) <==> exists s :: s in sites && t in s.tags
  {
    SortDistinctStrict(Distinct(FlatTags(sites)));
  }

  /** The tag list depends only on which tags occur: any strictly
      increasing list of exactly those tags is the tag list. */
  lemma AllTagsCanonical(sites: seq<MaigretSite>, tags: seq<string>)
    requires StrictlySorted(tags)
    requires forall t :: t in tags <==> exists s :: s in sites && t in s.tags
    ensures tags == AllTags(sites)
  {
    AllTagsSpec(sites);
    StrictlySortedUnique(tags, AllTags(sites));
  }

  /** The lower-cased query occurs in the lower-cased name, main URL or
      one of the tags. */
  predicate MatchesQuery(site: MaigretSite, lowerQuery: string) {
    Contains(Lower(site.name), lowerQuery)
    || Contains(Lower(site.urlMain), lowerQuery)
    || exists t :: t in site.tags && Contains(Lower(t), lowerQuery)
  }

  /** `searchSites`. */
  function SearchSites(sites: seq<MaigretSite>, query: string): (r: seq<MaigretSite>)
    ensures forall s :: s in r <==>
      (s in sites
       && (ContainsIgnoreCase(s.name, query) || ContainsIgnoreCase(s.urlMain, query)
           || exists t :: t in s.tags && ContainsIgnoreCase(t, query)))
  {
    FilterMembers((s: MaigretSite) => MatchesQuery(s, Lower(query)), sites);
    Filter((s: MaigretSite) => MatchesQuery(s, Lower(query)), sites)
  }

  /** An empty query keeps every site, in order. */
  lemma SearchEmptyKeepsAll(sites: seq<MaigretSite>)
    ensures SearchSites(sites, "") == sites
  {
    forall i | 0 <= i < |sites| ensures MatchesQuery(sites[i], Lower("")) {
      ContainsEmpty(Lower(sites[i].name));
    }
    FilterAll((s: MaigretSite) => MatchesQuery(s, Lower("")), sites);
  }

  /** Every site listed under a tag is also found by searching for that
      tag's text. */
  lemma TaggedSitesAreFound(sites: seq<MaigretSite>, tag: string)
    ensures forall s :: s in SitesByTag(sites, tag) ==> s in SearchSites(sites, tag)
  {
    forall s | s in SitesByTag(sites, tag) ensures s in SearchSites(sites, tag) {
      var t :| t in s.tags && EqualsIgnoreCase(t, tag);
      assert Lower(t) <= Lower(tag);
      assert ContainsIgnoreCase(t, tag);
    }
  }

  // ---------------------------------------------------------------------
  // The loader
  // ---------------------------------------------------------------------

  class MaigretSiteLoader {
    /** What decoding the bundled asset gives: the site list, or the
        exception reading or decoding it throws. */
    const asset: Result<seq<MaigretSite>>
    var cachedSites: Option<seq<MaigretSite>>
    /** How often the asset has been opened. */
    ghost var assetReads: nat

    /** The cache only ever holds the decoded asset, and a successfully
        decoded asset has been read exactly once once it is cached. */
    ghost predicate Valid()
      reads this
    {
      (cachedSites.Some? ==> asset.Ok? && cachedSites.value == asset.value && assetReads == 1)
      && (asset.Ok? && cachedSites.None? ==> assetReads == 0)
    }

    constructor (asset: Result<seq<MaigretSite>>)
      ensures Valid()
      ensures this.asset == asset && cachedSites == None && assetReads == 0
    {
      this.asset := asset;
      cachedSites := None;
      assetReads := 0;
    }

    /** `loadSites`: the cached list if there is one; otherwise the asset
        is read, and a successful decode is cached. */
    method LoadSites() returns (r: Result<seq<MaigretSite>>)
      requires Valid()
      modifies this
      ensures Valid()
      ensures r == asset
      ensures cachedSites == (if asset.Ok? then Some(asset.value) else None)
      ensures assetReads == old(assetReads) + (if old(cachedSites).Some? then 0 else 1)
      ensures asset.Ok? ==> assetReads == 1
    {
      if cachedSites.Some? {
        return Ok(cachedSites.value);
      }
      assetReads := assetReads + 1;
      r := asset;
      if r.Ok? {
        cachedSites := Some(r.value);
      }
    }

    method GetSitesByTag(tag: string) returns (r: Result<seq<MaigretSite>>)
      requires Valid()
      modifies this
      ensures Valid()
      ensures r == (if asset.Ok? then Ok(SitesByTag(asset.value, tag)) else Err(asset.message))
    {
      var loaded := LoadSites();
      if loaded.Err? {
        return Err(loaded.message);
      }
      r := Ok(SitesByTag(loaded.value, tag));
    }

    method GetAllTags() returns (r: Result<seq<string>>)
      requires Valid()
      modifies this
      ensures Valid()
      ensures r == (if asset.Ok? then Ok(AllTags(asset.value)) else Err(asset.message))
    {
      var loaded := LoadSites();
      if loaded.Err? {
        return Err(loaded.message);
      }
      r := Ok(AllTags(loaded.value));
    }

    method Search(query: string) returns (r: Result<seq<MaigretSite>>)
      requires Valid()
      modifies this
      ensures Valid()
      ensures r == (if asset.Ok? then Ok(SearchSites(asset.value, query)) else Err(asset.message))
    {
      var loaded := LoadSites();
      if loaded.Err? {
        return Err(loaded.message);
      }
      r := Ok(SearchSites(loaded.value, query));
    }

    /** `totalSiteCount`: the size of the loaded list. */
    method TotalSiteCount() returns (r: Result<int>)
      requires Valid()
      modifies this
      ensures Valid()
      ensures r == (if asset.Ok? then Ok(|asset.value|) else Err(asset.message))
    {
      var loaded := LoadSites();
      if loaded.Err? {
        return Err(loaded.message);
      }
      r := Ok(|loaded.value|);
    }
  }
}
