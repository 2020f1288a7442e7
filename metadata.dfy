/** `Provider.GetMetadata`: decode the scene's external id, ask the site's
    provider for the scene, and normalize the returned record in place. */
module Metadata {
  import opened Wrappers
  import opened Text
  import opened Calendar
  import opened Entities
  import opened Numerals
  import opened ExternalId
  import opened Search

  // ---------------------------------------------------------------------------
  // Studio de-duplication

  /** The elements of `xs`, each kept at its first occurrence only. */
  function Distinct(xs: seq<string>): seq<string> {
    if |xs| == 0 then []
    else
      var kept := Distinct(xs[..|xs| - 1]);
      if xs[|xs| - 1] in kept then kept else kept + [xs[|xs| - 1]]
  }

  predicate NoDuplicates(xs: seq<string>) {
    forall i, j :: 0 <= i < j < |xs| ==> xs[i] != xs[j]
  }

  /** Position of the first occurrence of `x` in `xs`. */
  function IndexOf(xs: seq<string>, x: string): (k: nat)
    requires x in xs
    ensures k < |xs| && xs[k] == x
    ensures forall j :: 0 <= j < k ==> xs[j] != x
  {
    if xs[0] == x then 0 else 1 + IndexOf(xs[1..], x)
  }

  lemma {:induction false} IndexOfInPrefix(p: seq<string>, x: string, y: string)
    requires y in p
    ensures y in p + [x] && IndexOf(p + [x], y) == IndexOf(p, y)
  {
    if p[0] != y {
      assert (p + [x])[1..] == p[1..] + [x];
      IndexOfInPrefix(p[1..], x, y);
    }
  }

  /** De-duplication keeps exactly the elements of its input. */
  lemma {:induction false} DistinctElements(xs: seq<string>)
    ensures forall x :: x in Distinct(xs) <==> x in xs
  {
    if |xs| > 0 {
      var p := xs[..|xs| - 1];
      DistinctElements(p);
      assert xs == p + [xs[|xs| - 1]];
    }
  }

  /** De-duplication leaves no element twice. */
  lemma {:induction false} DistinctNoDuplicates(xs: seq<string>)
    ensures NoDuplicates(Distinct(xs))
  {
    if |xs| > 0 {
      DistinctNoDuplicates(xs[..|xs| - 1]);
    }
  }

  /** The elements of `r` all occur in `xs`, in the order of their first
      occurrences there. */
  predicate FirstSeenOrdered(xs: seq<string>, r: seq<string>) {
    && (forall i :: 0 <= i < |r| ==> r[i] in xs)
    && (forall i, j :: 0 <= i < j < |r| ==> IndexOf(xs, r[i]) < IndexOf(xs, r[j]))
  }

  /** Appending an element keeps the first occurrences of what came before. */
  lemma FirstSeenOrderedExtend(p: seq<string>, x: string, kept: seq<string>)
    requires FirstSeenOrdered(p, kept)
    ensures FirstSeenOrdered(p + [x], kept)
  {
    forall i | 0 <= i < |kept|
      ensures kept[i] in p + [x] && IndexOf(p + [x], kept[i]) == IndexOf(p, kept[i])
    {
      IndexOfInPrefix(p, x, kept[i]);
    }
  }

  /** De-duplication keeps first-seen order: the kept elements appear in
      the order of their first occurrences in the input. */
  lemma {:induction false} DistinctFirstSeenOrder(xs: seq<string>)
    ensures FirstSeenOrdered(xs, Distinct(xs))
  {
    if |xs| > 0 {
      var p, x := xs[..|xs| - 1], xs[|xs| - 1];
      var kept := Distinct(p);
      assert xs == p + [x];
      DistinctFirstSeenOrder(p);
      FirstSeenOrderedExtend(p, x, kept);
      if x !in kept {
        DistinctElements(p);
        var r := kept + [x];
        forall i | 0 <= i < |kept|
          ensures IndexOf(xs, kept[i]) < IndexOf(xs, x)
        {
          assert forall m :: 0 <= m < |p| ==> xs[m] == p[m];
          IndexOfInPrefix(p, x, kept[i]);
        }
        assert FirstSeenOrdered(xs, r) by {
          forall i, j | 0 <= i < j < |r|
            ensures IndexOf(xs, r[i]) < IndexOf(xs, r[j])
          {
            assert r[i] == kept[i];
            if j == |kept| {
              assert r[j] == x;
            } else {
              assert r[j] == kept[j];
            }
          }
        }
      }
    }
  }

  /** A list without duplicates is its own de-duplication, so de-duplicating
      twice is de-duplicating once. */
  lemma {:induction false} DistinctOfDistinct(xs: seq<string>)
    ensures Distinct(Distinct(xs)) == Distinct(xs)
  {
    DistinctNoDuplicates(xs);
    DistinctWithoutDuplicates(Distinct(xs));
  }

  lemma {:induction false} DistinctWithoutDuplicates(xs: seq<string>)
    requires NoDuplicates(xs)
    ensures Distinct(xs) == xs
  {
    if |xs| > 0 {
      var p := xs[..|xs| - 1];
      DistinctWithoutDuplicates(p);
      assert xs[|xs| - 1] !in p;
      assert xs == p + [xs[|xs| - 1]];
    }
  }

  /** One studio name as the provider stores it: trimmed, then title-cased. */
  function NormalizeStudio(env: Collaborators, studio: string): string {
    env.titleCase(Trim(studio))
  }

  function NormalizedStudios(env: Collaborators, studios: seq<string>): (r: seq<string>)
    ensures |r| == |studios| && forall i :: 0 <= i < |r| ==> r[i] == NormalizeStudio(env, studios[i])
  {
    seq(|studios|, i requires 0 <= i < |studios| => NormalizeStudio(env, studios[i]))
  }

  /** The studio loop: normalize each studio and append it unless the list
      already holds exactly that string. */
  method DistinctStudios(env: Collaborators, studios: seq<string>) returns (newStudios: seq<string>)
    ensures newStudios == Distinct(NormalizedStudios(env, studios))
  {
    ghost var normalized := NormalizedStudios(env, studios);
    newStudios := [];
    for i := 0 to |studios|
      invariant newStudios == Distinct(normalized[..i])
    {
      var studioName := Trim(studios[i]);
      studioName := env.titleCase(studioName);

      assert normalized[..i + 1][..i] == normalized[..i];
      if studioName !in newStudios {
        newStudios := newStudios + [studioName];
      }
    }
    assert normalized[..|studios|] == normalized;
  }

  // ---------------------------------------------------------------------------
  // The record the provider returns, updated in place

  /** `Movie`: the scene record. */
  class Movie {
    var name: string
    var overview: string
    var officialRating: string
    var providerIds: map<string, string>
    var studios: seq<string>
    var genres: seq<string>
    var premiereDate: Option<Day>
    var productionYear: Option<int>
    var externalId: string

    constructor (d: MovieData)
      ensures View() == d
    {
      name, overview, officialRating := d.name, d.overview, d.officialRating;
      providerIds, studios, genres := d.providerIds, d.studios, d.genres;
      premiereDate, productionYear, externalId := d.premiereDate, d.productionYear, d.externalId;
    }

    function View(): MovieData
      reads this
    {
      MovieData(name, overview, officialRating, providerIds, studios, genres,
                premiereDate, productionYear, externalId)
    }
  }

  /** `MetadataResult<Movie>`: the scene record, whether it holds metadata, and its people. */
  class MetadataResult {
    var hasMetadata: bool
    var item: Movie
    var people: seq<Person>

    constructor (d: MetadataData)
      ensures fresh(item) && View() == d
    {
      hasMetadata := d.hasMetadata;
      item := new Movie(d.item);
      people := d.people;
    }

    function View(): MetadataData
      reads this, item
    {
      MetadataData(hasMetadata, item.View(), people)
    }
  }

  /** The key under which the scene's URL id is stored. */
  function UrlKey(env: Collaborators): string {
    env.pluginName + "URL"
  }

  /** The record after the steps that come before the actor clean-up:
      marked, rated, re-identified, name and overview decoded and trimmed,
      studios de-duplicated, production year derived. */
  function Prepared(env: Collaborators, sceneId: string, it: MovieData): MovieData {
    it.(name := Trim(env.htmlDecode(it.name)),
        overview := if it.overview == "" then it.overview else Trim(env.htmlDecode(it.overview)),
        officialRating := "XXX",
        providerIds := it.providerIds[env.pluginName := sceneId],
        studios := Distinct(NormalizedStudios(env, it.studios)),
        productionYear := if it.premiereDate.Some? then Some(YearOf(it.premiereDate.value)) else it.productionYear)
  }

  /** The record after normalization, given the record `Update` returned and
      the scene's full external id. The actor clean-up sees the record as it
      stands when it runs, after the steps before it; the genre clean-up sees
      the new name and people. */
  function Normalized(env: Collaborators, sceneId: string, m: MetadataData): MetadataData {
    var before := Prepared(env, sceneId, m.item);
    var people := if |m.people| > 0 then env.cleanupActors(MetadataData(true, before, m.people)) else m.people;
    var genres := if |before.genres| > 0 then env.cleanupGenres(before.genres, before.name, people) else before.genres;
    var ids := if before.externalId != "" then before.providerIds[UrlKey(env) := before.externalId] else before.providerIds;
    MetadataData(true, before.(genres := genres, providerIds := ids), people)
  }

  /** Lines 239-256 of `GetMetadata`: the studios de-duplicated, the
      production year taken from the premiere date. */
  method SetStudiosAndYear(env: Collaborators, item: Movie)
    modifies item
    ensures item.View() == old(item.View()).(
      studios := Distinct(NormalizedStudios(env, old(item.studios))),
      productionYear := if old(item.premiereDate).Some? then Some(YearOf(old(item.premiereDate).value)) else old(item.productionYear))
  {
    var newStudios := DistinctStudios(env, item.studios);
    item.studios := newStudios;

    if item.premiereDate.Some? {
      item.productionYear := Some(YearOf(item.premiereDate.value));
    }
  }

  /** Lines 229-256 of `GetMetadata`: the steps on the record itself. */
  method Prepare(env: Collaborators, item: Movie, sceneId: string)
    modifies item
    ensures item.View() == Prepared(env, sceneId, old(item.View()))
  {
    ghost var original := item.View();
    item.officialRating := "XXX";
    item.providerIds := item.providerIds[env.pluginName := sceneId];

    var name := Trim(env.htmlDecode(item.name));
    item.name := name;

    if item.overview != "" {
      var overview := Trim(env.htmlDecode(item.overview));
      item.overview := overview;
    }
    ghost var texts := item.View();
    assert texts == original.(name := texts.name, overview := texts.overview, officialRating := "XXX", providerIds := texts.providerIds);

    SetStudiosAndYear(env, item);
  }

  /** Lines 228-271 of `GetMetadata`: the in-place normalization of a
      record whose name is not empty. */
  method Normalize(env: Collaborators, result: MetadataResult, sceneId: string)
    modifies result, result.item
    ensures result.item == old(result.item)
    ensures result.View() == Normalized(env, sceneId, old(result.View()))
  {
    var item := result.item;
    result.hasMetadata := true;
    Prepare(env, item, sceneId);

    if |result.people| > 0 {
      result.people := env.cleanupActors(result.View());
    }

    if |item.genres| > 0 {
      item.genres := env.cleanupGenres(item.genres, item.name, result.people);
    }

    if item.externalId != "" {
      item.providerIds := item.providerIds[UrlKey(env) := item.externalId];
    }
  }

  // ---------------------------------------------------------------------------
  // The pipeline

  /** The scene's external id: from the title's own provider ids, or else
      from those of the best search result. */
  function SceneExternalId(env: Collaborators, defaultSiteName: string, info: MovieInfo): (r: Option<string>)
    ensures env.pluginName in info.providerIds ==> r == Some(info.providerIds[env.pluginName])
    ensures r.None? ==> env.pluginName !in info.providerIds
  {
    var ids :=
      if env.pluginName in info.providerIds then info.providerIds
      else
        var found := SearchResults(env, defaultSiteName, info);
        if |found| > 0 then found[0].providerIds else info.providerIds;
    if env.pluginName in ids then Some(ids[env.pluginName]) else None
  }

  /** The id, when there is one, can be decoded without `int.Parse` throwing. */
  predicate IdParses(env: Collaborators, defaultSiteName: string, info: MovieInfo) {
    var id := SceneExternalId(env, defaultSiteName, info);
    id.Some? ==> HeadTokensParse(id.value)
  }

  /** What `GetMetadata` returns. */
  function MetadataFor(env: Collaborators, defaultSiteName: string, info: MovieInfo): MetadataData
    requires IdParses(env, defaultSiteName, info)
  {
    match SceneExternalId(env, defaultSiteName, info)
    case None => NoMetadata
    case Some(id) =>
      match Decode(id)
      case None => NoMetadata
      case Some(x) =>
        if !env.hasProvider(x.network) then NoMetadata
        else
          var fetched := match env.update(x.network, x.site, x.parts)
            case UpdateThrew => NoMetadata
            case Updated(m) => m;
          if fetched.item.name == "" then fetched else Normalized(env, id, fetched)
  }

  /** `GetMetadata`. The ghost result records what `Update` was called with, if it was. */
  method GetMetadata(env: Collaborators, defaultSiteName: string, info: MovieInfo)
    returns (result: MetadataResult, ghost updateCall: Option<SceneId>)
    requires IdParses(env, defaultSiteName, info)
    ensures fresh(result) && fresh(result.item)
    ensures result.View() == MetadataFor(env, defaultSiteName, info)
    ensures updateCall.Some? <==>
      && SceneExternalId(env, defaultSiteName, info).Some?
      && Decode(SceneExternalId(env, defaultSiteName, info).value).Some?
      && env.hasProvider(Decode(SceneExternalId(env, defaultSiteName, info).value).value.network)
    ensures updateCall.Some? ==>
      var tokens := Split(SceneExternalId(env, defaultSiteName, info).value);
      && updateCall.value.parts == tokens[2..]
      && Join([tokens[0], tokens[1]] + updateCall.value.parts) == SceneExternalId(env, defaultSiteName, info).value
    ensures updateCall.Some? ==> updateCall == Decode(SceneExternalId(env, defaultSiteName, info).value)
  {
    updateCall := None;
    result := new MetadataResult(NoMetadata);

    var sceneIds := info.providerIds;
    if env.pluginName !in sceneIds {
      var searchResults := GetSearchResults(env, defaultSiteName, info);
      if |searchResults| > 0 {
        sceneIds := searchResults[0].providerIds;
      }
    }

    if env.pluginName !in sceneIds {
      return;
    }
    var externalId := sceneIds[env.pluginName];
    assert SceneExternalId(env, defaultSiteName, info) == Some(externalId);

    var curId := Split(externalId);
    if |curId| < 3 {
      return;
    }

    var network, site := ParseInt32(curId[0]), ParseInt32(curId[1]);
    assert Decode(externalId) == Some(SceneId(network, site, curId[2..]));
    if env.hasProvider(network) {
      var outcome := env.update(network, site, curId[2..]);
      updateCall := Some(SceneId(network, site, curId[2..]));
      DecodeSplitsOffHead(externalId);
      if outcome.Updated? {
        result := new MetadataResult(outcome.metadata);
      }

      if result.item.name != "" {
        Normalize(env, result, sceneIds[env.pluginName]);
      }
    }
  }
}
