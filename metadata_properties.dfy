/** What `GetMetadata` promises about the record it returns. */
module MetadataProperties {
  import opened Wrappers
  import opened Text
  import opened Calendar
  import opened Entities
  import opened Numerals
  import opened ExternalId
  import opened Metadata
  import opened Search

  /** The URL key never collides with the provider's own key: it is three
      characters longer. */
  lemma UrlKeyDiffers(env: Collaborators)
    ensures UrlKey(env) != env.pluginName
  {
    assert |UrlKey(env)| == |env.pluginName| + 3;
  }

  /** The identifiers a record ends up with: the provider's key set to the
      scene id, then the URL key set to the URL id when there is one. */
  function FinalIds(env: Collaborators, sceneId: string, it: MovieData): map<string, string> {
    var ids := it.providerIds[env.pluginName := sceneId];
    if it.externalId != "" then ids[UrlKey(env) := it.externalId] else ids
  }

  lemma NormalizedIdsAreFinalIds(env: Collaborators, sceneId: string, m: MetadataData)
    ensures Normalized(env, sceneId, m).item.providerIds == FinalIds(env, sceneId, m.item)
  {
    var before := Prepared(env, sceneId, m.item);
    assert before.providerIds == m.item.providerIds[env.pluginName := sceneId];
    assert before.externalId == m.item.externalId;
  }

  /** The identifiers after normalization: the provider's own key holds the
      scene's full external id, the URL key holds the record's URL id when it
      has one, and every other identifier is kept as `Update` returned it. */
  lemma NormalizedIds(env: Collaborators, sceneId: string, m: MetadataData)
    ensures var ids := Normalized(env, sceneId, m).item.providerIds;
      && env.pluginName in ids && ids[env.pluginName] == sceneId
      && (m.item.externalId != "" ==> UrlKey(env) in ids && ids[UrlKey(env)] == m.item.externalId)
      && (m.item.externalId == "" ==>
            (UrlKey(env) in ids <==> UrlKey(env) in m.item.providerIds)
            && (UrlKey(env) in ids ==> ids[UrlKey(env)] == m.item.providerIds[UrlKey(env)]))
      && (forall k :: k != env.pluginName && k != UrlKey(env) ==>
            (k in ids <==> k in m.item.providerIds)
            && (k in ids ==> ids[k] == m.item.providerIds[k]))
  {
    NormalizedIdsAreFinalIds(env, sceneId, m);
    UrlKeyDiffers(env);
  }

  /** The record after normalization: it holds metadata and is rated "XXX";
      its name is the decoded name with no white space left at either end;
      an empty overview stays empty and any other one is decoded and trimmed
      the same way; the production year is the premiere date's year when
      there is a premiere date; the clean-ups are skipped for an empty cast or
      genre list, and otherwise the actor clean-up sees the prepared record
      and the genre clean-up the new name and cast; the premiere date and the
      URL id are left alone. */
  lemma NormalizedRecord(env: Collaborators, sceneId: string, m: MetadataData)
    ensures var r := Normalized(env, sceneId, m);
      && r.hasMetadata
      && r.item.officialRating == "XXX"
      && r.item.name == Trim(env.htmlDecode(m.item.name))
      && (r.item.name == [] || (!IsWhiteSpace(r.item.name[0]) && !IsWhiteSpace(r.item.name[|r.item.name| - 1])))
      && (m.item.overview == "" ==> r.item.overview == "")
      && (m.item.overview != "" ==> r.item.overview == Trim(env.htmlDecode(m.item.overview)))
      && (m.item.premiereDate.Some? ==> r.item.productionYear == Some(YearOf(m.item.premiereDate.value)))
      && (m.item.premiereDate.None? ==> r.item.productionYear == m.item.productionYear)
      && (m.people == [] ==> r.people == [])
      && (m.people != [] ==> r.people == env.cleanupActors(MetadataData(true, Prepared(env, sceneId, m.item), m.people)))
      && (m.item.genres == [] ==> r.item.genres == [])
      && (m.item.genres != [] ==> r.item.genres == env.cleanupGenres(m.item.genres, Trim(env.htmlDecode(m.item.name)), r.people))
      && r.item.premiereDate == m.item.premiereDate
      && r.item.externalId == m.item.externalId
  {
    TrimIsWhiteSpaceFreeInfix(env.htmlDecode(m.item.name));
  }

  /** Normalizing the decoded name again changes nothing. */
  lemma NormalizedNameIsTrimmed(env: Collaborators, sceneId: string, m: MetadataData)
    ensures var name := Normalized(env, sceneId, m).item.name;
      Trim(name) == name
  {
    TrimIdempotent(env.htmlDecode(m.item.name));
  }

  /** The studios after normalization: no studio twice, exactly the
      normalized input studios, in the order they were first seen. */
  lemma NormalizedStudioList(env: Collaborators, sceneId: string, m: MetadataData)
    ensures var studios, normalized := Normalized(env, sceneId, m).item.studios, NormalizedStudios(env, m.item.studios);
      && NoDuplicates(studios)
      && (forall s :: s in studios <==> exists i :: 0 <= i < |m.item.studios| && s == NormalizeStudio(env, m.item.studios[i]))
      && FirstSeenOrdered(normalized, studios)
      && Distinct(studios) == studios
  {
    var normalized := NormalizedStudios(env, m.item.studios);
    var studios := Distinct(normalized);
    DistinctNoDuplicates(normalized);
    DistinctElements(normalized);
    DistinctFirstSeenOrder(normalized);
    DistinctOfDistinct(normalized);
    forall s
      ensures s in studios <==> exists i :: 0 <= i < |m.item.studios| && s == NormalizeStudio(env, m.item.studios[i])
    {
      if s in studios {
        var i :| 0 <= i < |normalized| && normalized[i] == s;
        assert s == NormalizeStudio(env, m.item.studios[i]);
      }
      if exists i :: 0 <= i < |m.item.studios| && s == NormalizeStudio(env, m.item.studios[i]) {
        var i :| 0 <= i < |m.item.studios| && s == NormalizeStudio(env, m.item.studios[i]);
        assert normalized[i] == s;
      }
    }
  }

  /** Studios are told apart exactly, after trimming and title-casing: with
      the invariant culture's title-casing, which leaves an all-capitals word
      as it is, "abc films" and "ABC Films" stay two studios next to "Other". */
  lemma StudioExample(env: Collaborators)
    requires env.titleCase("abc films") == "Abc Films"
    requires env.titleCase("ABC Films") == "ABC Films"
    requires env.titleCase("Other") == "Other"
    ensures Distinct(NormalizedStudios(env, ["abc films", "ABC Films", " Other "])) == ["Abc Films", "ABC Films", "Other"]
  {
    NormalizedStudiosOfThree(env, "abc films", "ABC Films", " Other ");
    TrimExamples();
    DistinctOfThree("Abc Films", "ABC Films", "Other");
  }

  lemma NormalizedStudiosOfThree(env: Collaborators, x: string, y: string, z: string)
    ensures NormalizedStudios(env, [x, y, z]) == [NormalizeStudio(env, x), NormalizeStudio(env, y), NormalizeStudio(env, z)]
  {
    var input := [x, y, z];
    var n := NormalizedStudios(env, input);
    assert n[0] == NormalizeStudio(env, input[0]);
    assert n[1] == NormalizeStudio(env, input[1]);
    assert n[2] == NormalizeStudio(env, input[2]);
  }

  /** Three different names are kept as they are. */
  lemma DistinctOfThree(x: string, y: string, z: string)
    requires x != y && x != z && y != z
    ensures Distinct([x, y, z]) == [x, y, z]
  {
    assert NoDuplicates([x, y, z]);
    DistinctWithoutDuplicates([x, y, z]);
  }

  /** The trims in the studio example. */
  lemma TrimExamples()
    ensures Trim("abc films") == "abc films"
    ensures Trim("ABC Films") == "ABC Films"
    ensures Trim(" Other ") == "Other"
  {
    TrimLowerExample();
    TrimUpperExample();
    TrimPaddedExample();
  }

  lemma TrimLowerExample()
    ensures Trim("abc films") == "abc films"
  {
    var abc := "abc films";
    assert abc[0] == 'a' && abc[|abc| - 1] == 's';
    TrimKeeps(abc);
  }

  lemma TrimUpperExample()
    ensures Trim("ABC Films") == "ABC Films"
  {
    var upper := "ABC Films";
    assert upper[0] == 'A' && upper[|upper| - 1] == 's';
    TrimKeeps(upper);
  }

  lemma TrimPaddedExample()
    ensures Trim(" Other ") == "Other"
  {
    var other := "Other";
    assert other[0] == 'O' && other[|other| - 1] == 'r';
    TrimSpaces(other);
    assert [' '] + other + [' '] == " Other ";
  }

  /** `GetMetadata` without a usable id: no id at all, an id of fewer than
      three parts, or a network no provider is registered for, all give the
      empty record without metadata. */
  lemma NoIdNoMetadata(env: Collaborators, defaultSiteName: string, info: MovieInfo)
    requires IdParses(env, defaultSiteName, info)
    ensures var id := SceneExternalId(env, defaultSiteName, info);
      || id.None?
      || |Split(id.value)| < 3
      || !env.hasProvider(ParseInt32(Split(id.value)[0]))
      ==> MetadataFor(env, defaultSiteName, info) == NoMetadata
  {
    var id := SceneExternalId(env, defaultSiteName, info);
    if id.Some? {
      DecodeSplitsOffHead(id.value);
    }
  }

  /** `GetMetadata` once the provider is asked: a throwing `Update` gives the
      empty record without metadata; a record with an empty name is returned
      exactly as `Update` returned it, with no normalization; any other record
      is normalized under the scene's full external id. */
  lemma UpdateOutcomes(env: Collaborators, defaultSiteName: string, info: MovieInfo)
    requires IdParses(env, defaultSiteName, info)
    requires SceneExternalId(env, defaultSiteName, info).Some?
    requires Decode(SceneExternalId(env, defaultSiteName, info).value).Some?
    ensures var id := SceneExternalId(env, defaultSiteName, info).value;
      var x := Decode(id).value;
      var outcome := env.update(x.network, x.site, x.parts);
      var r := MetadataFor(env, defaultSiteName, info);
      && (env.hasProvider(x.network) && outcome.UpdateThrew? ==> r == NoMetadata)
      && (env.hasProvider(x.network) && outcome.Updated? && outcome.metadata.item.name == "" ==> r == outcome.metadata)
      && (env.hasProvider(x.network) && outcome.Updated? && outcome.metadata.item.name != "" ==>
            r == Normalized(env, id, outcome.metadata))
  {
  }

  /** Whatever happens, a returned record with a name holds metadata and
      carries the scene's full external id under the provider's key. */
  lemma NamedResultIsIdentified(env: Collaborators, defaultSiteName: string, info: MovieInfo)
    requires IdParses(env, defaultSiteName, info)
    ensures var r := MetadataFor(env, defaultSiteName, info);
      r.item.name != "" ==>
        && r.hasMetadata
        && SceneExternalId(env, defaultSiteName, info).Some?
        && env.pluginName in r.item.providerIds
        && r.item.providerIds[env.pluginName] == SceneExternalId(env, defaultSiteName, info).value
  {
    var r := MetadataFor(env, defaultSiteName, info);
    var id := SceneExternalId(env, defaultSiteName, info);
    if r.item.name != "" {
      assert id.Some?;
      var x := Decode(id.value).value;
      var outcome := env.update(x.network, x.site, x.parts);
      assert outcome.Updated?;
      NormalizedIds(env, id.value, outcome.metadata);
      NormalizedRecord(env, id.value, outcome.metadata);
    }
  }

  /** The title's own id wins: when the title already carries the provider's
      key, no search result is looked at. */
  lemma OwnIdWins(env: Collaborators, defaultSiteName: string, info: MovieInfo)
    requires env.pluginName in info.providerIds
    ensures SceneExternalId(env, defaultSiteName, info) == Some(info.providerIds[env.pluginName])
  {
  }

  /** Without an id of its own, the title takes the id of the best-ranked
      search result; there is none when the search finds nothing or that
      result carries no id under the provider's key. */
  lemma SearchedIdFallback(env: Collaborators, defaultSiteName: string, info: MovieInfo)
    requires env.pluginName !in info.providerIds
    ensures var found := SearchResults(env, defaultSiteName, info);
      SceneExternalId(env, defaultSiteName, info)
        == if |found| > 0 && env.pluginName in found[0].providerIds then Some(found[0].providerIds[env.pluginName]) else None
  {
  }
}
