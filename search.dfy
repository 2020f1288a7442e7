/** `Provider.GetSearchResults`: from a raw title to the site, the search
    title and the search date, then the provider's candidates, cleaned up and
    ranked best first. */
module Search {
  import opened Wrappers
  import opened Text
  import opened Calendar
  import opened Ranking
  import opened Entities

  /** A resolved search: the provider's network number, the site within it,
      the site's name, the title and date to search for, and the date as text. */
  datatype Query = Query(
    network: int,
    site: int,
    siteName: string,
    searchTitle: string,
    searchDate: Option<Day>,
    searchDateText: string)

  // ---------------------------------------------------------------------------
  // Title resolution

  /** The title the single retry looks the site up in: the configured default
      site name in front of the original title, or else a site name guessed
      from the title. */
  function RetryTitle(env: Collaborators, defaultSiteName: string, name: string): string {
    if defaultSiteName != "" then defaultSiteName + " " + name else env.siteNameFromTitle(name)
  }

  /** The retry only happens with a non-empty title that is not the original
      one up to case. */
  predicate RetryAllowed(newTitle: string, name: string) {
    newTitle != "" && !EqualsOrdinalIgnoreCase(newTitle, name)
  }

  /** The title (with abbreviations expanded) and the site found in it, after
      at most one retry; `None` when no site is found. */
  function LocateSite(env: Collaborators, defaultSiteName: string, name: string): Option<(string, SiteMatch)> {
    var title := env.replaceAbbreviation(name);
    match env.siteFromTitle(title)
    case Some(site) => Some((title, site))
    case None =>
      var newTitle := RetryTitle(env, defaultSiteName, name);
      if !RetryAllowed(newTitle, name) then None
      else
        var retitled := env.replaceAbbreviation(newTitle);
        match env.siteFromTitle(retitled)
        case Some(site) => Some((retitled, site))
        case None => None
  }

  /** The date as the provider logs and tests it: empty when there is none. */
  function DateText(date: Option<Day>): string {
    match date
    case Some(d) => FormatDate(d)
    case None => ""
  }

  /** The whole resolution: site, cleared title, date from the title or else
      from the premiere-date hint; `None` when the site is unknown or nothing
      is left of the title. */
  function ResolveQuery(env: Collaborators, defaultSiteName: string, info: MovieInfo): Option<Query> {
    match LocateSite(env, defaultSiteName, info.name)
    case None => None
    case Some(located) =>
      var site := located.1;
      var split := env.dateFromTitle(env.clearTitle(located.0, site.name));
      var searchTitle := split.0;
      var date := if split.1.Some? then split.1 else info.premiereDate;
      if searchTitle == "" then None
      else Some(Query(site.network, site.site, site.name, searchTitle, date, DateText(date)))
  }

  // ---------------------------------------------------------------------------
  // Candidate clean-up and ranking

  /** The clean-up of one candidate: its name trimmed, and its production
      year taken from its premiere date when it has one. */
  function CleanUp(c: SearchResult): (r: SearchResult)
    ensures Trim(r.name) == r.name
  {
    TrimIdempotent(c.name);
    c.(name := Trim(c.name),
       productionYear := if c.premiereDate.Some? then Some(YearOf(c.premiereDate.value)) else c.productionYear)
  }

  function CleanedUp(cs: seq<SearchResult>): (r: seq<SearchResult>)
    ensures |r| == |cs| && forall i :: 0 <= i < |cs| ==> r[i] == CleanUp(cs[i])
  {
    seq(|cs|, i requires 0 <= i < |cs| => CleanUp(cs[i]))
  }

  predicate AnyIndexed(cs: seq<SearchResult>) {
    exists i :: 0 <= i < |cs| && cs[i].indexNumber.Some?
  }

  /** When the date tier decides: there is a search date, every candidate
      has a premiere date, and some candidate's date is not the search date. */
  predicate DateTierApplies(cs: seq<SearchResult>, q: Query) {
    && q.searchDateText != ""
    && (forall i :: 0 <= i < |cs| ==> cs[i].premiereDate.Some?)
    && (exists i :: 0 <= i < |cs| && cs[i].premiereDate != q.searchDate)
  }

  /** Index tier: candidates with an index number first, higher numbers first. */
  function IndexKey(c: SearchResult): Key {
    IndexKeyOf(c.indexNumber)
  }

  /** The index-tier key of an index number, or of its absence. */
  function IndexKeyOf(n: Option<int>): Key {
    match n
    case Some(v) => Key(1, v)
    case None => Key(0, 0)
  }

  /** Days between a candidate's premiere date and the search date. */
  function DayDistance(q: Query, c: SearchResult): nat {
    if c.premiereDate.Some? && q.searchDate.Some? then
      var d := c.premiereDate.value - q.searchDate.value;
      if d < 0 then -d else d
    else 0
  }

  /** Date tier: closest premiere date first. */
  function DateKey(q: Query): SearchResult -> Key {
    c => Key(0, -(DayDistance(q, c) as int))
  }

  /** `100 - LevenshteinDistance.Calculate(searchTitle, name, OrdinalIgnoreCase)`. */
  function Similarity(env: Collaborators, q: Query, c: SearchResult): int {
    100 - env.levenshtein(q.searchTitle, c.name)
  }

  /** Text tier: most similar name first. */
  function TextKey(env: Collaborators, q: Query): SearchResult -> Key {
    c => Key(0, Similarity(env, q, c))
  }

  /** The three-tier ranking: the first tier that applies orders everything.
      Every tier reorders and never adds, drops or changes a candidate. */
  function Rank(env: Collaborators, q: Query, cs: seq<SearchResult>): (r: seq<SearchResult>)
    ensures |r| == |cs| && multiset(r) == multiset(cs)
  {
    if AnyIndexed(cs) then SortDescending(cs, IndexKey)
    else if DateTierApplies(cs, q) then SortDescending(cs, DateKey(q))
    else SortDescending(cs, TextKey(env, q))
  }

  /** What `GetSearchResults` returns. */
  function SearchResults(env: Collaborators, defaultSiteName: string, info: MovieInfo): seq<SearchResult> {
    match ResolveQuery(env, defaultSiteName, info)
    case None => []
    case Some(q) =>
      if !env.hasProvider(q.network) then []
      else
        match env.search(q.network, q.site, q.searchTitle, q.searchDate)
        case SearchThrew => []
        case Found(found) => Rank(env, q, CleanedUp(found))
  }

  // ---------------------------------------------------------------------------
  // The pipeline, step by step

  /** The `foreach` over the provider's candidates that trims each name and
      sets each production year. */
  method CleanUpAll(found: seq<SearchResult>) returns (result: seq<SearchResult>)
    ensures result == CleanedUp(found)
  {
    result := found;
    var i := 0;
    while i < |result|
      invariant 0 <= i <= |result| == |found|
      invariant forall k :: 0 <= k < i ==> result[k] == CleanUp(found[k])
      invariant forall k :: i <= k < |result| ==> result[k] == found[k]
    {
      result := result[i := CleanUp(result[i])];
      i := i + 1;
    }
  }

  /** Lines 61-87 of `GetSearchResults`: the site lookup with its single retry. */
  method FindSite(env: Collaborators, defaultSiteName: string, name: string)
    returns (located: Option<(string, SiteMatch)>)
    ensures located == LocateSite(env, defaultSiteName, name)
  {
    var title := env.replaceAbbreviation(name);
    var site := env.siteFromTitle(title);
    if site.None? {
      var newTitle: string;
      if defaultSiteName != "" {
        newTitle := defaultSiteName + " " + name;
      } else {
        newTitle := env.siteNameFromTitle(name);
      }

      if newTitle != "" && !EqualsOrdinalIgnoreCase(newTitle, name) {
        title := env.replaceAbbreviation(newTitle);
        site := env.siteFromTitle(title);
      }

      if site.None? {
        return None;
      }
    }
    located := Some((title, site.value));
  }

  /** Lines 61-121 of `GetSearchResults`: the title, the site, the search
      title and the search date, each reassigned step by step. */
  method Resolve(env: Collaborators, defaultSiteName: string, info: MovieInfo)
    returns (query: Option<Query>)
    ensures query == ResolveQuery(env, defaultSiteName, info)
  {
    var located := FindSite(env, defaultSiteName, info.name);
    if located.None? {
      return None;
    }
    var title, site := located.value.0, located.value.1;

    var searchTitle := env.clearTitle(title, site.name);
    var searchDate := "";
    var titleAfterDate := env.dateFromTitle(searchTitle);
    var network, siteNumber := site.network, site.site;
    searchTitle := titleAfterDate.0;
    var searchDateObj := titleAfterDate.1;
    if searchDateObj.Some? {
      searchDate := FormatDate(searchDateObj.value);
    } else if info.premiereDate.Some? {
      searchDateObj := info.premiereDate;
      searchDate := FormatDate(info.premiereDate.value);
    }

    if searchTitle == "" {
      return None;
    }
    query := Some(Query(network, siteNumber, site.name, searchTitle, searchDateObj, searchDate));
  }

  /** `GetSearchResults`: resolve, dispatch to the site's provider, and clean
      up and rank what it finds; an empty list whenever a step fails. */
  method GetSearchResults(env: Collaborators, defaultSiteName: string, info: MovieInfo)
    returns (result: seq<SearchResult>)
    ensures result == SearchResults(env, defaultSiteName, info)
  {
    result := [];
    var query := Resolve(env, defaultSiteName, info);
    if query.None? {
      return;
    }
    var q := query.value;

    if env.hasProvider(q.network) {
      var outcome := env.search(q.network, q.site, q.searchTitle, q.searchDate);
      if outcome.Found? {
        result := outcome.results;
      }

      if |result| > 0 {
        result := CleanUpAll(result);
        result := Rank(env, q, result);
      } else if outcome.Found? {
        assert CleanedUp(outcome.results) == [];
        assert Rank(env, q, []) == [];
      }
    }
  }
}

/** What the search pipeline promises, stated over its specification. */
module SearchProperties {
  import opened Wrappers
  import opened Text
  import opened Calendar
  import opened Ranking
  import opened Entities
  import opened Search

  /** A site is found at the first lookup, or at the single retry when that
      retry is allowed; resolution fails exactly when no site is found or
      nothing is left of the cleared title, and then the result list is empty. */
  lemma ResolutionFailure(env: Collaborators, defaultSiteName: string, info: MovieInfo)
    ensures var retry := RetryTitle(env, defaultSiteName, info.name);
      LocateSite(env, defaultSiteName, info.name).None? <==>
        && env.siteFromTitle(env.replaceAbbreviation(info.name)).None?
        && (!RetryAllowed(retry, info.name) || env.siteFromTitle(env.replaceAbbreviation(retry)).None?)
    ensures var located := LocateSite(env, defaultSiteName, info.name);
      ResolveQuery(env, defaultSiteName, info).None? <==>
        || located.None?
        || env.dateFromTitle(env.clearTitle(located.value.0, located.value.1.name)).0 == ""
    ensures ResolveQuery(env, defaultSiteName, info).None? ==> SearchResults(env, defaultSiteName, info) == []
  {
  }

  /** With a default site name configured the retry always happens: the
      retry title is longer than the original, so it never equals it up to case. */
  lemma DefaultSiteNameAlwaysRetried(env: Collaborators, defaultSiteName: string, name: string)
    requires defaultSiteName != ""
    ensures RetryAllowed(RetryTitle(env, defaultSiteName, name), name)
  {
    DifferentLengthsDiffer(RetryTitle(env, defaultSiteName, name), name);
  }

  /** A resolved query has a non-empty search title, searches the site found
      in the title, takes its date from the title when the title has one and
      from the premiere-date hint otherwise, and has a date text exactly when
      it has a date. */
  lemma ResolvedQueryFields(env: Collaborators, defaultSiteName: string, info: MovieInfo)
    requires ResolveQuery(env, defaultSiteName, info).Some?
    ensures LocateSite(env, defaultSiteName, info.name).Some?
    ensures var q, located := ResolveQuery(env, defaultSiteName, info).value, LocateSite(env, defaultSiteName, info.name).value;
      var split := env.dateFromTitle(env.clearTitle(located.0, located.1.name));
      && q.searchTitle != ""
      && q.searchTitle == split.0
      && q.network == located.1.network && q.site == located.1.site
      && q.searchDate == (if split.1.Some? then split.1 else info.premiereDate)
      && (q.searchDateText != "" <==> q.searchDate.Some?)
  {
  }

  /** Clean-up changes only a candidate's name and production year: the name
      is trimmed, the year is the premiere date's year when there is a premiere
      date. Cleaning up twice is cleaning up once, so a candidate object that
      a provider lists twice is left as if listed once. */
  lemma CleanUpChangesNameAndYearOnly(c: SearchResult)
    ensures CleanUp(c).name == Trim(c.name)
    ensures CleanUp(c).productionYear
         == if c.premiereDate.Some? then Some(YearOf(c.premiereDate.value)) else c.productionYear
    ensures CleanUp(c).(name := c.name, productionYear := c.productionYear) == c
    ensures CleanUp(CleanUp(c)) == CleanUp(c)
  {
    TrimIdempotent(c.name);
  }

  /** The candidates whose index number is `n` (`None`: those without one), in order. */
  function WithIndexNumber(cs: seq<SearchResult>, n: Option<int>): seq<SearchResult> {
    if |cs| == 0 then []
    else (if cs[0].indexNumber == n then [cs[0]] else []) + WithIndexNumber(cs[1..], n)
  }

  /** Two candidates share an index key exactly when they share an index number. */
  lemma {:induction false} WithKeyIsWithIndexNumber(cs: seq<SearchResult>, n: Option<int>)
    ensures WithKey(cs, IndexKey, IndexKeyOf(n)) == WithIndexNumber(cs, n)
  {
    if |cs| > 0 {
      WithKeyIsWithIndexNumber(cs[1..], n);
    }
  }

  /** Index tier: when some candidate has an index number, those with one
      come before those without, in non-increasing index order; candidates
      with equal index numbers, and those without, keep their input order. */
  lemma IndexTier(env: Collaborators, q: Query, cs: seq<SearchResult>)
    requires AnyIndexed(cs)
    ensures var r := Rank(env, q, cs);
      forall i, j :: 0 <= i < j < |r| && r[j].indexNumber.Some? ==>
        r[i].indexNumber.Some? && r[i].indexNumber.value >= r[j].indexNumber.value
    ensures forall n :: WithIndexNumber(Rank(env, q, cs), n) == WithIndexNumber(cs, n)
  {
    var r := Rank(env, q, cs);
    SortIsDescending(cs, IndexKey);
    forall i, j | 0 <= i < j < |r| && r[j].indexNumber.Some?
      ensures r[i].indexNumber.Some? && r[i].indexNumber.value >= r[j].indexNumber.value
    {
      assert !Above(IndexKey(r[j]), IndexKey(r[i]));
    }
    forall n ensures WithIndexNumber(r, n) == WithIndexNumber(cs, n) {
      SortStable(cs, IndexKey, IndexKeyOf(n));
      WithKeyIsWithIndexNumber(r, n);
      WithKeyIsWithIndexNumber(cs, n);
    }
  }

  /** A query as resolution builds it: a date text exactly when a date. */
  predicate WellFormedQuery(q: Query) {
    q.searchDateText != "" <==> q.searchDate.Some?
  }

  /** Date tier: with no index numbers, a search date, a premiere date on
      every candidate and at least one of them different from the search date,
      candidates come in non-decreasing distance in days from the search date,
      and equally distant candidates keep their input order. */
  lemma DateTier(env: Collaborators, q: Query, cs: seq<SearchResult>)
    requires WellFormedQuery(q)
    requires !AnyIndexed(cs) && DateTierApplies(cs, q)
    ensures q.searchDate.Some?
    ensures var r := Rank(env, q, cs);
      && (forall i :: 0 <= i < |r| ==>
            r[i].premiereDate.Some?
            && DayDistance(q, r[i]) == if r[i].premiereDate.value >= q.searchDate.value
                                       then r[i].premiereDate.value - q.searchDate.value
                                       else q.searchDate.value - r[i].premiereDate.value)
      && (forall i, j :: 0 <= i < j < |r| ==> DayDistance(q, r[i]) <= DayDistance(q, r[j]))
    ensures forall k :: WithKey(Rank(env, q, cs), DateKey(q), k) == WithKey(cs, DateKey(q), k)
  {
    var r := Rank(env, q, cs);
    SortIsDescending(cs, DateKey(q));
    forall i | 0 <= i < |r| ensures r[i].premiereDate.Some? {
      assert r[i] in multiset(cs);
    }
    forall i, j | 0 <= i < j < |r| ensures DayDistance(q, r[i]) <= DayDistance(q, r[j]) {
      assert !Above(DateKey(q)(r[j]), DateKey(q)(r[i]));
    }
    forall k ensures WithKey(r, DateKey(q), k) == WithKey(cs, DateKey(q), k) {
      SortStable(cs, DateKey(q), k);
    }
  }

  /** Text tier: otherwise candidates come in non-increasing `100 - distance`
      between the search title and their name, equal scores in input order. */
  lemma TextTier(env: Collaborators, q: Query, cs: seq<SearchResult>)
    requires !AnyIndexed(cs) && !DateTierApplies(cs, q)
    ensures var r := Rank(env, q, cs);
      forall i, j :: 0 <= i < j < |r| ==> Similarity(env, q, r[i]) >= Similarity(env, q, r[j])
    ensures forall score ::
      WithKey(Rank(env, q, cs), TextKey(env, q), Key(0, score)) == WithKey(cs, TextKey(env, q), Key(0, score))
  {
    var r := Rank(env, q, cs);
    SortIsDescending(cs, TextKey(env, q));
    forall i, j | 0 <= i < j < |r| ensures Similarity(env, q, r[i]) >= Similarity(env, q, r[j]) {
      assert !Above(TextKey(env, q)(r[j]), TextKey(env, q)(r[i]));
    }
    forall score ensures WithKey(r, TextKey(env, q), Key(0, score)) == WithKey(cs, TextKey(env, q), Key(0, score)) {
      SortStable(cs, TextKey(env, q), Key(0, score));
    }
  }

  /** Once a provider is found for the resolved site: nothing when its search
      throws, otherwise a permutation of its candidates, each cleaned up. */
  lemma SearchOutcomes(env: Collaborators, defaultSiteName: string, info: MovieInfo)
    requires ResolveQuery(env, defaultSiteName, info).Some?
    ensures var q := ResolveQuery(env, defaultSiteName, info).value;
      var outcome := env.search(q.network, q.site, q.searchTitle, q.searchDate);
      var r := SearchResults(env, defaultSiteName, info);
      && (!env.hasProvider(q.network) ==> r == [])
      && (env.hasProvider(q.network) && outcome.SearchThrew? ==> r == [])
      && (env.hasProvider(q.network) && outcome.Found? ==>
            multiset(r) == multiset(CleanedUp(outcome.results)))
  {
  }

  /** Every ranked candidate is the clean-up of one the provider found. */
  lemma RankedAreCleanedUp(env: Collaborators, q: Query, found: seq<SearchResult>)
    ensures var r := Rank(env, q, CleanedUp(found));
      forall i :: 0 <= i < |r| ==>
        && r[i].name == Trim(r[i].name)
        && (r[i].premiereDate.Some? ==> r[i].productionYear == Some(YearOf(r[i].premiereDate.value)))
  {
    var cleaned := CleanedUp(found);
    var r := Rank(env, q, cleaned);
    forall i | 0 <= i < |r|
      ensures r[i].name == Trim(r[i].name)
      ensures r[i].premiereDate.Some? ==> r[i].productionYear == Some(YearOf(r[i].premiereDate.value))
    {
      assert r[i] in multiset(cleaned);
      var k :| 0 <= k < |cleaned| && cleaned[k] == r[i];
      CleanUpChangesNameAndYearOnly(found[k]);
    }
  }

  /** Every returned candidate has a trimmed name and, when it has a premiere
      date, that date's year as production year. */
  lemma SearchResultsCleanedUp(env: Collaborators, defaultSiteName: string, info: MovieInfo)
    ensures var r := SearchResults(env, defaultSiteName, info);
      forall i :: 0 <= i < |r| ==>
        && r[i].name == Trim(r[i].name)
        && (r[i].premiereDate.Some? ==> r[i].productionYear == Some(YearOf(r[i].premiereDate.value)))
  {
    match ResolveQuery(env, defaultSiteName, info)
    case None =>
    case Some(q) =>
      if env.hasProvider(q.network) {
        match env.search(q.network, q.site, q.searchTitle, q.searchDate)
        case SearchThrew =>
        case Found(found) => RankedAreCleanedUp(env, q, found);
      }
  }

  /** A candidate with just the fields the ranking looks at. */
  function Candidate(name: string, indexNumber: Option<int>, premiereDate: Option<Day>): SearchResult {
    SearchResult(map[], name, premiereDate, indexNumber, None, "")
  }

  /** Which sort `Rank` applies, tier by tier. */
  lemma IndexTierChosen(env: Collaborators, q: Query, cs: seq<SearchResult>)
    requires AnyIndexed(cs)
    ensures Rank(env, q, cs) == SortDescending(cs, IndexKey)
  {
  }

  lemma DateTierChosen(env: Collaborators, q: Query, cs: seq<SearchResult>)
    requires !AnyIndexed(cs) && DateTierApplies(cs, q)
    ensures Rank(env, q, cs) == SortDescending(cs, DateKey(q))
  {
  }

  lemma TextTierChosen(env: Collaborators, q: Query, cs: seq<SearchResult>)
    requires !AnyIndexed(cs) && !DateTierApplies(cs, q)
    ensures Rank(env, q, cs) == SortDescending(cs, TextKey(env, q))
  {
  }

  /** The index-tier sort of three candidates: A (index 1), B (index 3),
      C (none) come out B, A, C. */
  lemma IndexSortExample(a: SearchResult, b: SearchResult, c: SearchResult)
    requires a.indexNumber == Some(1) && b.indexNumber == Some(3) && c.indexNumber == None
    ensures SortDescending([a, b, c], IndexKey) == [b, a, c]
  {
    assert IndexKey(a) == Key(1, 1) && IndexKey(b) == Key(1, 3) && IndexKey(c) == Key(0, 0);
    SortTwo(b, c, IndexKey);
    var sorted := SortDescending([b, c], IndexKey);
    assert sorted == [b] + [c];
    InsertStep(a, c, [], IndexKey);
    var inserted := Insert(a, [c], IndexKey);
    assert [c] + [] == [c];
    assert inserted == [a, c];
    InsertStep(a, b, [c], IndexKey);
    assert Insert(a, sorted, IndexKey) == [b] + inserted;
    assert [a, b, c] == [a] + [b, c];
    SortStep(a, [b, c], IndexKey);
  }

  /** Index tier on three candidates: A (index 1), B (index 3), C (none) rank
      B, A, C, whatever the query. */
  lemma IndexTierExample(env: Collaborators, q: Query)
    ensures var a, b, c := Candidate("A", Some(1), None), Candidate("B", Some(3), None), Candidate("C", None, None);
      Rank(env, q, [a, b, c]) == [b, a, c]
  {
    var a, b, c := Candidate("A", Some(1), None), Candidate("B", Some(3), None), Candidate("C", None, None);
    assert AnyIndexed([a, b, c]) by { assert [a, b, c][0].indexNumber.Some?; }
    IndexTierChosen(env, q, [a, b, c]);
    IndexSortExample(a, b, c);
  }

  /** Date tier on two candidates five days and one day after the search
      date: the closer one comes first. */
  lemma DateTierExample(env: Collaborators, q: Query, s: Day)
    requires s + 5 <= MaxDay
    requires q.searchDate == Some(s) && q.searchDateText != ""
    ensures var far, near := Candidate("far", None, Some(s + 5)), Candidate("near", None, Some(s + 1));
      Rank(env, q, [far, near]) == [near, far]
  {
    var far, near := Candidate("far", None, Some(s + 5)), Candidate("near", None, Some(s + 1));
    var cs := [far, near];
    var key := DateKey(q);
    assert !AnyIndexed(cs);
    assert DateTierApplies(cs, q) by { assert cs[0].premiereDate != q.searchDate; }
    DateTierChosen(env, q, cs);
    SortTwo(far, near, key);
    assert key(near) == Key(0, -1) && key(far) == Key(0, -5);
  }

  /** Text tier: against "Great Scene", an exact name (distance 0) outranks
      "Grate Scene" (distance 2) even when listed second. */
  lemma TextTierExample(env: Collaborators, q: Query)
    requires q.searchTitle == "Great Scene" && q.searchDate == None && q.searchDateText == ""
    requires env.levenshtein("Great Scene", "Great Scene") == 0
    requires env.levenshtein("Great Scene", "Grate Scene") == 2
    ensures var typo, exact := Candidate("Grate Scene", None, None), Candidate("Great Scene", None, None);
      Rank(env, q, [typo, exact]) == [exact, typo]
  {
    var typo, exact := Candidate("Grate Scene", None, None), Candidate("Great Scene", None, None);
    var cs := [typo, exact];
    var key := TextKey(env, q);
    assert !AnyIndexed(cs);
    assert !DateTierApplies(cs, q);
    TextTierChosen(env, q, cs);
    SortTwo(typo, exact, key);
    assert key(exact) == Key(0, 100) && key(typo) == Key(0, 98);
  }
}
