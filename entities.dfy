/** The records the provider reads and writes, and the collaborators whose
    code is not part of this model. */
module Entities {
  import opened Wrappers
  import opened Calendar

  /** What the host knows of the title being identified (`MovieInfo`). */
  datatype MovieInfo = MovieInfo(
    name: string,
    premiereDate: Option<Day>,
    providerIds: map<string, string>)

  /** One candidate scene reported by a provider's `Search`
      (`RemoteSearchResult`); `imageUrl` stands for the fields the core never touches. */
  datatype SearchResult = SearchResult(
    providerIds: map<string, string>,
    name: string,
    premiereDate: Option<Day>,
    indexNumber: Option<int>,
    productionYear: Option<int>,
    imageUrl: string)

  /** A site found in a title: the network number that selects the provider,
      the site number within it, and the site's name. */
  datatype SiteMatch = SiteMatch(network: int, site: int, name: string)

  datatype Person = Person(name: string, role: string)

  /** The scene record (`Movie`) as a value. A C# `null` string is the empty string. */
  datatype MovieData = MovieData(
    name: string,
    overview: string,
    officialRating: string,
    providerIds: map<string, string>,
    studios: seq<string>,
    genres: seq<string>,
    premiereDate: Option<Day>,
    productionYear: Option<int>,
    externalId: string)

  /** `MetadataResult<Movie>` as a value. */
  datatype MetadataData = MetadataData(hasMetadata: bool, item: MovieData, people: seq<Person>)

  /** What `new Movie()` holds. */
  const EmptyMovie: MovieData := MovieData("", "", "", map[], [], [], None, None, "")

  /** What `GetMetadata` starts from and returns when it finds nothing. */
  const NoMetadata: MetadataData := MetadataData(false, EmptyMovie, [])

  /** A provider call either throws or returns. */
  datatype SearchOutcome = SearchThrew | Found(results: seq<SearchResult>)
  datatype UpdateOutcome = UpdateThrew | Updated(metadata: MetadataData)

  /** Everything the provider calls but whose code is not modelled: the
      plugin's name, the title helpers over the site table, the provider
      registry and the providers' `Search` and `Update`, the edit distance,
      HTML decoding, title casing, and the actor and genre clean-ups. Every
      result of the model holds for every choice of these. */
  datatype Collaborators = Collaborators(
    pluginName: string,
    replaceAbbreviation: string -> string,
    siteFromTitle: string -> Option<SiteMatch>,
    siteNameFromTitle: string -> string,
    clearTitle: (string, string) -> string,
    dateFromTitle: string -> (string, Option<Day>),
    hasProvider: int -> bool,
    search: (int, int, string, Option<Day>) -> SearchOutcome,
    update: (int, int, seq<string>) -> UpdateOutcome,
    levenshtein: (string, string) -> int,
    htmlDecode: string -> string,
    titleCase: string -> string,
    cleanupActors: MetadataData -> seq<Person>,
    cleanupGenres: (seq<string>, string, seq<Person>) -> seq<string>)
}
