/**
 * The record shapes of types.ts. A TypeScript `T | null` field is an `Option<T>`;
 * JSON keys such as `title_en` become camel-case field names (`titleEn`).
 * JSON numbers are modelled as integers.
 */
module Types {
  import opened Wrappers

  /** One season: its number, its episode count and its premiere date. */
  datatype Season = Season(season: int, episodes: int, airDate: Option<string>)

  /** One cast entry: the actor's name and the character played. */
  datatype CastMember = CastMember(name: string, character: string)

  /** A recommended series and the reason it is recommended. */
  datatype SimilarSeries = SimilarSeries(title: string, reason: string)

  /** What the actor lookup returns. */
  datatype ActorInfo = ActorInfo(photoUrl: Option<string>, otherSeries: Option<seq<string>>)

  /** What the series lookup returns. */
  datatype SeriesInfo = SeriesInfo(
    titleEn: Option<string>,
    titleEs: Option<string>,
    titleMx: Option<string>,
    description: Option<string>,
    seasons: seq<Season>,
    originalAirDate: Option<string>,
    originalPlatform: Option<string>,
    currentPlatform: Option<string>,
    isAiring: Option<bool>,
    posterUrl: Option<string>,
    imdbRating: Option<string>,
    cast: Option<seq<CastMember>>,
    similarSeries: Option<seq<SimilarSeries>>)

  /** The web part of a grounding citation. */
  datatype Web = Web(uri: string, title: string)

  /** One grounding citation attached to a search-grounded answer. */
  datatype GroundingChunk = GroundingChunk(web: Web)
}
