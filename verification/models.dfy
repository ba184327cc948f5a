/**
 * The records exchanged by the tools and the orchestrations, as values, and
 * the shape of what the application keeps in its key-value state store.
 */
module Models {
  import opened Wrappers

  /** A keyword found by research, with the kind of article to write. */
  datatype KeywordResult = KeywordResult(
    keyword: string,
    articleType: string,
    searchVolume: string,
    competition: string)

  /** A generated article ready to publish. */
  datatype Article = Article(
    title: string,
    content: string,
    metaDescription: string,
    category: string,
    tags: seq<string>)

  /** The answer of the blog when publishing an article. */
  datatype PublishResult = PublishResult(
    success: bool,
    postUrl: Option<string>,
    error: Option<string>)

  /** The answer of the pin service for one pin. */
  datatype PinResult = PinResult(
    success: bool,
    pinId: Option<string>,
    error: Option<string>)

  /** One pin variation: a headline and the image shown with it. */
  datatype PinVariation = PinVariation(title: string, imageUrl: string)

  /** A UTC instant, to the second. */
  datatype DateTime = DateTime(year: nat, month: nat, day: nat, hour: nat, minute: nat, second: nat)

  /** The range of a .NET `DateTime` (ignoring the days of each month). */
  predicate ValidDateTime(d: DateTime) {
    1 <= d.year <= 9999 && 1 <= d.month <= 12 && 1 <= d.day <= 31 &&
    d.hour < 24 && d.minute < 60 && d.second < 60
  }

  /** The input of the daily pipeline. */
  datatype PipelineInput = PipelineInput(articleCount: int, date: DateTime)

  /**
   * The summary of one pipeline run. `errors` holds the `Error` of every
   * failed article, which the source reads with `r.Error!` and so may be null.
   */
  datatype PipelineResult = PipelineResult(
    date: DateTime,
    articlesPublished: int,
    totalPinsCreated: int,
    errors: seq<Option<string>>)

  /** The input of the per-article orchestration. */
  datatype ArticleInput = ArticleInput(keyword: string, articleType: string)

  /** The outcome of processing one article. */
  datatype ArticleResult = ArticleResult(
    success: bool,
    keyword: string,
    postUrl: Option<string>,
    pinsCreated: int,
    error: Option<string>)

  /**
   * The content of one state file. The store keeps values as they were saved
   * (serialisation is the identity); the application saves a set of
   * keywords under "published-keywords" and a list of article results under
   * "daily-results/<date>".
   */
  datatype StoredState =
    | KeywordSet(keywords: set<string>)
    | ResultList(results: seq<ArticleResult>)

  /** The message of the exception raised when a file does not hold a keyword set. */
  const KeywordSetMismatch: string := "The JSON value could not be converted to HashSet<string>."

  /**
   * Reading a state file as a `HashSet<string>`: an absent file reads as
   * null, a file of another shape makes deserialisation throw.
   */
  function AsKeywordSet(stored: Option<StoredState>): Outcome<Option<set<string>>> {
    match stored
    case None => Ok(None)
    case Some(KeywordSet(s)) => Ok(Some(s))
    case Some(ResultList(_)) => Throw(KeywordSetMismatch)
  }
}
