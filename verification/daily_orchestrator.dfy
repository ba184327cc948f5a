/**
 * The daily pipeline: the triggers that start it, the main orchestration
 * that writes one article per keyword and sums up the day, the per-article
 * orchestration (generate, images, publish, pins) and the activities built
 * from the tools.
 *
 * The durable engine (replay, checkpoints, retries, instance status) is not
 * part of this model. An activity called from an orchestration is the
 * outcome it finally produces, after whatever retries the engine made:
 * `Ok(value)` or `Throw(message)`. Each orchestration also returns the
 * list of the calls it made, in order, so that the order of the steps and
 * the inputs handed on are stated about its result.
 */
module DailyOrchestrator {
  import opened Wrappers
  import opened Models
  import opened Text
  import opened StateManager
  import ResearchTools
  import ContentTools
  import PinterestTools
  import ImageTools

  // ---------------------------------------------------------------------------
  // Instance ids and triggers
  // ---------------------------------------------------------------------------

  /** The two bounds of the padded fields, unfolded once here rather than inside each proof. */
  lemma Pow10Values()
    ensures Pow10(2) == 100 && Pow10(4) == 10000
  {
    assert Pow10(1) == 10;
    assert Pow10(3) == 1000;
  }

  /** `yyyy-MM-dd`: for a valid instant the three fields read back as its year, month and day. */
  function FormatDate(d: DateTime): (s: string)
    ensures |s| == 10 && s[4] == '-' && s[7] == '-'
    ensures AllDigits(s[..4]) && AllDigits(s[5..7]) && AllDigits(s[8..])
    ensures ValidDateTime(d) ==>
      ParseDecimal(s[..4]) == d.year && ParseDecimal(s[5..7]) == d.month && ParseDecimal(s[8..]) == d.day
  {
    var y, m, dd := PaddedDecimal(d.year, 4), PaddedDecimal(d.month, 2), PaddedDecimal(d.day, 2);
    var s := y + "-" + m + "-" + dd;
    assert s == (y + "-") + (m + "-") + dd;
    assert s[..4] == y && s[5..7] == m && s[8..] == dd;
    assert ValidDateTime(d) ==> ParseDecimal(y) == d.year && ParseDecimal(m) == d.month && ParseDecimal(dd) == d.day by {
      if ValidDateTime(d) {
        Pow10Values();
        PaddedDecimalRoundTrip(d.year, 4);
        PaddedDecimalRoundTrip(d.month, 2);
        PaddedDecimalRoundTrip(d.day, 2);
      }
    }
    s
  }

  /** `HHmmss`: for a valid instant the three fields read back as its hour, minute and second. */
  function FormatTime(d: DateTime): (s: string)
    ensures |s| == 6 && AllDigits(s)
    ensures AllDigits(s[..2]) && AllDigits(s[2..4]) && AllDigits(s[4..])
    ensures ValidDateTime(d) ==>
      ParseDecimal(s[..2]) == d.hour && ParseDecimal(s[2..4]) == d.minute && ParseDecimal(s[4..]) == d.second
  {
    var h, m, sec := PaddedDecimal(d.hour, 2), PaddedDecimal(d.minute, 2), PaddedDecimal(d.second, 2);
    var s := h + m + sec;
    assert s[..2] == h && s[2..4] == m && s[4..] == sec;
    assert ValidDateTime(d) ==> ParseDecimal(h) == d.hour && ParseDecimal(m) == d.minute && ParseDecimal(sec) == d.second by {
      if ValidDateTime(d) {
        Pow10Values();
        PaddedDecimalRoundTrip(d.hour, 2);
        PaddedDecimalRoundTrip(d.minute, 2);
        PaddedDecimalRoundTrip(d.second, 2);
      }
    }
    s
  }

  /** The id of the day's scheduled run: "daily-" followed by the date, which can be read back from it. */
  function DailyInstanceId(now: DateTime): (id: string)
    ensures |id| == 16 && id[..6] == "daily-" && id[6..] == FormatDate(now)
  {
    var id := "daily-" + FormatDate(now);
    assert id[6..] == FormatDate(now);
    id
  }

  /**
   * The id of a manual run: "manual-", the date, '-' and the time, both of
   * which can be read back from it.
   */
  function ManualInstanceId(now: DateTime): (id: string)
    ensures |id| == 24 && id[..7] == "manual-" && id[7..17] == FormatDate(now) && id[17] == '-'
    ensures id[18..] == FormatTime(now)
  {
    var head := "manual-" + FormatDate(now);
    assert |head| == 17 && head[..7] == "manual-" && head[7..] == FormatDate(now);
    var id := head + ("-" + FormatTime(now));
    assert id[..17] == head && id[17..] == "-" + FormatTime(now);
    assert id == "manual-" + FormatDate(now) + "-" + FormatTime(now);
    assert id[7..17] == head[7..];
    id
  }

  /** Two valid instants have the same date text exactly when they fall on the same day. */
  lemma FormatDateInjective(a: DateTime, b: DateTime)
    requires ValidDateTime(a) && ValidDateTime(b)
    ensures FormatDate(a) == FormatDate(b) <==> (a.year, a.month, a.day) == (b.year, b.month, b.day)
  {
    if (a.year, a.month, a.day) == (b.year, b.month, b.day) {
      assert PaddedDecimal(a.year, 4) == PaddedDecimal(b.year, 4);
      assert PaddedDecimal(a.month, 2) == PaddedDecimal(b.month, 2);
      assert PaddedDecimal(a.day, 2) == PaddedDecimal(b.day, 2);
    }
  }

  /** Two valid instants have the same time text exactly when they fall on the same second of the day. */
  lemma FormatTimeInjective(a: DateTime, b: DateTime)
    requires ValidDateTime(a) && ValidDateTime(b)
    ensures FormatTime(a) == FormatTime(b) <==> (a.hour, a.minute, a.second) == (b.hour, b.minute, b.second)
  {
    if (a.hour, a.minute, a.second) == (b.hour, b.minute, b.second) {
      assert PaddedDecimal(a.hour, 2) == PaddedDecimal(b.hour, 2);
      assert PaddedDecimal(a.minute, 2) == PaddedDecimal(b.minute, 2);
      assert PaddedDecimal(a.second, 2) == PaddedDecimal(b.second, 2);
    }
  }

  /** Two manual runs get the same id exactly when they are started in the same second. */
  lemma ManualInstanceIdPerSecond(a: DateTime, b: DateTime)
    requires ValidDateTime(a) && ValidDateTime(b)
    ensures ManualInstanceId(a) == ManualInstanceId(b) <==>
      (a.year, a.month, a.day, a.hour, a.minute, a.second) == (b.year, b.month, b.day, b.hour, b.minute, b.second)
  {
    FormatDateInjective(a, b);
    FormatTimeInjective(a, b);
    if (a.year, a.month, a.day, a.hour, a.minute, a.second) == (b.year, b.month, b.day, b.hour, b.minute, b.second) {
      assert FormatDate(a) == FormatDate(b) && FormatTime(a) == FormatTime(b);
    }
  }

  /**
   * The daily id names the day: two instants share it exactly when they
   * fall on the same day; no manual id is ever a daily id.
   */
  lemma DailyInstanceIdPerDay(a: DateTime, b: DateTime)
    requires ValidDateTime(a) && ValidDateTime(b)
    ensures DailyInstanceId(a) == DailyInstanceId(b) <==> (a.year, a.month, a.day) == (b.year, b.month, b.day)
    ensures DailyInstanceId(a) != ManualInstanceId(b)
  {
    FormatDateInjective(a, b);
    assert DailyInstanceId(a)[0] != ManualInstanceId(b)[0];
  }

  /** The status of an orchestration instance as the engine reports it. */
  datatype RuntimeStatus = Running | Completed | ContinuedAsNew | Failed | Canceled | Terminated | Pending | Suspended

  /** A request to the engine to start an orchestration under an id. */
  datatype ScheduleRequest = ScheduleRequest(orchestration: string, input: PipelineInput, instanceId: string)

  const MainOrchestrationName: string := "MainOrchestration"
  const DailyArticleCount: int := 3
  const ManualArticleCount: int := 1

  /**
   * `DailyTrigger`: nothing is scheduled while the day's instance is
   * Running; otherwise the main orchestration is scheduled under the day's
   * id for three articles. `statusOf` is what the engine reports for an id
   * (None when there is no such instance).
   */
  function DailyTrigger(now: DateTime, statusOf: string -> Option<RuntimeStatus>): (r: Option<ScheduleRequest>)
    ensures r.None? <==> statusOf(DailyInstanceId(now)) == Some(Running)
    ensures r.Some? ==> r.value == ScheduleRequest(MainOrchestrationName, PipelineInput(3, now), DailyInstanceId(now))
  {
    var instanceId := DailyInstanceId(now);
    if statusOf(instanceId) == Some(Running) then None
    else Some(ScheduleRequest(MainOrchestrationName, PipelineInput(DailyArticleCount, now), instanceId))
  }

  /**
   * Once a day's run is Running, every later firing of the trigger on the
   * same day schedules nothing; on a day whose run is not Running it
   * schedules that day's run.
   */
  lemma DailyTriggerOncePerDay(first: DateTime, later: DateTime, statusOf: string -> Option<RuntimeStatus>)
    requires ValidDateTime(first) && ValidDateTime(later)
    requires (first.year, first.month, first.day) == (later.year, later.month, later.day)
    ensures statusOf(DailyInstanceId(first)) == Some(Running) ==> DailyTrigger(later, statusOf).None?
    ensures statusOf(DailyInstanceId(first)) != Some(Running) ==>
      DailyTrigger(later, statusOf).Some? && DailyTrigger(later, statusOf).value.instanceId == DailyInstanceId(first)
  {
    DailyInstanceIdPerDay(first, later);
  }

  /** The JSON body of the manual trigger's answer. */
  datatype StartedBody = StartedBody(instanceId: string, status: string)

  /** An HTTP response of the worker: its status code and the JSON body written, if any. */
  datatype HttpResponse = HttpResponse(statusCode: int, body: Option<StartedBody>)

  const AcceptedStatus: int := 202
  const OkStatus: int := 200

  /** `req.CreateResponse(status)`: an empty response with that status. */
  function CreateResponse(status: int): HttpResponse {
    HttpResponse(status, None)
  }

  /**
   * `response.WriteAsJsonAsync(value)` in the overload without a status
   * code: the isolated worker writes the body and sets the status code to
   * 200 OK, replacing the one the response was created with.
   */
  function WriteAsJson(response: HttpResponse, value: StartedBody): (r: HttpResponse)
    ensures r.body == Some(value) && r.statusCode == OkStatus
  {
    HttpResponse(OkStatus, Some(value))
  }

  /**
   * `ManualTrigger`: always schedules one article under a time-stamped id.
   * The response is created as 202 Accepted, but writing the JSON body
   * resets it, so the caller receives 200 with the id and "started".
   */
  function ManualTrigger(now: DateTime): (r: (ScheduleRequest, HttpResponse))
    ensures r.0 == ScheduleRequest(MainOrchestrationName, PipelineInput(1, now), ManualInstanceId(now))
    ensures r.1.body == Some(StartedBody(r.0.instanceId, "started"))
    ensures r.1.statusCode == 200 && r.1.statusCode != AcceptedStatus
  {
    var instanceId := ManualInstanceId(now);
    var response := CreateResponse(AcceptedStatus);
    (ScheduleRequest(MainOrchestrationName, PipelineInput(ManualArticleCount, now), instanceId),
     WriteAsJson(response, StartedBody(instanceId, "started")))
  }

  // ---------------------------------------------------------------------------
  // The per-article orchestration
  // ---------------------------------------------------------------------------

  /**
   * The retry settings handed to the engine with an activity call. The
   * engine does the retrying; the model only records which settings each
   * call carries.
   */
  datatype RetryPolicy = RetryPolicy(
    firstRetrySeconds: nat,
    maxAttempts: nat,
    backoffCoefficient: real,
    maxRetrySeconds: Option<nat>)

  /** For the language-model call: 30 s, then times 1.5, 3 attempts. */
  const LlmRetry: RetryPolicy := RetryPolicy(30, 3, 1.5, None)
  /** For the blog and pin services: 10 s, then times 2, at most 3 minutes, 5 attempts. */
  const ApiRetry: RetryPolicy := RetryPolicy(10, 5, 2.0, Some(180))

  /** The input of the image activity. */
  datatype PinImageInput = PinImageInput(articleTitle: string, keyword: string)

  /** The input of the pin activity; the post address may be null. */
  datatype CreatePinsInput = CreatePinsInput(postUrl: Option<string>, description: string, variations: seq<PinVariation>)

  /** The outcomes of the four activities for one article, as functions of their inputs. */
  datatype ArticleActivities = ArticleActivities(
    generate: ArticleInput -> Outcome<Article>,
    pinImages: PinImageInput -> Outcome<seq<PinVariation>>,
    publish: Article -> Outcome<PublishResult>,
    createPins: CreatePinsInput -> Outcome<seq<PinResult>>)

  /** An activity call made by the per-article orchestration. */
  datatype ArticleCall =
    | GenerateCall(input: ArticleInput, retry: RetryPolicy)
    | ImagesCall(imageInput: PinImageInput)
    | PublishCall(article: Article, retry: RetryPolicy)
    | PinsCall(pinsInput: CreatePinsInput, retry: RetryPolicy)

  /** The position of a call's step in the pipeline. */
  function Step(c: ArticleCall): nat {
    match c
    case GenerateCall(_, _) => 0
    case ImagesCall(_) => 1
    case PublishCall(_, _) => 2
    case PinsCall(_, _) => 3
  }

  /** The message, when the activity of this call threw. */
  function Thrown(acts: ArticleActivities, c: ArticleCall): Option<string> {
    match c
    case GenerateCall(input, _) =>
      if acts.generate(input).Throw? then Some(acts.generate(input).msg) else None
    case ImagesCall(imageInput) =>
      if acts.pinImages(imageInput).Throw? then Some(acts.pinImages(imageInput).msg) else None
    case PublishCall(article, _) =>
      if acts.publish(article).Throw? then Some(acts.publish(article).msg) else None
    case PinsCall(pinsInput, _) =>
      if acts.createPins(pinsInput).Throw? then Some(acts.createPins(pinsInput).msg) else None
  }

  /** The result of one article and the calls made for it. */
  datatype ArticleRun = ArticleRun(result: ArticleResult, calls: seq<ArticleCall>)

  /** A failed article: no post, no pins. */
  function FailedArticle(keyword: string, error: Option<string>): ArticleResult {
    ArticleResult(false, keyword, None, 0, error)
  }

  /**
   * `ProcessArticleOrchestration`: generate, then images, then publish, then
   * pins, each step only after the one before it succeeded. A publish that
   * reports failure ends the article with its error; any activity that
   * throws ends it with the message; nothing is thrown to the caller.
   */
  function ProcessArticle(input: ArticleInput, acts: ArticleActivities): (run: ArticleRun)
    ensures run.result.keyword == input.keyword
    ensures 1 <= |run.calls| <= 4
    ensures forall i :: 0 <= i < |run.calls| ==> Step(run.calls[i]) == i
    ensures run.calls[0] == GenerateCall(input, LlmRetry)
    ensures forall i :: 0 <= i < |run.calls| - 1 ==> Thrown(acts, run.calls[i]).None?
    ensures Thrown(acts, run.calls[|run.calls| - 1]).Some? ==>
      run.result == FailedArticle(input.keyword, Thrown(acts, run.calls[|run.calls| - 1]))
    ensures run.result.success ==> |run.calls| == 4 && run.result.error.None?
    ensures !run.result.success ==> run.result.postUrl.None? && run.result.pinsCreated == 0
    ensures run.result.pinsCreated >= 0
    ensures |run.calls| < 4 && Thrown(acts, run.calls[|run.calls| - 1]).None? ==>
      |run.calls| == 3 && run.calls[2].PublishCall? &&
      acts.publish(run.calls[2].article).Ok? && !acts.publish(run.calls[2].article).value.success
    ensures |run.calls| == 4 && Thrown(acts, run.calls[3]).None? ==> run.result.success
  {
    var generateCall := GenerateCall(input, LlmRetry);
    match acts.generate(input)
    case Throw(m) => ArticleRun(FailedArticle(input.keyword, Some(m)), [generateCall])
    case Ok(article) =>
      var imageInput := PinImageInput(article.title, input.keyword);
      var afterImages := [generateCall, ImagesCall(imageInput)];
      match acts.pinImages(imageInput)
      case Throw(m) => ArticleRun(FailedArticle(input.keyword, Some(m)), afterImages)
      case Ok(variations) =>
        var afterPublish := afterImages + [PublishCall(article, ApiRetry)];
        match acts.publish(article)
        case Throw(m) => ArticleRun(FailedArticle(input.keyword, Some(m)), afterPublish)
        case Ok(wp) =>
          if !wp.success then
            ArticleRun(FailedArticle(input.keyword, wp.error), afterPublish)
          else
            var pinsInput := CreatePinsInput(wp.postUrl, article.metaDescription, variations);
            var afterPins := afterPublish + [PinsCall(pinsInput, ApiRetry)];
            match acts.createPins(pinsInput)
            case Throw(m) => ArticleRun(FailedArticle(input.keyword, Some(m)), afterPins)
            case Ok(pins) =>
              ArticleRun(ArticleResult(true, input.keyword, wp.postUrl, PinterestTools.SuccessCount(pins), None), afterPins)
  }

  /**
   * The inputs handed on: the images are made for the generated title and
   * the input keyword, publish receives the generated article, and the pins
   * link to the published post with the article's meta description and the
   * images made.
   */
  lemma ArticleDataFlow(input: ArticleInput, acts: ArticleActivities)
    ensures var calls := ProcessArticle(input, acts).calls;
      (|calls| >= 2 ==> (acts.generate(input).Ok? &&
        calls[1] == ImagesCall(PinImageInput(acts.generate(input).value.title, input.keyword)))) &&
      (|calls| >= 3 ==> calls[2] == PublishCall(acts.generate(input).value, ApiRetry)) &&
      (|calls| == 4 ==>
        var article := acts.generate(input).value;
        acts.pinImages(calls[1].imageInput).Ok? && acts.publish(article).Ok? &&
        acts.publish(article).value.success &&
        calls[3] == PinsCall(CreatePinsInput(acts.publish(article).value.postUrl, article.metaDescription,
          acts.pinImages(calls[1].imageInput).value), ApiRetry))
  {
  }

  /**
   * A publish that reports failure ends the article with the reported
   * error, after the publish call: the pins are never created.
   */
  lemma PublishSoftFailure(input: ArticleInput, acts: ArticleActivities, article: Article, wp: PublishResult)
    requires acts.generate(input) == Ok(article)
    requires acts.pinImages(PinImageInput(article.title, input.keyword)).Ok?
    requires acts.publish(article) == Ok(wp) && !wp.success
    ensures ProcessArticle(input, acts).result == FailedArticle(input.keyword, wp.error)
    ensures |ProcessArticle(input, acts).calls| == 3
    ensures forall c :: c in ProcessArticle(input, acts).calls ==> !c.PinsCall?
  {
    var calls := ProcessArticle(input, acts).calls;
    forall c | c in calls ensures !c.PinsCall? {
      var i :| 0 <= i < |calls| && calls[i] == c;
      assert Step(c) == i;
    }
  }

  /**
   * An article succeeds exactly when all four activities return and the
   * publish reports success; it then carries the post address and counts
   * the pins that were created, at most one per pin result.
   */
  lemma ArticleSuccess(input: ArticleInput, acts: ArticleActivities)
    ensures var run := ProcessArticle(input, acts);
      run.result.success <==>
        |run.calls| == 4 && (forall i :: 0 <= i < 4 ==> Thrown(acts, run.calls[i]).None?)
    ensures var run := ProcessArticle(input, acts);
      run.result.success ==>
        var article := acts.generate(input).value;
        var wp := acts.publish(article).value;
        var pins := acts.createPins(run.calls[3].pinsInput).value;
        run.result.postUrl == wp.postUrl &&
        run.result.pinsCreated == PinterestTools.SuccessCount(pins) <= |pins|
  {
  }

  /**
   * When every activity returns and the publish reports success, the
   * article succeeds after exactly the four calls, with the post address and
   * the number of pins created.
   */
  lemma AllStepsSucceed(
    input: ArticleInput, acts: ArticleActivities, article: Article, variations: seq<PinVariation>,
    wp: PublishResult, pins: seq<PinResult>)
    requires acts.generate(input) == Ok(article)
    requires acts.pinImages(PinImageInput(article.title, input.keyword)) == Ok(variations)
    requires acts.publish(article) == Ok(wp) && wp.success
    requires acts.createPins(CreatePinsInput(wp.postUrl, article.metaDescription, variations)) == Ok(pins)
    ensures ProcessArticle(input, acts).result ==
      ArticleResult(true, input.keyword, wp.postUrl, PinterestTools.SuccessCount(pins), None)
    ensures ProcessArticle(input, acts).calls == [
      GenerateCall(input, LlmRetry), ImagesCall(PinImageInput(article.title, input.keyword)),
      PublishCall(article, ApiRetry), PinsCall(CreatePinsInput(wp.postUrl, article.metaDescription, variations), ApiRetry)]
  {
  }

  // ---------------------------------------------------------------------------
  // The main orchestration
  // ---------------------------------------------------------------------------

  /** An activity or sub-orchestration call made by the main orchestration. */
  datatype MainCall =
    | KeywordsCall(count: int)
    | ArticleOrchestrationCall(articleInput: ArticleInput)
    | SaveResultsCall(results: seq<ArticleResult>)

  /** The number of successful results. */
  function Published(results: seq<ArticleResult>): (n: nat)
    ensures n <= |results|
    ensures n == 0 <==> forall i :: 0 <= i < |results| ==> !results[i].success
    ensures n == |results| <==> forall i :: 0 <= i < |results| ==> results[i].success
  {
    if results == [] then 0
    else
      assert forall i :: 1 <= i < |results| ==> results[i] == results[1..][i - 1];
      (if results[0].success then 1 else 0) + Published(results[1..])
  }

  /** The sum of the pins created; never negative when no count is. */
  function TotalPins(results: seq<ArticleResult>): (n: int)
    ensures (forall i :: 0 <= i < |results| ==> results[i].pinsCreated >= 0) ==> n >= 0
  {
    if results == [] then 0 else results[0].pinsCreated + TotalPins(results[1..])
  }

  /** The errors of the failed results, in order. */
  function Errors(results: seq<ArticleResult>): (errors: seq<Option<string>>)
    ensures |errors| <= |results|
    ensures forall e :: e in errors ==> exists r :: r in results && !r.success && r.error == e
    ensures forall i :: 0 <= i < |results| && !results[i].success ==> results[i].error in errors
  {
    if results == [] then []
    else
      assert forall i :: 1 <= i < |results| ==> results[i] == results[1..][i - 1];
      if results[0].success then Errors(results[1..])
      else [results[0].error] + Errors(results[1..])
  }

  /** Every result is either counted as published or has its error listed. */
  lemma {:induction false} PublishedPlusErrors(results: seq<ArticleResult>)
    ensures Published(results) + |Errors(results)| == |results|
  {
    if results != [] {
      PublishedPlusErrors(results[1..]);
    }
  }

  /**
   * The day's summary: dated with the run's time; every result is either
   * counted as published or has its error listed.
   */
  function Aggregate(date: DateTime, results: seq<ArticleResult>): (r: PipelineResult)
    ensures r.date == date && r.errors == Errors(results)
    ensures r.articlesPublished + |r.errors| == |results|
    ensures r.articlesPublished <= |results|
    ensures r.articlesPublished == Published(results) && r.totalPinsCreated == TotalPins(results)
  {
    PublishedPlusErrors(results);
    PipelineResult(date, Published(results), TotalPins(results), Errors(results))
  }

  lemma {:induction false} PublishedAppend(a: seq<ArticleResult>, b: seq<ArticleResult>)
    ensures Published(a + b) == Published(a) + Published(b)
  {
    if a == [] {
      assert a + b == b;
    } else {
      assert (a + b)[1..] == a[1..] + b;
      PublishedAppend(a[1..], b);
    }
  }

  lemma {:induction false} TotalPinsAppend(a: seq<ArticleResult>, b: seq<ArticleResult>)
    ensures TotalPins(a + b) == TotalPins(a) + TotalPins(b)
  {
    if a == [] {
      assert a + b == b;
    } else {
      assert (a + b)[1..] == a[1..] + b;
      TotalPinsAppend(a[1..], b);
    }
  }

  lemma {:induction false} ErrorsAppend(a: seq<ArticleResult>, b: seq<ArticleResult>)
    ensures Errors(a + b) == Errors(a) + Errors(b)
  {
    if a == [] {
      assert a + b == b;
    } else {
      assert (a + b)[1..] == a[1..] + b;
      ErrorsAppend(a[1..], b);
      if !a[0].success {
        assert [a[0].error] + (Errors(a[1..]) + Errors(b)) == ([a[0].error] + Errors(a[1..])) + Errors(b);
      }
    }
  }

  /** The summary of a single result: it counts one if successful, its pins, and its error if failed. */
  lemma AggregateSingleton(r: ArticleResult)
    ensures Published([r]) == if r.success then 1 else 0
    ensures TotalPins([r]) == r.pinsCreated
    ensures Errors([r]) == if r.success then [] else [r.error]
  {
    assert [r][1..] == [];
  }

  /** The summary of a concatenation adds up the summaries of its parts, errors in order. */
  lemma AggregateAppend(a: seq<ArticleResult>, b: seq<ArticleResult>)
    ensures Published(a + b) == Published(a) + Published(b)
    ensures TotalPins(a + b) == TotalPins(a) + TotalPins(b)
    ensures Errors(a + b) == Errors(a) + Errors(b)
  {
    PublishedAppend(a, b);
    TotalPinsAppend(a, b);
    ErrorsAppend(a, b);
  }

  /** The result of the article orchestration for each keyword, in order. */
  function ArticleResults(keywords: seq<KeywordResult>, acts: nat -> ArticleActivities): (results: seq<ArticleResult>)
    ensures |results| == |keywords|
    ensures forall i :: 0 <= i < |keywords| ==>
      results[i] == ProcessArticle(ArticleInput(keywords[i].keyword, keywords[i].articleType), acts(i)).result
    ensures forall i :: 0 <= i < |keywords| ==> results[i].keyword == keywords[i].keyword
  {
    seq(|keywords|, i requires 0 <= i < |keywords| =>
      ProcessArticle(ArticleInput(keywords[i].keyword, keywords[i].articleType), acts(i)).result)
  }

  /** The main orchestration's calls when the keywords were found. */
  function MainCalls(count: int, keywords: seq<KeywordResult>, results: seq<ArticleResult>): seq<MainCall> {
    [KeywordsCall(count)]
    + seq(|keywords|, i requires 0 <= i < |keywords| =>
        ArticleOrchestrationCall(ArticleInput(keywords[i].keyword, keywords[i].articleType)))
    + [SaveResultsCall(results)]
  }

  /**
   * `MainOrchestration`: the keywords are fetched, each is processed by its
   * own article orchestration, strictly one after the other, the results
   * are saved and summed up. `getKeywords` and `saveResults` are the
   * outcomes of the two activities, `acts(i)` those of the activities of
   * the i-th article, and `now` the orchestration's current time. A keyword
   * activity or save activity that throws fails the orchestration.
   */
  method MainOrchestration(
    input: PipelineInput, now: DateTime,
    getKeywords: int -> Outcome<seq<KeywordResult>>,
    acts: nat -> ArticleActivities,
    saveResults: seq<ArticleResult> -> Outcome<()>)
    returns (r: Outcome<PipelineResult>, results: seq<ArticleResult>, calls: seq<MainCall>)
    ensures getKeywords(input.articleCount).Throw? ==>
      r == Throw(getKeywords(input.articleCount).msg) && results == [] && calls == [KeywordsCall(input.articleCount)]
    ensures getKeywords(input.articleCount).Ok? ==>
      var keywords := getKeywords(input.articleCount).value;
      results == ArticleResults(keywords, acts) &&
      calls == MainCalls(input.articleCount, keywords, results) &&
      (saveResults(results).Throw? ==> r == Throw(saveResults(results).msg)) &&
      (saveResults(results).Ok? ==> r == Ok(Aggregate(now, results)))
  {
    calls := [KeywordsCall(input.articleCount)];
    results := [];
    var found := getKeywords(input.articleCount);
    if found.Throw? {
      return Throw(found.msg), results, calls;
    }
    var keywords := found.value;
    var i := 0;
    while i < |keywords|
      invariant 0 <= i <= |keywords|
      invariant results == ArticleResults(keywords[..i], acts)
      invariant calls == [KeywordsCall(input.articleCount)] +
        seq(i, j requires 0 <= j < i => ArticleOrchestrationCall(ArticleInput(keywords[j].keyword, keywords[j].articleType)))
    {
      var articleInput := ArticleInput(keywords[i].keyword, keywords[i].articleType);
      var run := ProcessArticle(articleInput, acts(i));
      calls := calls + [ArticleOrchestrationCall(articleInput)];
      results := results + [run.result];
      i := i + 1;
    }
    assert keywords[..i] == keywords;
    calls := calls + [SaveResultsCall(results)];
    var saved := saveResults(results);
    if saved.Throw? {
      return Throw(saved.msg), results, calls;
    }
    r := Ok(Aggregate(now, results));
  }

  /**
   * The summary of a run: every keyword is either published or has its
   * error listed, whatever the other keywords did; the pins add up to a
   * non-negative total.
   */
  lemma MainSummary(now: DateTime, keywords: seq<KeywordResult>, acts: nat -> ArticleActivities)
    ensures var summary := Aggregate(now, ArticleResults(keywords, acts));
      summary.articlesPublished + |summary.errors| == |keywords| &&
      summary.totalPinsCreated >= 0
  {
    var results := ArticleResults(keywords, acts);
    PublishedPlusErrors(results);
    forall i | 0 <= i < |results| ensures results[i].pinsCreated >= 0 {
      var run := ProcessArticle(ArticleInput(keywords[i].keyword, keywords[i].articleType), acts(i));
      assert results[i] == run.result;
    }
  }

  /** An article's result depends on its own activities only: a failure elsewhere does not change it. */
  lemma ArticleIsolation(keywords: seq<KeywordResult>, acts1: nat -> ArticleActivities, acts2: nat -> ArticleActivities, i: nat)
    requires i < |keywords| && acts1(i) == acts2(i)
    ensures ArticleResults(keywords, acts1)[i] == ArticleResults(keywords, acts2)[i]
  {
  }

  // ---------------------------------------------------------------------------
  // Activities
  // ---------------------------------------------------------------------------

  /** `GetKeywordsActivity`: the research tool's selection. */
  method GetKeywordsActivity(store: StateStore<StoredState>, count: int) returns (r: Outcome<seq<KeywordResult>>)
    ensures r.Throw? <==> ResearchTools.PublishedSet(store.Stored(ResearchTools.PublishedKeywordsKey)).Throw?
    ensures r.Ok? ==> r.value == ResearchTools.SelectKeywords(ResearchTools.SeedKeywords(),
      ResearchTools.PublishedSet(store.Stored(ResearchTools.PublishedKeywordsKey)).value, count)
    ensures r.Ok? ==> |r.value| <= (if count <= 0 then 0 else count)
    ensures r.Ok? ==> forall k :: k in r.value ==> (k in ResearchTools.SeedKeywords() &&
      !ResearchTools.IsPublished(k, ResearchTools.PublishedSet(store.Stored(ResearchTools.PublishedKeywordsKey)).value))
  {
    r := ResearchTools.GetKeywords(store, count);
  }

  /** The number of headlines, and so of pins, per article. */
  const HeadlineCount: int := 3

  /**
   * `GeneratePinImagesActivity`: three headlines from the article title,
   * then one image per headline. Headline i is answered by `replies(i)`.
   */
  method GeneratePinImagesActivity(
    cfg: ImageTools.ImageConfig, input: PinImageInput, replies: nat -> ImageTools.BannerbearReply)
    returns (variations: seq<PinVariation>)
    ensures |variations| == 3
    ensures variations[0].title == input.articleTitle
    ensures forall i :: 0 <= i < 3 ==>
      variations[i].title == ContentTools.PinHeadlineCandidates(input.articleTitle)[i] &&
      variations[i].imageUrl == ImageTools.GeneratePinImage(cfg, variations[i].title, input.keyword, ImageTools.DefaultStyle, replies(i)).url
  {
    var headlines := ContentTools.GeneratePinHeadlines(input.articleTitle, HeadlineCount);
    variations := ImageTools.GeneratePinVariations(cfg, input.articleTitle, input.keyword, headlines, replies);
  }

  const DuplicateTitleError: string := "Article with similar title already exists"

  /** The publish result and whether the post was sent to the blog. */
  datatype PublishAttempt = PublishAttempt(result: Outcome<PublishResult>, posted: bool)

  /**
   * `PublishToWordPressActivity`: an article whose title is already on the
   * blog is not published and fails softly; otherwise the blog's answer is
   * the result. `postExists` is the blog's duplicate check (which never
   * throws) and `publishPost` its answer to a new post.
   */
  function PublishToWordPressActivity(
    article: Article, postExists: string -> bool, publishPost: Article -> Outcome<PublishResult>): (a: PublishAttempt)
    ensures a.posted <==> !postExists(article.title)
    ensures postExists(article.title) ==> a.result == Ok(PublishResult(false, None, Some(DuplicateTitleError)))
    ensures !postExists(article.title) ==> a.result == publishPost(article)
  {
    if postExists(article.title) then
      PublishAttempt(Ok(PublishResult(false, None, Some(DuplicateTitleError))), false)
    else
      PublishAttempt(publishPost(article), true)
  }

  /**
   * An article whose generated title is already on the blog fails with the
   * duplicate message after the publish call, and no pins are created.
   */
  lemma DuplicateTitleStopsArticle(
    input: ArticleInput, acts: ArticleActivities, postExists: string -> bool, publishPost: Article -> Outcome<PublishResult>)
    requires acts.generate(input).Ok?
    requires acts.pinImages(PinImageInput(acts.generate(input).value.title, input.keyword)).Ok?
    requires acts.publish(acts.generate(input).value) ==
      PublishToWordPressActivity(acts.generate(input).value, postExists, publishPost).result
    requires postExists(acts.generate(input).value.title)
    ensures ProcessArticle(input, acts).result == FailedArticle(input.keyword, Some(DuplicateTitleError))
    ensures forall c :: c in ProcessArticle(input, acts).calls ==> !c.PinsCall?
  {
    var article := acts.generate(input).value;
    PublishSoftFailure(input, acts, article, PublishResult(false, None, Some(DuplicateTitleError)));
  }

  /**
   * `CreatePinsActivity`: the batch of pins with the default wait between
   * them. Variation i is answered by `replies(i)`.
   */
  method CreatePinsActivity(
    cfg: PinterestTools.PinterestConfig, input: CreatePinsInput, replies: nat -> PinterestTools.PinReply)
    returns (results: seq<PinResult>, events: seq<PinterestTools.BatchEvent>)
    ensures |results| == |input.variations|
    ensures forall i :: 0 <= i < |input.variations| ==>
      results[i] == PinterestTools.CreatePin(cfg, input.variations[i].title, input.description, input.postUrl,
        input.variations[i].imageUrl, None, replies(i)).result
    ensures events == PinterestTools.BatchEvents(cfg, input.postUrl, input.description, input.variations,
      PinterestTools.DefaultDelay, replies, |input.variations|)
  {
    results, events := PinterestTools.CreatePinsWithRateLimit(cfg, input.postUrl, input.description, input.variations, 0, replies);
  }

  /** The lower-cased keywords of the successful results, in order. */
  function SuccessKeywords(results: seq<ArticleResult>): (kws: seq<string>)
    ensures forall k :: k in kws <==> exists r :: r in results && r.success && ToLower(r.keyword) == k
  {
    if results == [] then []
    else
      var rest := SuccessKeywords(results[1..]);
      assert forall r :: r in results <==> r == results[0] || r in results[1..];
      if results[0].success then [ToLower(results[0].keyword)] + rest else rest
  }

  /**
   * The published set after adding each keyword in turn, as the save
   * activity's update does: the union of the old set and the keywords,
   * nothing removed and nothing else added.
   */
  function AddKeywords(published: set<string>, keywords: seq<string>): (r: set<string>)
    ensures r == published + set k | k in keywords
    decreases |keywords|
  {
    if keywords == [] then published
    else
      assert (set k | k in keywords) == {keywords[0]} + set k | k in keywords[1..];
      AddKeywords(published + {keywords[0]}, keywords[1..])
  }

  /** The published-keywords state after the update of the save activity. */
  function MergeState(state: StoredState, keywords: seq<string>): StoredState {
    match state
    case KeywordSet(s) => KeywordSet(AddKeywords(s, keywords))
    case ResultList(_) => state
  }

  const DailyResultsPrefix: string := "daily-results/"

  /**
   * `SaveResultsActivity`: the results are saved under
   * "daily-results/<today>", then the lower-cased keywords of the
   * successful results are added to the published set. A published-keywords
   * file that does not hold a set throws after the results were saved.
   */
  method SaveResultsActivity(store: StateStore<StoredState>, results: seq<ArticleResult>, today: DateTime)
    returns (r: Outcome<()>)
    modifies store
    ensures var before := ResearchTools.PublishedSet(old(store.Stored(ResearchTools.PublishedKeywordsKey)));
      var saved := old(store.files)[FilePath(store.basePath, DailyResultsPrefix + FormatDate(today)) := ResultList(results)];
      (r.Throw? <==> before.Throw?) &&
      (r.Throw? ==> store.files == saved) &&
      (r.Ok? ==> store.files == saved[FilePath(store.basePath, ResearchTools.PublishedKeywordsKey) :=
        KeywordSet(AddKeywords(before.value, SuccessKeywords(results)))])
  {
    var dailyKey := DailyResultsPrefix + FormatDate(today);
    ghost var before := store.Stored(ResearchTools.PublishedKeywordsKey);
    store.Save(dailyKey, ResultList(results));
    SaveKeepsOtherKeys(old(store.files), store.basePath, dailyKey, ResultList(results), ResearchTools.PublishedKeywordsKey);
    assert store.Stored(ResearchTools.PublishedKeywordsKey) == before;
    var stored := store.Load(ResearchTools.PublishedKeywordsKey);
    var published := ResearchTools.PublishedSet(stored);
    if published.Throw? {
      return Throw(published.msg);
    }
    var keywords := SuccessKeywords(results);
    var _ := store.Update(ResearchTools.PublishedKeywordsKey, KeywordSet({}), (s: StoredState) => MergeState(s, keywords));
    return Ok(());
  }

  /**
   * After the results are saved, the published set is the old one plus the
   * lower-cased keywords of the successful results, and the next keyword
   * selection offers none of them again.
   */
  lemma SavedKeywordsNotSelectedAgain(published: set<string>, results: seq<ArticleResult>, count: int)
    ensures AddKeywords(published, SuccessKeywords(results)) ==
      published + set r | r in results && r.success :: ToLower(r.keyword)
    ensures forall k, r :: k in ResearchTools.SelectKeywords(ResearchTools.SeedKeywords(),
        AddKeywords(published, SuccessKeywords(results)), count) && r in results && r.success ==>
      ToLower(k.keyword) != ToLower(r.keyword)
  {
    var kws := SuccessKeywords(results);
    assert (set k | k in kws) == set r | r in results && r.success :: ToLower(r.keyword);
  }
}
