/**
 * The pin service client: one pin per call, guarded by the configuration,
 * and a batch of pins with a wait between consecutive pins. The HTTP
 * exchange is a value: the reply the service gives to the request sent.
 */
module PinterestTools {
  import opened Wrappers
  import opened Models
  import opened Text

  /** The access token and default board read from configuration ("" when not set). */
  datatype PinterestConfig = PinterestConfig(accessToken: string, defaultBoardId: string)

  /** Both settings are present. */
  predicate IsConfigured(cfg: PinterestConfig) {
    cfg.accessToken != "" && cfg.defaultBoardId != ""
  }

  const NotConfiguredError: string := "Pinterest not configured. Set Pinterest:AccessToken and DefaultBoardId."
  const TitleLimit: nat := 100
  const DescriptionLimit: nat := 500
  const ImageSourceType: string := "image_url"

  /** One tick is 100 ns, as in a .NET `TimeSpan`. */
  const TicksPerSecond: nat := 10_000_000
  /** The wait used when the caller gives none (a zero `TimeSpan`). */
  const DefaultDelay: nat := 30 * TicksPerSecond

  /** The body of the create-pin request. A null link is left out of the JSON. */
  datatype PinRequest = PinRequest(
    boardId: string,
    title: string,
    description: string,
    link: Option<string>,
    sourceType: string,
    imageUrl: string)

  /**
   * What the service does with a request: a response with its status code,
   * its body read as text (the read may throw), and the id read from it as
   * JSON (a failed read throws, a missing id reads as None); or an
   * exception while sending.
   */
  datatype PinReply =
    | Response(status: int, body: Outcome<string>, parsedId: Outcome<Option<string>>)
    | SendFailed(message: string)

  /** The result of one call and the request it sent, if any. */
  datatype PinAttempt = PinAttempt(result: PinResult, request: Option<PinRequest>)

  predicate IsSuccessStatus(status: int) {
    200 <= status <= 299
  }

  /** The request `CreatePinAsync` builds. */
  function BuildPinRequest(
    cfg: PinterestConfig, title: string, description: string, linkUrl: Option<string>,
    imageUrl: string, boardId: Option<string>): (req: PinRequest)
    ensures |req.title| <= TitleLimit && req.title <= title
    ensures req.title == title <==> |title| <= TitleLimit
    ensures |title| > TitleLimit ==> |req.title| == TitleLimit
    ensures |req.description| <= DescriptionLimit && req.description <= description
    ensures req.description == description <==> |description| <= DescriptionLimit
    ensures |description| > DescriptionLimit ==> |req.description| == DescriptionLimit
    ensures boardId.Some? ==> req.boardId == boardId.value
    ensures boardId.None? ==> req.boardId == cfg.defaultBoardId
    ensures req.link == linkUrl && req.imageUrl == imageUrl && req.sourceType == "image_url"
  {
    PinRequest(
      boardId := boardId.GetOr(cfg.defaultBoardId),
      title := Truncate(title, TitleLimit),
      description := Truncate(description, DescriptionLimit),
      link := linkUrl,
      sourceType := ImageSourceType,
      imageUrl := imageUrl)
  }

  /**
   * `CreatePinAsync`: without configuration no request is sent; otherwise
   * the request is sent and `reply` is what comes back. Every failure is
   * reported in the result, never thrown.
   */
  function CreatePin(
    cfg: PinterestConfig, title: string, description: string, linkUrl: Option<string>,
    imageUrl: string, boardId: Option<string>, reply: PinReply): (a: PinAttempt)
    ensures !IsConfigured(cfg) ==> a.request.None? && a.result == PinResult(false, None, Some(NotConfiguredError))
    ensures IsConfigured(cfg) ==> a.request == Some(BuildPinRequest(cfg, title, description, linkUrl, imageUrl, boardId))
    ensures a.result.success <==>
      IsConfigured(cfg) && reply.Response? && IsSuccessStatus(reply.status) && reply.parsedId.Ok?
    ensures a.result.success ==> a.result.pinId == Some(reply.parsedId.value.GetOr("")) && a.result.error.None?
    ensures !a.result.success ==> a.result.error.Some? && a.result.pinId.None?
    ensures IsConfigured(cfg) && reply.SendFailed? ==> a.result.error == Some(reply.message)
    ensures IsConfigured(cfg) && reply.Response? && !IsSuccessStatus(reply.status) && reply.body.Ok? ==>
      a.result.error == Some("HTTP " + IntToString(reply.status) + ": " + reply.body.value)
    ensures IsConfigured(cfg) && reply.Response? && !IsSuccessStatus(reply.status) && reply.body.Throw? ==>
      a.result.error == Some(reply.body.msg)
    ensures IsConfigured(cfg) && reply.Response? && IsSuccessStatus(reply.status) && reply.parsedId.Throw? ==>
      a.result.error == Some(reply.parsedId.msg)
  {
    if !IsConfigured(cfg) then
      PinAttempt(PinResult(false, None, Some(NotConfiguredError)), None)
    else
      var request := BuildPinRequest(cfg, title, description, linkUrl, imageUrl, boardId);
      var result :=
        match reply
        case SendFailed(message) => PinResult(false, None, Some(message))
        case Response(status, body, parsedId) =>
          if !IsSuccessStatus(status) then
            match body
            case Throw(msg) => PinResult(false, None, Some(msg))
            case Ok(text) => PinResult(false, None, Some("HTTP " + IntToString(status) + ": " + text))
          else if parsedId.Throw? then
            PinResult(false, None, Some(parsedId.msg))
          else
            PinResult(true, Some(parsedId.value.GetOr("")), None);
      PinAttempt(result, Some(request))
  }

  /** What happens during a batch, in order: a pin attempt or a wait. */
  datatype BatchEvent = Attempt(index: nat, request: Option<PinRequest>) | Wait(ticks: nat)

  /** The wait actually used: the default one for a zero delay. */
  function EffectiveDelay(delay: nat): (d: nat)
    ensures d > 0
    ensures delay > 0 ==> d == delay
  {
    if delay == 0 then DefaultDelay else delay
  }

  /** The attempt for variation `i` of a batch. */
  function BatchAttempt(
    cfg: PinterestConfig, postUrl: Option<string>, description: string,
    v: PinVariation, reply: PinReply): PinAttempt
  {
    CreatePin(cfg, v.title, description, postUrl, v.imageUrl, None, reply)
  }

  /** The events of the first `n` variations of a batch. */
  function BatchEvents(
    cfg: PinterestConfig, postUrl: Option<string>, description: string,
    variations: seq<PinVariation>, delay: nat, replies: nat -> PinReply, n: nat): seq<BatchEvent>
    requires n <= |variations|
  {
    if n == 0 then []
    else
      var before := BatchEvents(cfg, postUrl, description, variations, delay, replies, n - 1);
      var attempt := BatchAttempt(cfg, postUrl, description, variations[n - 1], replies(n - 1));
      before + (if n > 1 then [Wait(delay)] else []) + [Attempt(n - 1, attempt.request)]
  }

  /**
   * The events alternate: the attempt for variation j at position 2j, a wait
   * of `delay` at each odd position; so `n` variations give `n` attempts,
   * in order, and `max(n - 1, 0)` waits, each between two attempts.
   */
  lemma {:induction false} BatchEventsAlternate(
    cfg: PinterestConfig, postUrl: Option<string>, description: string,
    variations: seq<PinVariation>, delay: nat, replies: nat -> PinReply, n: nat)
    requires n <= |variations|
    ensures var events := BatchEvents(cfg, postUrl, description, variations, delay, replies, n);
      |events| == (if n == 0 then 0 else 2 * n - 1) &&
      forall k :: 0 <= k < |events| ==>
        events[k] == if k % 2 == 0
          then Attempt(k / 2, BatchAttempt(cfg, postUrl, description, variations[k / 2], replies(k / 2)).request)
          else Wait(delay)
  {
    if n > 0 {
      BatchEventsAlternate(cfg, postUrl, description, variations, delay, replies, n - 1);
    }
  }

  /** The number of waits in a list of events. */
  function WaitCount(events: seq<BatchEvent>): nat {
    if events == [] then 0 else (if events[0].Wait? then 1 else 0) + WaitCount(events[1..])
  }

  lemma {:induction false} WaitCountAppend(a: seq<BatchEvent>, b: seq<BatchEvent>)
    ensures WaitCount(a + b) == WaitCount(a) + WaitCount(b)
    decreases |a|
  {
    if a == [] {
      assert a + b == b;
    } else {
      assert (a + b)[1..] == a[1..] + b;
      WaitCountAppend(a[1..], b);
    }
  }

  /** A batch of `n` variations waits `max(n - 1, 0)` times. */
  lemma {:induction false} BatchWaits(
    cfg: PinterestConfig, postUrl: Option<string>, description: string,
    variations: seq<PinVariation>, delay: nat, replies: nat -> PinReply, n: nat)
    requires n <= |variations|
    ensures WaitCount(BatchEvents(cfg, postUrl, description, variations, delay, replies, n)) ==
      if n == 0 then 0 else n - 1
  {
    if n > 0 {
      var before := BatchEvents(cfg, postUrl, description, variations, delay, replies, n - 1);
      var attempt := BatchAttempt(cfg, postUrl, description, variations[n - 1], replies(n - 1));
      BatchWaits(cfg, postUrl, description, variations, delay, replies, n - 1);
      var gap: seq<BatchEvent> := if n > 1 then [Wait(delay)] else [];
      WaitCountAppend(before, gap);
      WaitCountAppend(before + gap, [Attempt(n - 1, attempt.request)]);
      assert WaitCount([Attempt(n - 1, attempt.request)]) == 0;
      if n > 1 {
        assert WaitCount(gap) == 1;
      }
    }
  }

  /**
   * `CreatePinsWithRateLimitAsync`: one attempt per variation, in order,
   * with its title and image and the shared description and post link;
   * a failed pin does not stop the batch; consecutive attempts are
   * separated by a wait (30 seconds when no delay is given). Variation i
   * is answered by `replies(i)`.
   */
  method CreatePinsWithRateLimit(
    cfg: PinterestConfig, postUrl: Option<string>, description: string,
    variations: seq<PinVariation>, delay: nat, replies: nat -> PinReply)
    returns (results: seq<PinResult>, events: seq<BatchEvent>)
    ensures |results| == |variations|
    ensures forall i :: 0 <= i < |variations| ==>
      results[i] == CreatePin(cfg, variations[i].title, description, postUrl, variations[i].imageUrl, None, replies(i)).result
    ensures events == BatchEvents(cfg, postUrl, description, variations, EffectiveDelay(delay), replies, |variations|)
  {
    var wait := EffectiveDelay(delay);
    results := [];
    events := [];
    var i := 0;
    while i < |variations|
      invariant 0 <= i <= |variations|
      invariant |results| == i
      invariant forall j :: 0 <= j < i ==>
        results[j] == BatchAttempt(cfg, postUrl, description, variations[j], replies(j)).result
      invariant events == BatchEvents(cfg, postUrl, description, variations, wait, replies, i)
    {
      if i > 0 {
        events := events + [Wait(wait)];
      }
      var v := variations[i];
      var attempt := CreatePin(cfg, v.title, description, postUrl, v.imageUrl, None, replies(i));
      results := results + [attempt.result];
      events := events + [Attempt(i, attempt.request)];
      i := i + 1;
    }
  }

  /** The number of successful results. */
  function SuccessCount(results: seq<PinResult>): (n: nat)
    ensures n <= |results|
    ensures n == 0 <==> forall i :: 0 <= i < |results| ==> !results[i].success
    ensures n == |results| <==> forall i :: 0 <= i < |results| ==> results[i].success
  {
    if results == [] then 0
    else
      assert forall i :: 1 <= i < |results| ==> results[i] == results[1..][i - 1];
      (if results[0].success then 1 else 0) + SuccessCount(results[1..])
  }

  /** Counting works piece by piece: a list counts as its two halves do. */
  lemma {:induction false} SuccessCountAppend(a: seq<PinResult>, b: seq<PinResult>)
    ensures SuccessCount(a + b) == SuccessCount(a) + SuccessCount(b)
    decreases |a|
  {
    if a == [] {
      assert a + b == b;
    } else {
      assert (a + b)[1..] == a[1..] + b;
      SuccessCountAppend(a[1..], b);
    }
  }

  /** A single result counts one when successful and none otherwise. */
  lemma SuccessCountSingleton(r: PinResult)
    ensures SuccessCount([r]) == if r.success then 1 else 0
  {
    assert [r][1..] == [];
  }

  /** Without configuration every pin of a batch fails with the not-configured error and nothing is sent. */
  lemma UnconfiguredBatch(
    cfg: PinterestConfig, postUrl: Option<string>, description: string,
    variations: seq<PinVariation>, delay: nat, replies: nat -> PinReply, results: seq<PinResult>)
    requires !IsConfigured(cfg)
    requires |results| == |variations|
    requires forall i :: 0 <= i < |variations| ==>
      results[i] == CreatePin(cfg, variations[i].title, description, postUrl, variations[i].imageUrl, None, replies(i)).result
    ensures forall i :: 0 <= i < |results| ==> results[i].error == Some(NotConfiguredError)
    ensures SuccessCount(results) == 0
  {
  }
}
