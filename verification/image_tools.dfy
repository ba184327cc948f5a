/**
 * The pin image tools: an image rendered by Bannerbear when it is configured
 * and answers with an image, the Unsplash stock photo for the keyword
 * otherwise. The HTTP exchange with Bannerbear is a value: the reply given
 * to the request sent.
 */
module ImageTools {
  import opened Wrappers
  import opened Models
  import opened Text

  /** The Bannerbear key and the template ids per style read from configuration ("" when not set). */
  datatype ImageConfig = ImageConfig(
    bannerbearApiKey: string,
    travelTemplate: string,
    listicleTemplate: string,
    guideTemplate: string)

  /** The key is set. */
  predicate IsBannerbearConfigured(cfg: ImageConfig) {
    cfg.bannerbearApiKey != ""
  }

  /** The template table: exactly the three known styles. */
  function TemplateIds(cfg: ImageConfig): map<string, string> {
    map["travel" := cfg.travelTemplate, "listicle" := cfg.listicleTemplate, "guide" := cfg.guideTemplate]
  }

  /** The template id of a style, "" for a style the table does not know. */
  function TemplateFor(cfg: ImageConfig, style: string): (id: string)
    ensures style == "travel" ==> id == cfg.travelTemplate
    ensures style == "listicle" ==> id == cfg.listicleTemplate
    ensures style == "guide" ==> id == cfg.guideTemplate
    ensures style !in {"travel", "listicle", "guide"} ==> id == ""
  {
    var ids := TemplateIds(cfg);
    if style in ids then ids[style] else ""
  }

  /** The style used for every pin image. */
  const DefaultStyle: string := "travel"

  const UnsplashBase: string := "https://source.unsplash.com/1000x1500/?"

  /**
   * The stock photo address for a keyword: the escaped keyword as the
   * query, which reads back as the keyword.
   */
  function GetUnsplashUrl(keyword: string): (url: string)
    ensures |url| >= |UnsplashBase| && url[..|UnsplashBase|] == UnsplashBase
    ensures forall i :: |UnsplashBase| <= i < |url| ==> IsEscapedChar(url[i])
    ensures url[|UnsplashBase|..] == EscapeDataString(keyword)
    ensures Unescape(url[|UnsplashBase|..]) == keyword
  {
    UnescapeEscape(keyword);
    UnsplashBase + EscapeDataString(keyword)
  }

  /** Distinct keywords get distinct photo addresses. */
  lemma UnsplashUrlInjective(a: string, b: string)
    ensures GetUnsplashUrl(a) == GetUnsplashUrl(b) <==> a == b
  {
    if GetUnsplashUrl(a) == GetUnsplashUrl(b) {
      assert GetUnsplashUrl(a)[|UnsplashBase|..] == GetUnsplashUrl(b)[|UnsplashBase|..];
    }
  }

  /**
   * A keyword of words made of unreserved characters, such as every seed
   * keyword, appears in the address with each space written "%20"; one
   * without spaces appears as it is.
   */
  lemma UnsplashUrlOfPlainKeyword(keyword: string)
    requires forall i :: 0 <= i < |keyword| ==> IsUnreserved(keyword[i]) || keyword[i] == ' '
    ensures GetUnsplashUrl(keyword) == UnsplashBase + ReplaceAll(keyword, " ", "%20")
    ensures (forall i :: 0 <= i < |keyword| ==> IsUnreserved(keyword[i])) ==>
      GetUnsplashUrl(keyword) == UnsplashBase + keyword
  {
    EscapeWords(keyword);
    if forall i :: 0 <= i < |keyword| ==> IsUnreserved(keyword[i]) {
      EscapeUnreserved(keyword);
    }
  }

  /** The body of the render request: the template, the headline text and the background photo. */
  datatype BannerbearRequest = BannerbearRequest(template: string, headline: string, backgroundUrl: string)

  /**
   * What Bannerbear does with a request: a response with its status code and
   * the image address read from it (a failed read throws, a missing address
   * reads as None); or an exception while sending.
   */
  datatype BannerbearReply =
    | Response(status: int, parsedImageUrl: Outcome<Option<string>>)
    | SendFailed(message: string)

  /** The image address found (None for null) and the request sent, if any. */
  datatype BannerbearAttempt = BannerbearAttempt(url: Option<string>, request: Option<BannerbearRequest>)

  /**
   * `GenerateWithBannerbearAsync`: no request for a style without a template
   * id; otherwise the render request, whose answer gives the image address
   * only on a success status with an address in the body. Failures give
   * None and are never thrown.
   */
  function GenerateWithBannerbear(
    cfg: ImageConfig, headline: string, keyword: string, style: string, reply: BannerbearReply): (a: BannerbearAttempt)
    ensures TemplateFor(cfg, style) == "" ==> a.request.None? && a.url.None?
    ensures TemplateFor(cfg, style) != "" ==>
      a.request == Some(BannerbearRequest(TemplateFor(cfg, style), headline, GetUnsplashUrl(keyword)))
    ensures a.url.Some? <==>
      TemplateFor(cfg, style) != "" && reply.Response? && 200 <= reply.status <= 299 &&
      reply.parsedImageUrl.Ok? && reply.parsedImageUrl.value.Some?
    ensures a.url.Some? ==> a.url == reply.parsedImageUrl.value
  {
    var templateId := TemplateFor(cfg, style);
    if templateId == "" then
      BannerbearAttempt(None, None)
    else
      var request := BannerbearRequest(templateId, headline, GetUnsplashUrl(keyword));
      match reply
      case SendFailed(_) => BannerbearAttempt(None, Some(request))
      case Response(status, parsed) =>
        if !(200 <= status <= 299) then BannerbearAttempt(None, Some(request))
        else if parsed.Throw? then BannerbearAttempt(None, Some(request))
        else BannerbearAttempt(parsed.value, Some(request))
  }

  /** The image address of one pin and the render request sent, if any. */
  datatype ImageAttempt = ImageAttempt(url: string, request: Option<BannerbearRequest>)

  /**
   * `GeneratePinImageAsync`: the Bannerbear image when Bannerbear is
   * configured and yields an address, the Unsplash photo otherwise; there
   * is always an address.
   */
  function GeneratePinImage(
    cfg: ImageConfig, headline: string, keyword: string, style: string, reply: BannerbearReply): (a: ImageAttempt)
    ensures !IsBannerbearConfigured(cfg) ==> a.url == GetUnsplashUrl(keyword) && a.request.None?
    ensures IsBannerbearConfigured(cfg) ==>
      a.request == GenerateWithBannerbear(cfg, headline, keyword, style, reply).request
    ensures a.url == GetUnsplashUrl(keyword) ||
      (IsBannerbearConfigured(cfg) && Some(a.url) == GenerateWithBannerbear(cfg, headline, keyword, style, reply).url)
    ensures GenerateWithBannerbear(cfg, headline, keyword, style, reply).url.None? ==> a.url == GetUnsplashUrl(keyword)
    ensures IsBannerbearConfigured(cfg) && GenerateWithBannerbear(cfg, headline, keyword, style, reply).url.Some? ==>
      a.url == GenerateWithBannerbear(cfg, headline, keyword, style, reply).url.value
  {
    if IsBannerbearConfigured(cfg) then
      var rendered := GenerateWithBannerbear(cfg, headline, keyword, style, reply);
      if rendered.url.Some? then ImageAttempt(rendered.url.value, rendered.request)
      else ImageAttempt(GetUnsplashUrl(keyword), rendered.request)
    else
      ImageAttempt(GetUnsplashUrl(keyword), None)
  }

  /**
   * `GeneratePinVariationsAsync`: one variation per headline, in order, with
   * the headline as title and the image made for it in the default style.
   * The article title is not used. Headline i is answered by `replies(i)`.
   */
  method GeneratePinVariations(
    cfg: ImageConfig, articleTitle: string, keyword: string, headlines: seq<string>, replies: nat -> BannerbearReply)
    returns (variations: seq<PinVariation>)
    ensures |variations| == |headlines|
    ensures forall i :: 0 <= i < |headlines| ==>
      variations[i] == PinVariation(headlines[i], GeneratePinImage(cfg, headlines[i], keyword, DefaultStyle, replies(i)).url)
  {
    variations := [];
    var i := 0;
    while i < |headlines|
      invariant 0 <= i <= |headlines|
      invariant |variations| == i
      invariant forall j :: 0 <= j < i ==>
        variations[j] == PinVariation(headlines[j], GeneratePinImage(cfg, headlines[j], keyword, DefaultStyle, replies(j)).url)
    {
      var image := GeneratePinImage(cfg, headlines[i], keyword, DefaultStyle, replies(i));
      variations := variations + [PinVariation(headlines[i], image.url)];
      i := i + 1;
    }
  }

  /**
   * Without a Bannerbear key, or without a template for the default style,
   * every variation shows the Unsplash photo of the keyword.
   */
  lemma StockPhotoVariations(
    cfg: ImageConfig, keyword: string, headlines: seq<string>, replies: nat -> BannerbearReply, variations: seq<PinVariation>)
    requires !IsBannerbearConfigured(cfg) || cfg.travelTemplate == ""
    requires |variations| == |headlines|
    requires forall i :: 0 <= i < |headlines| ==>
      variations[i] == PinVariation(headlines[i], GeneratePinImage(cfg, headlines[i], keyword, DefaultStyle, replies(i)).url)
    ensures forall i :: 0 <= i < |variations| ==>
      variations[i].title == headlines[i] && variations[i].imageUrl == GetUnsplashUrl(keyword)
  {
    forall i | 0 <= i < |variations|
      ensures variations[i].imageUrl == GetUnsplashUrl(keyword)
    {
      var rendered := GenerateWithBannerbear(cfg, headlines[i], keyword, DefaultStyle, replies(i));
      assert TemplateFor(cfg, DefaultStyle) == cfg.travelTemplate;
    }
  }
}
