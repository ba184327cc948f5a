/**
 * The content tools: packaging a generated article (affiliate links, meta
 * description, tags) and the headline variations of its pins.
 */
module ContentTools {
  import opened Wrappers
  import opened Models
  import opened Text

  /** The affiliate ids read from configuration ("" when not set). */
  datatype AffiliateConfig = AffiliateConfig(bookingId: string, getYourGuideId: string)

  const MetaDescriptionLimit: nat := 155
  const Category: string := "travel"

  const HotelLink: string := "[HOTEL_LINK]"
  const TourLink: string := "[TOUR_LINK]"
  const AffiliateBooking: string := "[AFFILIATE:booking]"
  const AffiliateTours: string := "[AFFILIATE:tours]"

  const BookingSearch: string := "https://www.booking.com/searchresults.html?ss="
  const GetYourGuideSearch: string := "https://www.getyourguide.com/s/?q="

  /** A search link: the address, the term, and `param` + `id` when an id is configured. */
  function AffiliateLink(search: string, term: string, param: string, id: string): string {
    if id == "" then search + term else search + term + param + id
  }

  /**
   * The hotel search link for the keyword: the search address and the
   * escaped keyword, then "&aid=" and the id exactly when the id is
   * configured. Read back, the search term up to the first '&' unescapes
   * to the keyword and the rest is the `aid` parameter. It starts with 'h'
   * and is free of '[' when the id is.
   */
  function BookingUrl(cfg: AffiliateConfig, keyword: string): (url: string)
    ensures BookingSearch + EscapeDataString(keyword) <= url && url[0] == 'h'
    ensures '&' in url <==> cfg.bookingId != ""
    ensures '[' !in cfg.bookingId ==> '[' !in url
    ensures cfg.bookingId == "" ==> url == BookingSearch + EscapeDataString(keyword)
    ensures cfg.bookingId != "" ==> url == BookingSearch + EscapeDataString(keyword) + "&aid=" + cfg.bookingId
    ensures Unescape(Before(url[|BookingSearch|..], '&')) == keyword
    ensures From(url[|BookingSearch|..], '&') == if cfg.bookingId == "" then "" else "&aid=" + cfg.bookingId
  {
    UnescapeEscape(keyword);
    EscapedHasNoMarkup(keyword);
    SearchAddresses();
    AffiliateLinkShape(BookingSearch, EscapeDataString(keyword), "&aid=", cfg.bookingId);
    AffiliateLink(BookingSearch, EscapeDataString(keyword), "&aid=", cfg.bookingId)
  }

  /**
   * The tour search link for the keyword: the search address and the
   * escaped keyword, then "&partner_id=" and the id exactly when the id is
   * configured. Read back, the search term up to the first '&' unescapes
   * to the keyword and the rest is the `partner_id` parameter. It starts
   * with 'h' and is free of '[' when the id is.
   */
  function GetYourGuideUrl(cfg: AffiliateConfig, keyword: string): (url: string)
    ensures GetYourGuideSearch + EscapeDataString(keyword) <= url && url[0] == 'h'
    ensures '&' in url <==> cfg.getYourGuideId != ""
    ensures '[' !in cfg.getYourGuideId ==> '[' !in url
    ensures cfg.getYourGuideId == "" ==> url == GetYourGuideSearch + EscapeDataString(keyword)
    ensures cfg.getYourGuideId != "" ==>
      url == GetYourGuideSearch + EscapeDataString(keyword) + "&partner_id=" + cfg.getYourGuideId
    ensures Unescape(Before(url[|GetYourGuideSearch|..], '&')) == keyword
    ensures From(url[|GetYourGuideSearch|..], '&') ==
      if cfg.getYourGuideId == "" then "" else "&partner_id=" + cfg.getYourGuideId
  {
    UnescapeEscape(keyword);
    EscapedHasNoMarkup(keyword);
    SearchAddresses();
    AffiliateLinkShape(GetYourGuideSearch, EscapeDataString(keyword), "&partner_id=", cfg.getYourGuideId);
    AffiliateLink(GetYourGuideSearch, EscapeDataString(keyword), "&partner_id=", cfg.getYourGuideId)
  }

  /**
   * A link starts with the search address followed by the term; the
   * parameter ('&' and what follows) is there exactly when an id is given;
   * the link is free of '[' when the id is. After the search address, the
   * text up to the first '&' is the term and the rest is `param` + `id`
   * (nothing without an id).
   */
  lemma AffiliateLinkShape(search: string, term: string, param: string, id: string)
    requires '&' !in search && '[' !in search && '&' !in term && '[' !in term
    requires param != [] && param[0] == '&' && '[' !in param
    ensures search + term <= AffiliateLink(search, term, param, id)
    ensures '&' in AffiliateLink(search, term, param, id) <==> id != ""
    ensures '[' !in id ==> '[' !in AffiliateLink(search, term, param, id)
    ensures Before(AffiliateLink(search, term, param, id)[|search|..], '&') == term
    ensures From(AffiliateLink(search, term, param, id)[|search|..], '&') == if id == "" then "" else param + id
  {
    var link := AffiliateLink(search, term, param, id);
    var suffix := if id == "" then "" else param + id;
    assert link == search + (term + suffix);
    assert link[|search|..] == term + suffix;
    CutAtFirst(term, suffix, '&');
    if id != "" {
      assert link == (search + term) + (param + id);
      assert link[|search + term|] == '&';
    }
  }

  /** Text without '&' and '[': it adds no parameter and no placeholder. */
  predicate NoMarkup(s: string) {
    '&' !in s && '[' !in s
  }

  // The next four lemmas are proof steps: the solver handles the long
  // search addresses one half at a time, not as one literal.

  lemma BookingHostNoMarkup()
    ensures NoMarkup("https://www.booking.com/")
  {
  }

  lemma BookingQueryNoMarkup()
    ensures NoMarkup("searchresults.html?ss=")
  {
  }

  lemma BookingSearchHalves()
    ensures BookingSearch == "https://www.booking.com/" + "searchresults.html?ss="
  {
  }

  lemma GetYourGuideSearchNoMarkup()
    ensures NoMarkup(GetYourGuideSearch)
  {
  }

  /** The search addresses start with 'h' and hold neither '&' nor '['. */
  lemma SearchAddresses()
    ensures BookingSearch[0] == 'h' && NoMarkup(BookingSearch)
    ensures GetYourGuideSearch[0] == 'h' && NoMarkup(GetYourGuideSearch)
  {
    BookingHostNoMarkup();
    BookingQueryNoMarkup();
    BookingSearchHalves();
    GetYourGuideSearchNoMarkup();
  }

  /**
   * Each placeholder opens with its only '['; any two of them differ at
   * position 1 or, for the two AFFILIATE forms, at position 11.
   */
  lemma PlaceholderShapes()
    ensures HotelLink[0] == '[' && '[' !in HotelLink[1..]
    ensures TourLink[0] == '[' && '[' !in TourLink[1..]
    ensures AffiliateBooking[0] == '[' && '[' !in AffiliateBooking[1..]
    ensures AffiliateTours[0] == '[' && '[' !in AffiliateTours[1..]
    ensures HotelLink[1] != TourLink[1]
    ensures AffiliateBooking[1] != HotelLink[1] && AffiliateBooking[1] != TourLink[1]
    ensures AffiliateTours[1] != HotelLink[1] && AffiliateTours[1] != TourLink[1]
    ensures |AffiliateBooking| > 11 && |AffiliateTours| > 11 && AffiliateTours[11] != AffiliateBooking[11]
    ensures 'h' !in HotelLink && 'h' !in TourLink && 'h' !in AffiliateBooking && 'h' !in AffiliateTours
  {
    assert AffiliateBooking[1..] == "AFFILIATE:" + "booking]";
    assert AffiliateTours[1..] == "AFFILIATE:" + "tours]";
  }

  /** The four placeholders the generated content may hold. */
  predicate HasPlaceholder(s: string) {
    Contains(s, HotelLink) || Contains(s, TourLink) ||
    Contains(s, AffiliateBooking) || Contains(s, AffiliateTours)
  }

  /**
   * Hotel placeholders become the hotel link, tour placeholders the tour
   * link, one placeholder kind after the other. Content without placeholders
   * is returned unchanged; when the configured ids hold no '[' (the escaped
   * keyword never does), no placeholder survives.
   */
  function ReplaceAffiliatePlaceholders(cfg: AffiliateConfig, content: string, keyword: string): (r: string)
    ensures !HasPlaceholder(content) ==> r == content
    ensures '[' !in cfg.bookingId && '[' !in cfg.getYourGuideId ==> !HasPlaceholder(r)
  {
    var booking := BookingUrl(cfg, keyword);
    var tours := GetYourGuideUrl(cfg, keyword);
    var withHotels := ReplaceAll(content, HotelLink, booking);
    var withTours := ReplaceAll(withHotels, TourLink, tours);
    var withBooking := ReplaceAll(withTours, AffiliateBooking, booking);
    var r := ReplaceAll(withBooking, AffiliateTours, tours);
    assert '[' !in cfg.bookingId && '[' !in cfg.getYourGuideId ==> !HasPlaceholder(r) by {
      if '[' !in cfg.bookingId && '[' !in cfg.getYourGuideId {
        PlaceholderShapes();
        NoOccurrenceAfterReplace(content, HotelLink, booking, HotelLink);
        NoOccurrenceAfterReplace(withHotels, TourLink, tours, TourLink);
        NoOccurrenceAfterReplace(withHotels, TourLink, tours, HotelLink);
        NoOccurrenceAfterReplace(withTours, AffiliateBooking, booking, AffiliateBooking);
        NoOccurrenceAfterReplace(withTours, AffiliateBooking, booking, HotelLink);
        NoOccurrenceAfterReplace(withTours, AffiliateBooking, booking, TourLink);
        NoOccurrenceAfterReplace(withBooking, AffiliateTours, tours, AffiliateTours);
        NoOccurrenceAfterReplace(withBooking, AffiliateTours, tours, HotelLink);
        NoOccurrenceAfterReplace(withBooking, AffiliateTours, tours, TourLink);
        NoOccurrenceAfterReplace(withBooking, AffiliateTours, tours, AffiliateBooking);
      }
    }
    r
  }

  /** Text free of '[' in front of the content is kept as it is; the rest is processed on its own. */
  lemma BracketFreePrefixKept(cfg: AffiliateConfig, a: string, y: string, keyword: string)
    requires '[' !in a
    ensures ReplaceAffiliatePlaceholders(cfg, a + y, keyword) == a + ReplaceAffiliatePlaceholders(cfg, y, keyword)
  {
    PlaceholderShapes();
    var booking := BookingUrl(cfg, keyword);
    var tours := GetYourGuideUrl(cfg, keyword);
    var y1 := ReplaceAll(y, HotelLink, booking);
    var y2 := ReplaceAll(y1, TourLink, tours);
    var y3 := ReplaceAll(y2, AffiliateBooking, booking);
    ReplaceBracketFreePrefix(a, y, HotelLink, booking);
    ReplaceBracketFreePrefix(a, y1, TourLink, tours);
    ReplaceBracketFreePrefix(a, y2, AffiliateBooking, booking);
    ReplaceBracketFreePrefix(a, y3, AffiliateTours, tours);
  }

  /** A [HOTEL_LINK] at the front becomes its link; what follows is processed on its own. */
  lemma HotelLinkAtFront(cfg: AffiliateConfig, keyword: string, after: string)
    requires '[' !in cfg.bookingId
    ensures ReplaceAffiliatePlaceholders(cfg, HotelLink + after, keyword) ==
      BookingUrl(cfg, keyword) + ReplaceAffiliatePlaceholders(cfg, after, keyword)
  {
    PlaceholderShapes();
    var booking := BookingUrl(cfg, keyword);
    var tours := GetYourGuideUrl(cfg, keyword);
    var a1 := ReplaceAll(after, HotelLink, booking);
    var a2 := ReplaceAll(a1, TourLink, tours);
    var a3 := ReplaceAll(a2, AffiliateBooking, booking);
    ReplaceAtFront(HotelLink, after, booking);
    ReplaceBracketFreePrefix(booking, a1, TourLink, tours);
    ReplaceBracketFreePrefix(booking, a2, AffiliateBooking, booking);
    ReplaceBracketFreePrefix(booking, a3, AffiliateTours, tours);
  }

  /**
   * A [HOTEL_LINK] after '['-free text becomes the hotel link, and what
   * follows it is processed on its own (so stays as it is when it holds no
   * placeholder).
   */
  lemma HotelLinkBecomesBookingUrl(cfg: AffiliateConfig, keyword: string, before: string, after: string)
    requires '[' !in before && '[' !in cfg.bookingId
    ensures ReplaceAffiliatePlaceholders(cfg, before + HotelLink + after, keyword) ==
      before + BookingUrl(cfg, keyword) + ReplaceAffiliatePlaceholders(cfg, after, keyword)
    ensures !HasPlaceholder(after) ==>
      ReplaceAffiliatePlaceholders(cfg, before + HotelLink + after, keyword) == before + BookingUrl(cfg, keyword) + after
  {
    assert before + HotelLink + after == before + (HotelLink + after);
    BracketFreePrefixKept(cfg, before, HotelLink + after, keyword);
    HotelLinkAtFront(cfg, keyword, after);
    assert before + (BookingUrl(cfg, keyword) + ReplaceAffiliatePlaceholders(cfg, after, keyword)) ==
      before + BookingUrl(cfg, keyword) + ReplaceAffiliatePlaceholders(cfg, after, keyword);
  }

  /** A [TOUR_LINK] at the front becomes its link; what follows is processed on its own. */
  lemma TourLinkAtFront(cfg: AffiliateConfig, keyword: string, after: string)
    requires '[' !in cfg.getYourGuideId
    ensures ReplaceAffiliatePlaceholders(cfg, TourLink + after, keyword) ==
      GetYourGuideUrl(cfg, keyword) + ReplaceAffiliatePlaceholders(cfg, after, keyword)
  {
    PlaceholderShapes();
    var booking := BookingUrl(cfg, keyword);
    var tours := GetYourGuideUrl(cfg, keyword);
    var a1 := ReplaceAll(after, HotelLink, booking);
    var a2 := ReplaceAll(a1, TourLink, tours);
    var a3 := ReplaceAll(a2, AffiliateBooking, booking);
    ReplaceOtherBlock(TourLink, after, HotelLink, booking, 1);
    ReplaceAtFront(TourLink, a1, tours);
    ReplaceBracketFreePrefix(tours, a2, AffiliateBooking, booking);
    ReplaceBracketFreePrefix(tours, a3, AffiliateTours, tours);
  }

  /**
   * A [TOUR_LINK] after '['-free text becomes the tour link, and what
   * follows it is processed on its own.
   */
  lemma TourLinkBecomesGetYourGuideUrl(cfg: AffiliateConfig, keyword: string, before: string, after: string)
    requires '[' !in before && '[' !in cfg.getYourGuideId
    ensures ReplaceAffiliatePlaceholders(cfg, before + TourLink + after, keyword) ==
      before + GetYourGuideUrl(cfg, keyword) + ReplaceAffiliatePlaceholders(cfg, after, keyword)
    ensures !HasPlaceholder(after) ==>
      ReplaceAffiliatePlaceholders(cfg, before + TourLink + after, keyword) == before + GetYourGuideUrl(cfg, keyword) + after
  {
    assert before + TourLink + after == before + (TourLink + after);
    BracketFreePrefixKept(cfg, before, TourLink + after, keyword);
    TourLinkAtFront(cfg, keyword, after);
    assert before + (GetYourGuideUrl(cfg, keyword) + ReplaceAffiliatePlaceholders(cfg, after, keyword)) ==
      before + GetYourGuideUrl(cfg, keyword) + ReplaceAffiliatePlaceholders(cfg, after, keyword);
  }

  /** A [AFFILIATE:booking] at the front becomes its link; what follows is processed on its own. */
  lemma AffiliateBookingAtFront(cfg: AffiliateConfig, keyword: string, after: string)
    requires '[' !in cfg.bookingId
    ensures ReplaceAffiliatePlaceholders(cfg, AffiliateBooking + after, keyword) ==
      BookingUrl(cfg, keyword) + ReplaceAffiliatePlaceholders(cfg, after, keyword)
  {
    PlaceholderShapes();
    var booking := BookingUrl(cfg, keyword);
    var tours := GetYourGuideUrl(cfg, keyword);
    var a1 := ReplaceAll(after, HotelLink, booking);
    var a2 := ReplaceAll(a1, TourLink, tours);
    var a3 := ReplaceAll(a2, AffiliateBooking, booking);
    ReplaceOtherBlock(AffiliateBooking, after, HotelLink, booking, 1);
    ReplaceOtherBlock(AffiliateBooking, a1, TourLink, tours, 1);
    ReplaceAtFront(AffiliateBooking, a2, booking);
    ReplaceBracketFreePrefix(booking, a3, AffiliateTours, tours);
  }

  /**
   * An [AFFILIATE:booking] after '['-free text becomes the hotel link, and
   * what follows it is processed on its own.
   */
  lemma AffiliateBookingBecomesBookingUrl(cfg: AffiliateConfig, keyword: string, before: string, after: string)
    requires '[' !in before && '[' !in cfg.bookingId
    ensures ReplaceAffiliatePlaceholders(cfg, before + AffiliateBooking + after, keyword) ==
      before + BookingUrl(cfg, keyword) + ReplaceAffiliatePlaceholders(cfg, after, keyword)
    ensures !HasPlaceholder(after) ==>
      ReplaceAffiliatePlaceholders(cfg, before + AffiliateBooking + after, keyword) == before + BookingUrl(cfg, keyword) + after
  {
    assert before + AffiliateBooking + after == before + (AffiliateBooking + after);
    BracketFreePrefixKept(cfg, before, AffiliateBooking + after, keyword);
    AffiliateBookingAtFront(cfg, keyword, after);
    assert before + (BookingUrl(cfg, keyword) + ReplaceAffiliatePlaceholders(cfg, after, keyword)) ==
      before + BookingUrl(cfg, keyword) + ReplaceAffiliatePlaceholders(cfg, after, keyword);
  }

  /** A [AFFILIATE:tours] at the front becomes its link; what follows is processed on its own. */
  lemma AffiliateToursAtFront(cfg: AffiliateConfig, keyword: string, after: string)
    ensures ReplaceAffiliatePlaceholders(cfg, AffiliateTours + after, keyword) ==
      GetYourGuideUrl(cfg, keyword) + ReplaceAffiliatePlaceholders(cfg, after, keyword)
  {
    PlaceholderShapes();
    var booking := BookingUrl(cfg, keyword);
    var tours := GetYourGuideUrl(cfg, keyword);
    var a1 := ReplaceAll(after, HotelLink, booking);
    var a2 := ReplaceAll(a1, TourLink, tours);
    var a3 := ReplaceAll(a2, AffiliateBooking, booking);
    ReplaceOtherBlock(AffiliateTours, after, HotelLink, booking, 1);
    ReplaceOtherBlock(AffiliateTours, a1, TourLink, tours, 1);
    ReplaceOtherBlock(AffiliateTours, a2, AffiliateBooking, booking, 11);
    ReplaceAtFront(AffiliateTours, a3, tours);
  }

  /**
   * An [AFFILIATE:tours] after '['-free text becomes the tour link, and what
   * follows it is processed on its own.
   */
  lemma AffiliateToursBecomesGetYourGuideUrl(cfg: AffiliateConfig, keyword: string, before: string, after: string)
    requires '[' !in before
    ensures ReplaceAffiliatePlaceholders(cfg, before + AffiliateTours + after, keyword) ==
      before + GetYourGuideUrl(cfg, keyword) + ReplaceAffiliatePlaceholders(cfg, after, keyword)
    ensures !HasPlaceholder(after) ==>
      ReplaceAffiliatePlaceholders(cfg, before + AffiliateTours + after, keyword) == before + GetYourGuideUrl(cfg, keyword) + after
  {
    assert before + AffiliateTours + after == before + (AffiliateTours + after);
    BracketFreePrefixKept(cfg, before, AffiliateTours + after, keyword);
    AffiliateToursAtFront(cfg, keyword, after);
    assert before + (GetYourGuideUrl(cfg, keyword) + ReplaceAffiliatePlaceholders(cfg, after, keyword)) ==
      before + GetYourGuideUrl(cfg, keyword) + ReplaceAffiliatePlaceholders(cfg, after, keyword);
  }

  /** The words of the keyword, then "travel" and "europe". */
  function BuildTags(keyword: string): (tags: seq<string>)
    ensures |tags| >= 2 && tags[|tags| - 2..] == ["travel", "europe"]
    ensures forall i :: 0 <= i < |tags| ==> tags[i] != [] && ' ' !in tags[i]
  {
    Words(keyword) + ["travel", "europe"]
  }

  /**
   * The tags before "travel" and "europe" are the keyword's words: the
   * non-empty pieces between spaces, all of them, in order.
   */
  lemma TagsAreKeywordWords(keyword: string)
    ensures BuildTags(keyword)[..|BuildTags(keyword)| - 2] == Words(keyword)
    ensures Join(Split(keyword, ' '), ' ') == keyword
    ensures forall w :: w in Split(keyword, ' ') && w != [] ==> w in BuildTags(keyword)
    ensures (forall i :: 0 <= i < |Split(keyword, ' ')| ==> Split(keyword, ' ')[i] != []) ==>
      |BuildTags(keyword)| >= 3 && Join(BuildTags(keyword)[..|BuildTags(keyword)| - 2], ' ') == keyword
  {
    JoinSplit(keyword, ' ');
    var tags := BuildTags(keyword);
    assert tags[..|tags| - 2] == Words(keyword);
    forall w | w in Split(keyword, ' ') && w != [] ensures w in tags {
      NonEmptyKeeps(Split(keyword, ' '), w);
    }
    if forall i :: 0 <= i < |Split(keyword, ' ')| ==> Split(keyword, ' ')[i] != [] {
      WordsJoin(keyword);
    }
  }

  /**
   * Tags keep the keyword's word order: the tags of "a b" are the words
   * of "a" followed by the tags of "b".
   */
  lemma TagsInOrder(a: string, b: string)
    ensures BuildTags(a + " " + b) == Words(a) + BuildTags(b)
  {
    WordsAppend(a, b);
  }

  /**
   * `CreateArticleStructure`: the title passes through, the content has its
   * affiliate placeholders replaced, the meta description is cut to its
   * first 155 characters, the category is "travel" and the tags come from
   * the keyword.
   */
  function CreateArticleStructure(
    cfg: AffiliateConfig, keyword: string, articleType: string,
    title: string, content: string, metaDescription: string): (a: Article)
    ensures a.title == title && a.category == "travel"
    ensures a.content == ReplaceAffiliatePlaceholders(cfg, content, keyword)
    ensures |a.metaDescription| <= MetaDescriptionLimit
    ensures a.metaDescription <= metaDescription
    ensures a.metaDescription == metaDescription <==> |metaDescription| <= MetaDescriptionLimit
    ensures |metaDescription| > MetaDescriptionLimit ==> |a.metaDescription| == MetaDescriptionLimit
    ensures a.tags == BuildTags(keyword)
  {
    Article(
      title := title,
      content := ReplaceAffiliatePlaceholders(cfg, content, keyword),
      metaDescription := Truncate(metaDescription, MetaDescriptionLimit),
      category := Category,
      tags := BuildTags(keyword))
  }

  /** The four headline templates for a pin, the plain title first. */
  function PinHeadlineCandidates(title: string): seq<string> {
    [title, "Must See: " + title, "Your Complete Guide: " + title, "Top Picks: " + title]
  }

  /**
   * `GeneratePinHeadlines`: the first `count` templates (none when `count`
   * is not positive, all four when it is four or more).
   */
  function GeneratePinHeadlines(title: string, count: int): (r: seq<string>)
    ensures |r| == if count <= 0 then 0 else if count >= 4 then 4 else count
    ensures r <= PinHeadlineCandidates(title)
    ensures forall i :: 0 <= i < |r| ==> |title| <= |r[i]| && r[i][|r[i]| - |title|..] == title
    ensures count > 0 ==> r[0] == title
  {
    Take(PinHeadlineCandidates(title), count)
  }
}
