# PilotPine daily pipeline — a verified model

PilotPine is an Azure Functions app that writes travel articles and promotes
them on Pinterest. Every morning a timer trigger starts a durable
orchestration. It does four things:

- It picks keywords that have not been published yet.
- For each keyword it runs an article orchestration: generate the article with a language model, make pin images, publish to WordPress, create the pins.
- It saves the day's results.
- It adds the successful keywords to the published set.

This project models the decision logic of that app in Dafny and proves its
properties:

- **Orchestrations.** Activities are modelled as the outcome they finally produce: `Ok(value)` or `Throw(message)`.
- **Tools.** Content shaping, keyword selection, pin creation and image fallback.
- **State store.** A JSON-file key-value store.

## Modules

| file | module | models |
|---|---|---|
| `wrappers.dfy` | `Wrappers` | `Option` (null) and `Outcome` (a value or a thrown exception) |
| `text.dfy` | `Text` | the .NET string operations the app relies on: `String.Replace`, `Split` with and without `RemoveEmptyEntries`, `Enumerable.Take`, the truncation expression, `ToLowerInvariant`, `Uri.EscapeDataString` (percent-encoding of the UTF-8 bytes outside the RFC 3986 unreserved set, section 2.3), decimal and zero-padded number formatting; `Unescape`, a percent- and UTF-8 decoder of our own (not a .NET call), which reads escaped text back |
| `models.dfy` | `Models` | the records of `Models/*.cs` and `PinVariation`, a UTC instant, and what a state file can hold |
| `state_manager.dfy` | `StateManager` | `StateManager` as a class over a map from file path to content (serialisation is the identity) |
| `content_tools.dfy` | `ContentTools` | article packaging: affiliate links, meta description, tags, pin headlines |
| `research_tools.dfy` | `ResearchTools` | keyword selection against the published set, and marking keywords published |
| `pinterest_tools.dfy` | `PinterestTools` | one pin (configuration guard, request, reply handling) and a rate-limited batch |
| `image_tools.dfy` | `ImageTools` | Bannerbear rendering with the Unsplash fallback, and one variation per headline |
| `daily_orchestrator.dfy` | `DailyOrchestrator` | the triggers, both orchestrations, the aggregation and the activities |

HTTP exchanges are values: the reply a service gives to the request sent.
When a batch makes several requests, request `i` gets reply `replies(i)`.
The clock is a parameter (`now`, `today`). Each orchestration returns the
list of calls it made, so the order of steps and the inputs handed on are
stated about its result.

## Model

| member | source | states |
|---|---|---|
| StateManager.FilePath | src/PilotPine.Functions/Infrastructure/StateManager.cs:101 | A key's file is `<base>/<key>.json` (Path.Combine: a rooted key replaces the base); over a base that is not rooted, the path is rooted exactly when the key is |
| StateManager.FilePathInjective | src/PilotPine.Functions/Infrastructure/StateManager.cs:101 | Distinct keys give distinct path strings unless base and a key are both rooted |
| StateManager.RootedKeysCanCollide | src/PilotPine.Functions/Infrastructure/StateManager.cs:101 | With a rooted base, a rooted key can name another key's file |
| StateManager.SaveKeepsOtherKeys | src/PilotPine.Functions/Infrastructure/StateManager.cs:40-54 | Saving one key does not change what any other key (other path string) loads |
| StateManager.StateStore.Save | src/PilotPine.Functions/Infrastructure/StateManager.cs:40-54 | Only the key's file changes, and it then holds the data |
| StateManager.StateStore.Load | src/PilotPine.Functions/Infrastructure/StateManager.cs:59-71 | Returns the stored value, or None exactly when the file does not exist |
| StateManager.StateStore.LoadOrCreate | src/PilotPine.Functions/Infrastructure/StateManager.cs:76-85 | A present value is returned with no write and no factory value; otherwise the factory value is saved and returned |
| StateManager.StateStore.Update | src/PilotPine.Functions/Infrastructure/StateManager.cs:91-97 | The transform applies to the stored value, or to the default when absent; the result is both saved and returned |
| StateManager.StateStore.Exists | src/PilotPine.Functions/Infrastructure/StateManager.cs:99 | True exactly when the key's file exists |
| StateManager.SaveThenLoad | src/PilotPine.Functions/Infrastructure/StateManager.cs:40-71 | Load after Save gives back the saved value, and the key then exists |
| Text.Truncate | src/PilotPine.Functions/Tools/PinterestTools.cs:173-174 | At most `maxLength` characters, a prefix of the input, equal to the input exactly when the input fits, and exactly `maxLength` characters long when it does not |
| Text.TruncateIdempotent | src/PilotPine.Functions/Tools/PinterestTools.cs:173-174 | Truncating twice is truncating once |
| Text.Utf16Length | src/PilotPine.Functions/Tools/PinterestTools.cs:174 | The .NET length is at least the number of characters, and equal to it exactly when every character is in the Basic Multilingual Plane |
| Text.TruncateMatchesUtf16 | src/PilotPine.Functions/Tools/PinterestTools.cs:173-174 | On text inside the Basic Multilingual Plane, the cut fits `maxLength` .NET code units and keeps the text whole exactly when its .NET length fits |
| Text.Take | src/PilotPine.Functions/Tools/ResearchTools.cs:43 | The first `count` elements: none for a count that is not positive, all for a count that is at least the length |
| Text.Split | src/PilotPine.Functions/Tools/ContentTools.cs:100 | At least one piece, and no piece contains the separator |
| Text.JoinSplit | src/PilotPine.Functions/Tools/ContentTools.cs:100 | Joining the pieces with the separator gives back the input |
| Text.NonEmpty | src/PilotPine.Functions/Tools/ContentTools.cs:100 | RemoveEmptyEntries keeps only non-empty pieces, all from the input |
| Text.NonEmptyKeeps | src/PilotPine.Functions/Tools/ContentTools.cs:100 | Every non-empty piece is kept |
| Text.NonEmptyAppend | src/PilotPine.Functions/Tools/ContentTools.cs:100 | RemoveEmptyEntries filters a concatenation as it filters its two parts, so the order of the pieces is kept |
| Text.NonEmptySingleton | src/PilotPine.Functions/Tools/ContentTools.cs:100 | A single piece is dropped exactly when it is empty |
| Text.NonEmptyAllKept | src/PilotPine.Functions/Tools/ContentTools.cs:100 | Without empty pieces, nothing is dropped |
| Text.SplitAppend | src/PilotPine.Functions/Tools/ContentTools.cs:100 | Splitting `a + sep + b` gives the pieces of `a` followed by those of `b` |
| Text.WordsAppend | src/PilotPine.Functions/Tools/ContentTools.cs:100 | The words of `a + " " + b` are those of `a` followed by those of `b` |
| Text.WordsJoin | src/PilotPine.Functions/Tools/ContentTools.cs:100 | Text without leading, trailing or doubled spaces has at least one word, and joining its words with spaces gives it back |
| Text.ToLower | src/PilotPine.Functions/Tools/ResearchTools.cs:65 | Same length; each character lower-cased, ASCII letters only |
| Text.ToLowerIdempotent | src/PilotPine.Functions/Tools/ResearchTools.cs:65 | Lower-casing twice is lower-casing once |
| Text.EscapeDataString | src/PilotPine.Functions/Tools/ContentTools.cs:78 | Every output character is unreserved, '%' or an upper-case hex digit |
| Text.EscapedHasNoMarkup | src/PilotPine.Functions/Tools/ContentTools.cs:78 | Escaped text contains neither '[' nor '&' |
| Text.EscapeUnreserved | src/PilotPine.Functions/Tools/ImageTools.cs:136 | Text made of unreserved characters is left unchanged |
| Text.EscapeAppend | src/PilotPine.Functions/Tools/ImageTools.cs:136 | Escaping goes character by character: a concatenation escapes as its two parts |
| Text.EscapeWords | src/PilotPine.Functions/Tools/ImageTools.cs:136 | Text of unreserved characters and spaces escapes to itself with each space written "%20" |
| Text.UnescapeEscape | src/PilotPine.Functions/Tools/ImageTools.cs:136 | Percent-decoding and UTF-8 decoding the escaped text gives back the text: escaping loses nothing |
| Text.EscapeInjective | src/PilotPine.Functions/Tools/ContentTools.cs:78 | Two texts escape to the same text exactly when they are equal |
| Text.CutAtFirst | src/PilotPine.Functions/Tools/ContentTools.cs:83-89 | Text without `c` followed by text that is empty or starts with `c` is cut at the first `c` exactly where they meet |
| Text.ReplaceAll | src/PilotPine.Functions/Tools/ContentTools.cs:91-95 | Ordinal `String.Replace`: a string without the pattern comes back unchanged |
| Text.ReplaceAtFront | src/PilotPine.Functions/Tools/ContentTools.cs:91-95 | An occurrence at the front becomes the replacement, and the scan goes on after it |
| Text.ReplaceBracketFreePrefix | src/PilotPine.Functions/Tools/ContentTools.cs:91-95 | Text without '[' in front is copied unchanged when a '['-opening pattern is replaced; only the rest is rewritten |
| Text.ReplaceOtherBlock | src/PilotPine.Functions/Tools/ContentTools.cs:91-95 | A block opening with its only '[' is copied unchanged when a pattern differing from it is replaced |
| Text.NoOccurrenceAfterReplace | src/PilotPine.Functions/Tools/ContentTools.cs:91-95 | Replacing a '['-opening pattern by '['-free text leaves no occurrence of it, nor of any other such pattern absent before |
| Text.PaddedDecimalRoundTrip | src/PilotPine.Functions/Functions/DailyOrchestrator.cs:63 | A number that fits the width, zero-padded and parsed back, is itself |
| Text.IntToString | src/PilotPine.Functions/Tools/PinterestTools.cs:90 | A non-negative status code prints as digits that parse back to it; a negative one starts with '-' |
| ContentTools.BookingUrl | src/PilotPine.Functions/Tools/ContentTools.cs:78-85 | The booking search address plus the escaped keyword, followed by `&aid=<id>` exactly when the booking id is configured. Read back, the text after the address up to the first '&' unescapes to the keyword, and the rest is `&aid=<id>` or nothing. Starts with 'h'; '['-free when the id is |
| ContentTools.GetYourGuideUrl | src/PilotPine.Functions/Tools/ContentTools.cs:78-89 | The GetYourGuide search address plus the escaped keyword, followed by `&partner_id=<id>` exactly when the GetYourGuide id is configured. Read back, the text after the address up to the first '&' unescapes to the keyword, and the rest is `&partner_id=<id>` or nothing. Starts with 'h'; '['-free when the id is |
| ContentTools.AffiliateLinkShape | src/PilotPine.Functions/Tools/ContentTools.cs:83-89 | A link starts with address and term; after the address, the text up to the first '&' is the term and the rest is the parameter followed by the id, or nothing when no id is given |
| ContentTools.ReplaceAffiliatePlaceholders | src/PilotPine.Functions/Tools/ContentTools.cs:76-96 | Content without any of the four placeholders is returned unchanged; with '['-free ids, no placeholder remains, whatever the content |
| ContentTools.BracketFreePrefixKept | src/PilotPine.Functions/Tools/ContentTools.cs:91-95 | '['-free text in front of the content is kept, and the rest is processed on its own |
| ContentTools.HotelLinkBecomesBookingUrl | src/PilotPine.Functions/Tools/ContentTools.cs:91-95 | [HOTEL_LINK] anywhere after '['-free text becomes the booking link, and the text after it is processed on its own; text after it without placeholders is kept as it is |
| ContentTools.TourLinkBecomesGetYourGuideUrl | src/PilotPine.Functions/Tools/ContentTools.cs:91-95 | [TOUR_LINK] anywhere after '['-free text becomes the GetYourGuide link, and the text after it is processed on its own; text after it without placeholders is kept as it is |
| ContentTools.AffiliateBookingBecomesBookingUrl | src/PilotPine.Functions/Tools/ContentTools.cs:91-95 | [AFFILIATE:booking] anywhere after '['-free text becomes the booking link, and the text after it is processed on its own; text after it without placeholders is kept as it is |
| ContentTools.AffiliateToursBecomesGetYourGuideUrl | src/PilotPine.Functions/Tools/ContentTools.cs:91-95 | [AFFILIATE:tours] anywhere after '['-free text becomes the GetYourGuide link, and the text after it is processed on its own; text after it without placeholders is kept as it is |
| ContentTools.BuildTags | src/PilotPine.Functions/Tools/ContentTools.cs:98-102 | The last two tags are "travel" and "europe"; no tag is empty or holds a space |
| ContentTools.TagsAreKeywordWords | src/PilotPine.Functions/Tools/ContentTools.cs:98-102 | The tags before "travel" and "europe" are the keyword's words (its non-empty space-separated pieces), and every non-empty piece is a tag; for a keyword without leading, trailing or doubled spaces, joining those tags with spaces gives back the keyword |
| ContentTools.TagsInOrder | src/PilotPine.Functions/Tools/ContentTools.cs:98-102 | The tags keep the keyword's word order: the tags of `a + " " + b` are the words of `a` followed by the tags of `b` |
| ContentTools.CreateArticleStructure | src/PilotPine.Functions/Tools/ContentTools.cs:31-54 | Title passes through and category is "travel"; the meta description is at most 155 characters, a prefix of the input, equal to it exactly when it fits, and exactly 155 characters when it does not; placeholders are replaced; tags are built from the keyword |
| ContentTools.GeneratePinHeadlines | src/PilotPine.Functions/Tools/ContentTools.cs:57-70 | The first `min(max(count, 0), 4)` of the four templates; each ends with the title, the first is the title itself |
| ResearchTools.SeedKeywords | src/PilotPine.Functions/Tools/ResearchTools.cs:77-89 | The ten seed keywords, in order |
| ResearchTools.PublishedSet | src/PilotPine.Functions/Tools/ResearchTools.cs:35-36 | A missing published-keywords file reads as the empty set; a file of another shape throws |
| ResearchTools.Unpublished | src/PilotPine.Functions/Tools/ResearchTools.cs:41-42 | The keywords kept are exactly those whose lower-cased form is not published |
| ResearchTools.SelectKeywords | src/PilotPine.Functions/Tools/ResearchTools.cs:41-44 | At most `count` results, none published, all from the list; a short result left out no unpublished keyword; the result is a prefix of the unpublished keywords in list order, of length `min(count, available)` (0 for a count that is not positive) |
| ResearchTools.UnpublishedAppend | src/PilotPine.Functions/Tools/ResearchTools.cs:41-42 | Filtering a concatenation filters its two parts, so the list order is kept |
| ResearchTools.UnpublishedSingleton | src/PilotPine.Functions/Tools/ResearchTools.cs:41-42 | A single keyword is dropped exactly when it is published |
| ResearchTools.UnpublishedUnion | src/PilotPine.Functions/Tools/ResearchTools.cs:41-44 | Filtering by a union is filtering twice: publishing more only removes, and keeps the order |
| ResearchTools.NothingPublished | src/PilotPine.Functions/Tools/ResearchTools.cs:35-44 | With nothing published, the result is the first `count` seeds |
| ResearchTools.GetKeywords | src/PilotPine.Functions/Tools/ResearchTools.cs:31-53 | The first `count` unpublished seeds; throws exactly when the state file is not a set; reads the store without changing it |
| ResearchTools.Marked | src/PilotPine.Functions/Tools/ResearchTools.cs:60-68 | The old set plus the lower-cased keyword, nothing else |
| ResearchTools.MarkAsPublished | src/PilotPine.Functions/Tools/ResearchTools.cs:57-71 | The published set gains the lower-cased keyword (starting empty when absent); a file of another shape throws and nothing is written |
| ResearchTools.MarkedNotSelected | src/PilotPine.Functions/Tools/ResearchTools.cs:35-44 | After marking, no keyword equal to it in lower case is selected |
| ResearchTools.MarkThenSelect | src/PilotPine.Functions/Tools/ResearchTools.cs:60-68 | Marking is idempotent, and the seed list never offers a marked keyword again |
| PinterestTools.IsConfigured | src/PilotPine.Functions/Tools/PinterestTools.cs:37 | Configured exactly when both the access token and the default board are set |
| PinterestTools.BuildPinRequest | src/PilotPine.Functions/Tools/PinterestTools.cs:61-72 | Title at most 100 characters and description at most 500, each a prefix kept whole when it fits and cut to exactly the limit when it does not; the board is the given one or the default; source type "image_url" |
| PinterestTools.CreatePin | src/PilotPine.Functions/Tools/PinterestTools.cs:42-108 | Unconfigured: not-configured error and no request. Otherwise the built request is sent. Success exactly on a 2xx status whose JSON reads, with pin id the response id or "". A non-2xx status gives "HTTP <code>: <body>", or the exception's message when the body cannot be read; a send or JSON read that throws gives its message. Failures are reported, never thrown |
| PinterestTools.EffectiveDelay | src/PilotPine.Functions/Tools/PinterestTools.cs:119-120 | A zero delay becomes 30 seconds; others are kept |
| PinterestTools.CreatePinsWithRateLimit | src/PilotPine.Functions/Tools/PinterestTools.cs:113-146 | One result per variation, in order, from its title and image and the shared description and link; the events are the batch schedule |
| PinterestTools.BatchEventsAlternate | src/PilotPine.Functions/Tools/PinterestTools.cs:124-136 | Attempts and waits alternate: attempt j at position 2j, a wait at each odd position, every variation attempted whatever earlier pins returned |
| PinterestTools.BatchWaits | src/PilotPine.Functions/Tools/PinterestTools.cs:124-127 | n variations wait `max(n - 1, 0)` times |
| PinterestTools.SuccessCount | src/PilotPine.Functions/Functions/DailyOrchestrator.cs:210 | The count of successful pins is at most their number, is 0 exactly when none succeeded, and is the number of pins exactly when all succeeded |
| PinterestTools.SuccessCountAppend | src/PilotPine.Functions/Functions/DailyOrchestrator.cs:210 | The count of a concatenation adds the counts of its parts |
| PinterestTools.SuccessCountSingleton | src/PilotPine.Functions/Functions/DailyOrchestrator.cs:210 | A single pin counts one when successful, none otherwise |
| PinterestTools.UnconfiguredBatch | src/PilotPine.Functions/Tools/PinterestTools.cs:49-57 | Without configuration every pin of a batch fails with the not-configured error |
| ImageTools.IsBannerbearConfigured | src/PilotPine.Functions/Tools/ImageTools.cs:40 | Configured exactly when the Bannerbear key is set |
| ImageTools.TemplateFor | src/PilotPine.Functions/Tools/ImageTools.cs:31-37 | The three styles map to their templates; any other style gets "" |
| ImageTools.GetUnsplashUrl | src/PilotPine.Functions/Tools/ImageTools.cs:134-138 | The Unsplash address followed by the escaped keyword, which consists of escaped characters only and unescapes back to the keyword |
| ImageTools.UnsplashUrlInjective | src/PilotPine.Functions/Tools/ImageTools.cs:134-138 | Two keywords get the same photo address exactly when they are equal |
| ImageTools.UnsplashUrlOfPlainKeyword | src/PilotPine.Functions/Tools/ImageTools.cs:134-138 | A keyword of unreserved words separated by spaces, as every seed keyword is, appears in the address with each space written "%20"; one without spaces appears as it is |
| ImageTools.GenerateWithBannerbear | src/PilotPine.Functions/Tools/ImageTools.cs:83-128 | A style without a template: None and no request. Otherwise the request carries the template, the headline and the Unsplash background. An address comes back only on a 2xx status with an address in the body; everything else gives None |
| ImageTools.GeneratePinImage | src/PilotPine.Functions/Tools/ImageTools.cs:45-58 | Unconfigured: the Unsplash address, no request. Configured: the Bannerbear request is sent, and its address is used whenever it yields one, the Unsplash address otherwise; an address always comes back |
| ImageTools.GeneratePinVariations | src/PilotPine.Functions/Tools/ImageTools.cs:63-81 | One variation per headline, in order, titled with it and showing its image |
| ImageTools.StockPhotoVariations | src/PilotPine.Functions/Tools/ImageTools.cs:50-57 | Without a key, or without a travel template, every image is the keyword's Unsplash photo |
| DailyOrchestrator.FormatDate | src/PilotPine.Functions/Functions/DailyOrchestrator.cs:63 | `yyyy-MM-dd`: ten characters, dashes at 4 and 7; for a valid instant the fields read back as year, month and day |
| DailyOrchestrator.FormatTime | src/PilotPine.Functions/Functions/DailyOrchestrator.cs:87 | `HHmmss`: six digits; for a valid instant the fields read back as hour, minute and second |
| DailyOrchestrator.DailyInstanceId | src/PilotPine.Functions/Functions/DailyOrchestrator.cs:63 | "daily-" followed by the date text, which can be read back from the id |
| DailyOrchestrator.ManualInstanceId | src/PilotPine.Functions/Functions/DailyOrchestrator.cs:87 | "manual-", the date text, "-" and the time text, both of which can be read back from the id |
| DailyOrchestrator.FormatDateInjective | src/PilotPine.Functions/Functions/DailyOrchestrator.cs:63 | Two valid instants give the same yyyy-MM-dd exactly when they share the day |
| DailyOrchestrator.FormatTimeInjective | src/PilotPine.Functions/Functions/DailyOrchestrator.cs:87 | Two valid instants give the same HHmmss exactly when they share the second of the day |
| DailyOrchestrator.ManualInstanceIdPerSecond | src/PilotPine.Functions/Functions/DailyOrchestrator.cs:87 | Two manual runs share an id exactly when they start in the same second |
| DailyOrchestrator.DailyInstanceIdPerDay | src/PilotPine.Functions/Functions/DailyOrchestrator.cs:63 | One daily id per day, never equal to a manual id (line 87) |
| DailyOrchestrator.DailyTrigger | src/PilotPine.Functions/Functions/DailyOrchestrator.cs:59-79 | Schedules nothing exactly when the day's instance is Running; otherwise schedules MainOrchestration under "daily-<date>" with 3 articles |
| DailyOrchestrator.DailyTriggerOncePerDay | src/PilotPine.Functions/Functions/DailyOrchestrator.cs:63-70 | While a day's run is Running, every later firing that day schedules nothing |
| DailyOrchestrator.WriteAsJson | src/PilotPine.Functions/Functions/DailyOrchestrator.cs:95 | Writing a JSON body without a status code sets the status to 200 and the body to the value |
| DailyOrchestrator.ManualTrigger | src/PilotPine.Functions/Functions/DailyOrchestrator.cs:83-98 | Always schedules one article under "manual-<date>-<time>"; the response is created as 202, but the JSON write sets it to 200, so the caller gets 200 with the id and "started" |
| DailyOrchestrator.ProcessArticle | src/PilotPine.Functions/Functions/DailyOrchestrator.cs:145-231 | Calls follow the fixed order generate, images, publish, pins, each after the previous one returned. The run stops early only on a thrown message or a publish that reports failure; four calls that all return give success. A thrown message ends the article as a failure, and nothing escapes. A failure has no post and no pins |
| DailyOrchestrator.ArticleDataFlow | src/PilotPine.Functions/Functions/DailyOrchestrator.cs:165-208 | Images get the generated title and the keyword; publish gets the generated article; pins get the post address, the meta description and the images |
| DailyOrchestrator.PublishSoftFailure | src/PilotPine.Functions/Functions/DailyOrchestrator.cs:186-195 | A publish that reports failure ends the article with that error, and create-pins is never called |
| DailyOrchestrator.ArticleSuccess | src/PilotPine.Functions/Functions/DailyOrchestrator.cs:210-219 | Success exactly when all four activities return and publish succeeded; the post address is passed on and the pin count is the successful pins, at most their number |
| DailyOrchestrator.AllStepsSucceed | src/PilotPine.Functions/Functions/DailyOrchestrator.cs:165-219 | When every activity returns and publish succeeds: exactly the four calls, and a success with the post address and the count of successful pins |
| DailyOrchestrator.Published | src/PilotPine.Functions/Functions/DailyOrchestrator.cs:138 | The count of successful results is at most their number, is 0 exactly when none succeeded, and is their number exactly when all succeeded |
| DailyOrchestrator.TotalPins | src/PilotPine.Functions/Functions/DailyOrchestrator.cs:139 | The pin sum is not negative when no article reports a negative count |
| DailyOrchestrator.Errors | src/PilotPine.Functions/Functions/DailyOrchestrator.cs:140 | Every listed error is the error of a failed result, and the error of every failed result is listed |
| DailyOrchestrator.Aggregate | src/PilotPine.Functions/Functions/DailyOrchestrator.cs:135-141 | The summary carries the run time, the count of successes, the pin sum and the errors of failures; published count + errors = number of results |
| DailyOrchestrator.PublishedPlusErrors | src/PilotPine.Functions/Functions/DailyOrchestrator.cs:135-141 | ArticlesPublished + number of errors = number of results |
| DailyOrchestrator.AggregateSingleton | src/PilotPine.Functions/Functions/DailyOrchestrator.cs:138-140 | One result counts one when successful, adds its pins, and lists its error when failed; with `AggregateAppend` this fixes the three summaries of every list |
| DailyOrchestrator.AggregateAppend | src/PilotPine.Functions/Functions/DailyOrchestrator.cs:135-141 | Count, pin sum and errors of a concatenation combine those of its parts, errors in order |
| DailyOrchestrator.ArticleResults | src/PilotPine.Functions/Functions/DailyOrchestrator.cs:120-127 | One result per keyword, in order, each for that keyword |
| DailyOrchestrator.MainOrchestration | src/PilotPine.Functions/Functions/DailyOrchestrator.cs:105-142 | Keywords first, one article orchestration per keyword in order, then the save, then the summary; a throwing keyword or save activity fails the run |
| DailyOrchestrator.MainSummary | src/PilotPine.Functions/Functions/DailyOrchestrator.cs:135-141 | Published + errors = number of keywords, whatever each article did; the pin total is not negative |
| DailyOrchestrator.ArticleIsolation | src/PilotPine.Functions/Functions/DailyOrchestrator.cs:120-127 | An article's result depends only on its own activities |
| DailyOrchestrator.GetKeywordsActivity | src/PilotPine.Functions/Functions/DailyOrchestrator.cs:237-243 | Exactly the research tool's selection: the first `count` unpublished seeds; at most `count`; throws exactly when the state file is not a set |
| DailyOrchestrator.GeneratePinImagesActivity | src/PilotPine.Functions/Functions/DailyOrchestrator.cs:281-288 | Three variations, titled with the first three headline templates (the first is the article title), each with its image |
| DailyOrchestrator.PublishToWordPressActivity | src/PilotPine.Functions/Functions/DailyOrchestrator.cs:290-302 | A title already on the blog gives the duplicate soft failure and nothing is posted; otherwise the blog's answer |
| DailyOrchestrator.DuplicateTitleStopsArticle | src/PilotPine.Functions/Functions/DailyOrchestrator.cs:295-299 | A duplicate title fails the article with "Article with similar title already exists", and no pins are created |
| DailyOrchestrator.CreatePinsActivity | src/PilotPine.Functions/Functions/DailyOrchestrator.cs:304-314 | One pin result per variation, with the default 30-second wait between pins |
| DailyOrchestrator.SuccessKeywords | src/PilotPine.Functions/Functions/DailyOrchestrator.cs:324-326 | Exactly the lower-cased keywords of the successful results |
| DailyOrchestrator.AddKeywords | src/PilotPine.Functions/Functions/DailyOrchestrator.cs:328-337 | Adding keywords one by one gives old set ∪ keywords: nothing removed, nothing else added |
| DailyOrchestrator.SaveResultsActivity | src/PilotPine.Functions/Functions/DailyOrchestrator.cs:316-341 | The results are saved under "daily-results/<today>". The published set then gains the successful keywords. If that file is not a set, the activity throws after the results were saved |
| DailyOrchestrator.SavedKeywordsNotSelectedAgain | src/PilotPine.Functions/Functions/DailyOrchestrator.cs:324-337 | The new set is old ∪ lower-cased successful keywords; the next selection offers none of them |

## Left out

- The durable engine is not modelled: replay, checkpoints, instance status, and the retries with their backoff. Each activity is the outcome it finally produces. The retry settings are only recorded on the calls, and the backoff coefficients are `real`.
- `GenerateArticleActivity` is not modelled. It is a language-model call with a clock-dependent fallback title, so it is an abstract outcome (`ArticleActivities.generate`).
- WordPressTools.cs is not part of this model. `PublishToWordPressActivity` takes the duplicate check and the publish answer as parameters.
- HTTP, JSON, authentication headers and logging are not modelled. A reply is a value. A body whose read throws is a `Throw`: the text read of an error body, and the JSON read of a success body, are separate outcomes of a reply. A JSON `null` file content, which `LoadOrCreate`/`Update` would treat as missing, cannot be stored.
- `GetBoardsAsync` is not modelled; it is not used by the pipeline.
- Wall-clock time and `Task.Delay` are inputs: the instants are parameters and waits are events. Waits are in ticks (100 ns) and are never negative. The dates are not checked against the days of each month.
- `StateManager.StateStore.Save`: the write to a temporary file followed by a move is one map update. Crashes between the two steps, and directory creation, are not modelled.
- Text.ToLower: lower-cases ASCII letters only, because `ToLowerInvariant` on other scripts is not modelled.
- Text.EscapeDataString: strings are sequences of Unicode scalar values, so the lone surrogates that .NET refuses to escape cannot occur.
- `SaveResultsActivity` adds keywords with `HashSet.Add`, an in-place update inside the `UpdateAsync` transform. It is modelled by a function (`AddKeywords`) handed to `Update`, because Dafny transforms are functions.
- DailyOrchestrator.TotalPins: the sum uses unbounded integers; a 32-bit overflow of `Sum` is not modelled.
- DailyOrchestrator.DailyTrigger: like the source, it only guards against Running. An instance that is Pending or Suspended does not stop a new schedule.
- ImageTools.GeneratePinVariations: the article title parameter is unused, as in the source.
- Text.Truncate: counts characters (Unicode scalar values), while .NET's `Length` and range count UTF-16 code units. On text with characters outside the Basic Multilingual Plane, .NET cuts earlier and can leave a lone high surrogate, which a Dafny string cannot hold. `Text.TruncateMatchesUtf16` states that the two agree on text inside that plane.
- ContentTools.CreateArticleStructure: the 155 limit of the meta description is counted in characters, not UTF-16 code units (see `Text.Truncate`).
- PinterestTools.BuildPinRequest: the 100 and 500 limits of title and description are counted in characters, not UTF-16 code units (see `Text.Truncate`).
- StateManager.SaveKeepsOtherKeys: keys are told apart as path strings. Keys that the file system resolves to one file ("x" and "./x", "a/../x", or names differing only in case on a case-insensitive disk) are different keys here, although in the source saving one changes what the other loads.
- StateManager.FilePath: `Path.Combine` is modelled as on Linux: '/' is the only separator and a key is rooted when it starts with '/'. On Windows, `\` separators, drive roots ("C:") and UNC paths would change when a key replaces the base; they are not modelled.
- StateManager.StateStore: the stored type stands for a reference type, as at every call site (`HashSet<string>`, `List<ArticleResult>`), so a missing file loads as null (`None`). For a value type, `LoadAsync` would return `default(T)`, and `LoadOrCreateAsync`/`UpdateAsync` would then use it instead of the factory or the default value.
- DailyOrchestrator.WriteAsJson: that the JSON write sets the status to 200 is the documented behaviour of the isolated worker's `HttpResponseData` extension, which is outside the repository.
