/**
 * The research tools: the keywords still to be written about, and the record
 * of keywords already published, kept in the state store as a set of
 * lower-cased keywords under "published-keywords".
 */
module ResearchTools {
  import opened Wrappers
  import opened Models
  import opened Text
  import opened StateManager

  const PublishedKeywordsKey: string := "published-keywords"

  /** The static seed list, in its order. */
  function SeedKeywords(): (seeds: seq<KeywordResult>)
    ensures |seeds| == 10
  {
    [
      KeywordResult("hidden beaches portugal", "listicle", "medium", "low"),
      KeywordResult("budget travel europe 2025", "guide", "high", "medium"),
      KeywordResult("best hiking trails switzerland", "listicle", "medium", "medium"),
      KeywordResult("romantic hotels paris", "listicle", "high", "high"),
      KeywordResult("greek islands guide", "guide", "high", "medium"),
      KeywordResult("amsterdam travel tips", "guide", "medium", "low"),
      KeywordResult("best hostels barcelona", "listicle", "medium", "low"),
      KeywordResult("iceland road trip", "guide", "high", "medium"),
      KeywordResult("italian coastal towns", "listicle", "medium", "low"),
      KeywordResult("scotland castles visit", "listicle", "low", "low")
    ]
  }

  /**
   * The published set as `GetKeywords` and `MarkAsPublished` read it: an
   * absent file is the empty set, a file of another shape throws.
   */
  function PublishedSet(stored: Option<StoredState>): (r: Outcome<set<string>>)
    ensures stored.None? ==> r == Ok({})
    ensures r.Throw? <==> stored.Some? && !stored.value.KeywordSet?
    ensures r.Ok? && stored.Some? ==> stored.value == KeywordSet(r.value)
  {
    match AsKeywordSet(stored)
    case Ok(None) => Ok({})
    case Ok(Some(s)) => Ok(s)
    case Throw(msg) => Throw(msg)
  }

  /** Whether a keyword counts as published: its lower-cased form is in the set. */
  predicate IsPublished(k: KeywordResult, published: set<string>) {
    ToLower(k.keyword) in published
  }

  /** The keywords that are not published, in their order. */
  function Unpublished(keywords: seq<KeywordResult>, published: set<string>): (r: seq<KeywordResult>)
    ensures |r| <= |keywords|
    ensures forall k :: k in r <==> k in keywords && !IsPublished(k, published)
    decreases |keywords|
  {
    if keywords == [] then []
    else if IsPublished(keywords[0], published) then Unpublished(keywords[1..], published)
    else [keywords[0]] + Unpublished(keywords[1..], published)
  }

  /** Filtering works piece by piece: a list filters as its two halves do. */
  lemma {:induction false} UnpublishedAppend(a: seq<KeywordResult>, b: seq<KeywordResult>, published: set<string>)
    ensures Unpublished(a + b, published) == Unpublished(a, published) + Unpublished(b, published)
    decreases |a|
  {
    if a == [] {
      assert a + b == b;
    } else {
      assert (a + b)[1..] == a[1..] + b;
      UnpublishedAppend(a[1..], b, published);
    }
  }

  /** A single keyword is dropped when published and kept otherwise. */
  lemma UnpublishedSingleton(k: KeywordResult, published: set<string>)
    ensures Unpublished([k], published) == if IsPublished(k, published) then [] else [k]
  {
    assert [k][1..] == [];
  }

  /**
   * The selection of `GetKeywords`: the first `count` unpublished keywords.
   * It holds at most `count` keywords, none of them published, all from the
   * list; and it is short only when no unpublished keyword was left out.
   */
  function SelectKeywords(keywords: seq<KeywordResult>, published: set<string>, count: int): (r: seq<KeywordResult>)
    ensures |r| <= if count <= 0 then 0 else count
    ensures forall k :: k in r ==> k in keywords && !IsPublished(k, published)
    ensures |r| < count ==> forall k :: k in keywords && !IsPublished(k, published) ==> k in r
    ensures r <= Unpublished(keywords, published)
    ensures |r| == if count <= 0 then 0
      else if count >= |Unpublished(keywords, published)| then |Unpublished(keywords, published)| else count
  {
    var all := Unpublished(keywords, published);
    var r := Take(all, count);
    assert forall k :: k in r ==> k in all by {
      forall k | k in r ensures k in all {
        var i :| 0 <= i < |r| && r[i] == k;
        assert all[i] == k;
      }
    }
    r
  }

  /**
   * Filtering by the union of two sets is filtering by one and then by the
   * other: publishing more keywords only removes from the list, keeping the
   * order of the rest.
   */
  lemma {:induction false} UnpublishedUnion(keywords: seq<KeywordResult>, p: set<string>, q: set<string>)
    ensures Unpublished(keywords, p + q) == Unpublished(Unpublished(keywords, p), q)
    decreases |keywords|
  {
    if keywords != [] {
      UnpublishedUnion(keywords[1..], p, q);
      if !IsPublished(keywords[0], p) {
        var rest := Unpublished(keywords[1..], p);
        assert ([keywords[0]] + rest)[1..] == rest;
      }
    }
  }

  /** With nothing published, the selection is the first `count` keywords. */
  lemma {:induction false} NothingPublished(keywords: seq<KeywordResult>, count: int)
    ensures Unpublished(keywords, {}) == keywords
    ensures SelectKeywords(keywords, {}, count) == Take(keywords, count)
    decreases |keywords|
  {
    if keywords != [] {
      NothingPublished(keywords[1..], count);
      assert [keywords[0]] + keywords[1..] == keywords;
    }
  }

  /** The published set after marking `keyword`. */
  function Marked(published: set<string>, keyword: string): (r: set<string>)
    ensures published <= r && ToLower(keyword) in r
    ensures |r - published| <= 1
  {
    published + {ToLower(keyword)}
  }

  /**
   * Once a keyword is marked, no keyword that reads the same in lower case
   * is selected again; every other selection is the earlier unpublished list
   * with that keyword filtered out.
   */
  lemma MarkedNotSelected(keywords: seq<KeywordResult>, published: set<string>, keyword: string, count: int)
    ensures forall k :: k in SelectKeywords(keywords, Marked(published, keyword), count) ==>
      ToLower(k.keyword) != ToLower(keyword)
    ensures Unpublished(keywords, Marked(published, keyword)) ==
      Unpublished(Unpublished(keywords, published), {ToLower(keyword)})
  {
    UnpublishedUnion(keywords, published, {ToLower(keyword)});
  }

  /** The stored value after marking: a published set gains the lower-cased keyword. */
  function MarkState(state: StoredState, keyword: string): StoredState {
    match state
    case KeywordSet(s) => KeywordSet(Marked(s, keyword))
    case ResultList(_) => state
  }

  /**
   * `GetKeywords`: the first `count` seed keywords whose lower-cased form is
   * not in the published set; a published-keywords file that does not hold
   * a set throws.
   */
  method GetKeywords(store: StateStore<StoredState>, count: int) returns (r: Outcome<seq<KeywordResult>>)
    ensures r.Throw? <==> PublishedSet(store.Stored(PublishedKeywordsKey)).Throw?
    ensures r.Ok? ==> r.value == SelectKeywords(SeedKeywords(), PublishedSet(store.Stored(PublishedKeywordsKey)).value, count)
  {
    var stored := store.Load(PublishedKeywordsKey);
    var published := PublishedSet(stored);
    if published.Throw? {
      return Throw(published.msg);
    }
    return Ok(SelectKeywords(SeedKeywords(), published.value, count));
  }

  /**
   * `MarkAsPublished`: the lower-cased keyword is added to the published
   * set (created empty when absent) and the set is saved; a file that does
   * not hold a set throws and nothing is written.
   */
  method MarkAsPublished(store: StateStore<StoredState>, keyword: string) returns (r: Outcome<()>)
    modifies store
    ensures r.Throw? <==> PublishedSet(old(store.Stored(PublishedKeywordsKey))).Throw?
    ensures r.Throw? ==> store.files == old(store.files)
    ensures r.Ok? ==> store.files == old(store.files)[FilePath(store.basePath, PublishedKeywordsKey) :=
      KeywordSet(Marked(PublishedSet(old(store.Stored(PublishedKeywordsKey))).value, keyword))]
  {
    var stored := store.Load(PublishedKeywordsKey);
    var published := PublishedSet(stored);
    if published.Throw? {
      return Throw(published.msg);
    }
    var _ := store.Update(PublishedKeywordsKey, KeywordSet({}), (s: StoredState) => MarkState(s, keyword));
    return Ok(());
  }

  /**
   * Marking a keyword and then listing keywords never lists it again, and
   * marking is idempotent.
   */
  lemma MarkThenSelect(published: set<string>, keyword: string, count: int)
    ensures forall k :: k in SelectKeywords(SeedKeywords(), Marked(published, keyword), count) ==>
      ToLower(k.keyword) != ToLower(keyword)
    ensures Marked(Marked(published, keyword), keyword) == Marked(published, keyword)
  {
    MarkedNotSelected(SeedKeywords(), published, keyword, count);
  }
}
