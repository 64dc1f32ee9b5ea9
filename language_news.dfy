/**
 * News retrieval in the language agent: the NewsAPI article filter
 * (`fetch_financial_news`), the choice of queries and the de-duplication of the
 * articles found (`retrieve_news`).
 */
module LanguageNews {
  import opened Wrappers
  import opened Text
  import opened Dict
  import opened Json
  import opened Lists
  import opened LanguageState

  /** The dictionary kept for an article. */
  function NewsItem(source: Json, title: Json, description: Json, url: Json): Fields
  {
    Cons("source", source, Cons("title", title, Cons("description", description, Cons("url", url, []))))
  }

  /** An article is kept when its title and its description are both truthy. */
  predicate Passes(article: Json)
  {
    article.Obj? && Truthy(GetOr(article.fields, "title", Null)) && Truthy(GetOr(article.fields, "description", Null))
  }

  /** The item kept for an article that passes, when its "source" is a dictionary. */
  function ItemOf(article: Json): Fields
    requires article.Obj? && GetOr(article.fields, "source", Obj([])).Obj?
  {
    NewsItem(GetOr(GetOr(article.fields, "source", Obj([])).fields, "name", NA),
             GetOr(article.fields, "title", Null),
             GetOr(article.fields, "description", Null),
             GetOr(article.fields, "url", Null))
  }

  /**
   * One turn of the filter loop: skip, keep, or the AttributeError raised by `.get`
   * on an article or a "source" that is not a dictionary.
   */
  function KeepArticle(article: Json): Result<Option<Fields>, string>
  {
    if !article.Obj? then Err(AttributeError(article, "get"))
    else if !Passes(article) then Ok(None)
    else
      var source := GetOr(article.fields, "source", Obj([]));
      if !source.Obj? then Err(AttributeError(source, "get"))
      else Ok(Some(ItemOf(article)))
  }

  /**
   * An article is kept exactly when it passes and its "source" is a dictionary;
   * skipped exactly when it is a dictionary that does not pass; otherwise `.get` raises.
   */
  lemma KeepArticleMeaning(article: Json)
    ensures var r := KeepArticle(article);
      && (r.Ok? && r.value.Some? <==> Passes(article) && GetOr(article.fields, "source", Obj([])).Obj?)
      && (r.Ok? && r.value.Some? ==> r.value.value == ItemOf(article))
      && (r == Ok(None) <==> article.Obj? && !Passes(article))
      && (r.Err? ==> r.error == AttributeError(if article.Obj? then GetOr(article.fields, "source", Obj([])) else article, "get"))
  {
  }

  /** The filter loop over "articles"; the first exception ends it. */
  function FilterArticles(articles: seq<Json>): Result<seq<Fields>, string>
  {
    Collect(articles, KeepArticle)
  }

  /**
   * The filter raises nothing exactly when every article is a dictionary and every
   * article that passes has a dictionary "source"; then it keeps the items of the
   * passing articles, in order.
   */
  lemma FilterArticlesMeaning(articles: seq<Json>)
    ensures FilterArticles(articles).Ok? <==>
      forall i :: 0 <= i < |articles| ==>
        articles[i].Obj? && (Passes(articles[i]) ==> GetOr(articles[i].fields, "source", Obj([])).Obj?)
    ensures FilterArticles(articles).Ok? ==>
      var p := Filter(articles, Passes);
      var l := FilterArticles(articles).value;
      |l| == |p| && forall k :: 0 <= k < |l| ==>
        GetOr(p[k].fields, "source", Obj([])).Obj? && l[k] == ItemOf(p[k])
  {
    CollectOkIff(articles, KeepArticle);
    forall a | true
      ensures KeepArticle(a).Ok? ==> (KeepArticle(a).value.Some? <==> Passes(a))
      ensures KeepArticle(a).Ok? <==> a.Obj? && (Passes(a) ==> GetOr(a.fields, "source", Obj([])).Obj?)
    {
      KeepArticleMeaning(a);
    }
    if FilterArticles(articles).Ok? {
      CollectKeeps(articles, KeepArticle, Passes);
      var p := Filter(articles, Passes);
      var l := FilterArticles(articles).value;
      forall k | 0 <= k < |l|
        ensures GetOr(p[k].fields, "source", Obj([])).Obj? && l[k] == ItemOf(p[k])
      {
        KeepArticleMeaning(p[k]);
      }
    }
  }

  /** What a kept item holds: the source's name ('N/A' when absent), title, description, url. */
  lemma NewsItemFields(article: Json)
    requires article.Obj? && GetOr(article.fields, "source", Obj([])).Obj?
    ensures var item := ItemOf(article);
      && Keys(item) == ["source", "title", "description", "url"]
      && Get(item, "source") == Some(GetOr(GetOr(article.fields, "source", Obj([])).fields, "name", NA))
      && Get(item, "title") == Some(GetOr(article.fields, "title", Null))
      && Get(item, "description") == Some(GetOr(article.fields, "description", Null))
      && Get(item, "url") == Some(GetOr(article.fields, "url", Null))
  {
    var source := GetOr(GetOr(article.fields, "source", Obj([])).fields, "name", NA);
    var title := GetOr(article.fields, "title", Null);
    var description := GetOr(article.fields, "description", Null);
    var url := GetOr(article.fields, "url", Null);
    var r3 := Cons("url", url, []);
    var r2 := Cons("description", description, r3);
    var r1 := Cons("title", title, r2);
    var r0 := Cons("source", source, r1);
    assert Keys(r0) == ["source", "title", "description", "url"] by {
      assert Keys(r0)[1..] == Keys(r1);
      assert Keys(r1)[1..] == Keys(r2);
      assert Keys(r2)[1..] == Keys(r3);
    }
    assert Get(r0, "source") == Some(source) by { GetCons("source", source, r1, "source"); }
    assert Get(r0, "title") == Some(title) by {
      GetCons("source", source, r1, "title"); GetCons("title", title, r2, "title");
    }
    assert Get(r0, "description") == Some(description) by {
      GetCons("source", source, r1, "description"); GetCons("title", title, r2, "description");
      GetCons("description", description, r3, "description");
    }
    assert Get(r0, "url") == Some(url) by {
      GetCons("source", source, r1, "url"); GetCons("title", title, r2, "url");
      GetCons("description", description, r3, "url"); GetCons("url", url, [], "url");
    }
  }

  /**
   * `fetch_financial_news(query, api_key)`: `api` is NewsAPI's answer to the query (the
   * decoded body, or a transport or HTTP error).  A missing key, an error, a body that
   * is not a dictionary, an "articles" value that is not a list and an exception in
   * the filter all give the empty list.
   */
  function NewsFetched(query: string, apiKey: string, api: string -> Result<Json, string>): seq<Fields>
  {
    if apiKey == "" then []
    else
      match api(query)
      case Err(_) => []
      case Ok(data) =>
        if !data.Obj? then []
        else
          var articles := GetOr(data.fields, "articles", Arr([]));
          if !articles.Arr? then []
          else
            match FilterArticles(articles.items)
            case Ok(kept) => kept
            case Err(_) => []
  }

  /**
   * Every failure gives the empty list: a missing key, an error from NewsAPI, a body
   * that is not a dictionary, an "articles" value that is not a list, an exception in
   * the filter.  Otherwise the result is the item of each article of the response that
   * passes the filter, in the response's order.
   */
  lemma NewsFetchedPass(query: string, apiKey: string, api: string -> Result<Json, string>)
    ensures apiKey == "" || api(query).Err? ==> NewsFetched(query, apiKey, api) == []
    ensures api(query).Ok? && !api(query).value.Obj? ==> NewsFetched(query, apiKey, api) == []
    ensures api(query).Ok? && api(query).value.Obj? ==>
      var articles := GetOr(api(query).value.fields, "articles", Arr([]));
      && (!articles.Arr? ==> NewsFetched(query, apiKey, api) == [])
      && (articles.Arr? && FilterArticles(articles.items).Err? ==> NewsFetched(query, apiKey, api) == [])
      && (apiKey != "" && articles.Arr? && FilterArticles(articles.items).Ok? ==>
            var p, l := Filter(articles.items, Passes), NewsFetched(query, apiKey, api);
            |l| == |p| && forall k :: 0 <= k < |l| ==>
              && p[k] in articles.items && Passes(p[k])
              && GetOr(p[k].fields, "source", Obj([])).Obj? && l[k] == ItemOf(p[k]))
  {
    if apiKey != "" && api(query).Ok? && api(query).value.Obj? {
      var articles := GetOr(api(query).value.fields, "articles", Arr([]));
      if articles.Arr? && FilterArticles(articles.items).Ok? {
        FilterArticlesMeaning(articles.items);
      }
    }
  }

  /** The article filter loop of `fetch_financial_news`. */
  method FetchFinancialNews(query: string, apiKey: string, api: string -> Result<Json, string>)
    returns (r: seq<Fields>)
    ensures r == NewsFetched(query, apiKey, api)
  {
    if apiKey == "" {
      return [];
    }
    var response := api(query);
    if response.Err? || !response.value.Obj? {
      return [];
    }
    var articles := GetOr(response.value.fields, "articles", Arr([]));
    if !articles.Arr? {
      return [];
    }
    var items := articles.items;
    var filtered: seq<Fields> := [];
    for i := 0 to |items|
      invariant FilterArticles(items[..i]) == Ok(filtered)
    {
      CollectStep(items, KeepArticle, i, filtered);
      match KeepArticle(items[i])
      case Err(_) =>
        CollectErrStays(items, KeepArticle, i + 1);
        return [];
      case Ok(None) =>
      case Ok(Some(item)) =>
        filtered := filtered + [item];
    }
    assert items[..|items|] == items;
    r := filtered;
  }

  /** One query per ticker, then the question when there are fewer than two tickers. */
  function NewsQueries(question: string, tickers: seq<string>): (qs: seq<string>)
    ensures |qs| == |tickers| + (if |tickers| < 2 then 1 else 0)
    ensures forall i :: 0 <= i < |tickers| ==> qs[i] == tickers[i] + " stock news"
    ensures |tickers| < 2 ==> qs[|qs| - 1] == question
  {
    var perTicker := seq(|tickers|, i requires 0 <= i < |tickers| => tickers[i] + " stock news");
    perTicker + (if perTicker == [] || |tickers| < 2 then [question] else [])
  }

  /** A query is its own identifier when the queries are de-duplicated. */
  function Id(q: string): string
  {
    q
  }

  /**
   * `list(set(news_queries))[:2]`.  Python's set order is unspecified; the model fixes
   * it as the order of first occurrence.
   */
  function IssuedQueries(qs: seq<string>): seq<string>
  {
    var u := DedupBy(qs, Id);
    u[..if |u| < 2 then |u| else 2]
  }

  /** At most two queries go out, all different, each one of the candidates. */
  lemma IssuedQueriesBounds(qs: seq<string>)
    ensures |IssuedQueries(qs)| <= 2
    ensures forall i :: 0 <= i < |IssuedQueries(qs)| ==> IssuedQueries(qs)[i] in qs
    ensures forall i, j :: 0 <= i < j < |IssuedQueries(qs)| ==> IssuedQueries(qs)[i] != IssuedQueries(qs)[j]
    ensures qs != [] ==> |IssuedQueries(qs)| >= 1 && IssuedQueries(qs)[0] == qs[0]
  {
    var u := DedupBy(qs, Id);
    DedupByPositions(qs, Id);
    DedupByUnique(qs, Id);
    if qs != [] {
      FirstPositionsFirst(qs, Id, 0);
      var pos := FirstPositions(qs, Id);
      assert pos[0] == 0;
    }
  }

  /** With distinct candidates, the first two go out. */
  lemma IssuedQueriesDistinct(qs: seq<string>)
    requires forall i, j :: 0 <= i < j < |qs| ==> qs[i] != qs[j]
    ensures IssuedQueries(qs) == qs[..if |qs| < 2 then |qs| else 2]
  {
    DedupByDistinct(qs, Id);
  }

  /** `recent_news`: the articles fetched for each query, in query order. */
  function AllNews(queries: seq<string>, apiKey: string, api: string -> Result<Json, string>): seq<Fields>
    decreases |queries|
  {
    if queries == [] then []
    else AllNews(queries[..|queries| - 1], apiKey, api) + NewsFetched(queries[|queries| - 1], apiKey, api)
  }

  /** The identifier an article is de-duplicated by. */
  function NewsId(item: Fields): (Json, Json)
  {
    (GetOr(item, "title", Null), GetOr(item, "url", Null))
  }

  /** Lists and dictionaries cannot go into a set. */
  predicate Hashable(j: Json)
  {
    !j.Arr? && !j.Obj?
  }

  /** The TypeError raised when an identifier cannot be hashed (its title is hashed first). */
  function IdError(item: Fields): Option<string>
  {
    var (title, url) := NewsId(item);
    if !Hashable(title) then Some("unhashable type: '" + TypeName(title) + "'")
    else if !Hashable(url) then Some("unhashable type: '" + TypeName(url) + "'")
    else None
  }

  /** The error of the first item whose identifier cannot be hashed. */
  function FirstIdError(items: seq<Fields>): Option<string>
  {
    FirstError(items, IdError)
  }

  /** The de-duplication loop: first occurrences by (title, url), or the TypeError. */
  function DedupNews(items: seq<Fields>): Result<seq<Fields>, string>
  {
    match FirstIdError(items)
    case Some(e) => Err(e)
    case None => Ok(DedupBy(items, NewsId))
  }

  /** An error in a prefix is the list's first error. */
  lemma FirstIdErrorStays(items: seq<Fields>, i: nat)
    requires i <= |items| && FirstIdError(items[..i]).Some?
    ensures FirstIdError(items) == FirstIdError(items[..i])
  {
    FirstErrorStays(items, IdError, i);
  }

  /** The loop raises exactly when some identifier cannot be hashed. */
  lemma FirstIdErrorIff(items: seq<Fields>)
    ensures FirstIdError(items).None? <==> forall i :: 0 <= i < |items| ==> IdError(items[i]).None?
  {
    FirstErrorIff(items, IdError);
  }

  /** The `seen`-set loop of `retrieve_news`. */
  method DedupNewsLoop(items: seq<Fields>) returns (r: Result<seq<Fields>, string>)
    ensures r == DedupNews(items)
  {
    var seen: set<(Json, Json)> := {};
    var deduped: seq<Fields> := [];
    for i := 0 to |items|
      invariant FirstIdError(items[..i]) == None
      invariant seen == KeysOf(items[..i], NewsId)
      invariant deduped == DedupBy(items[..i], NewsId)
    {
      assert items[..i + 1][..i] == items[..i];
      var e := IdError(items[i]);
      if e.Some? {
        FirstIdErrorStays(items, i + 1);
        return Err(e.value);
      }
      var identifier := NewsId(items[i]);
      if identifier !in seen {
        deduped := deduped + [items[i]];
        seen := seen + {identifier};
      }
    }
    assert items[..|items|] == items;
    r := Ok(deduped);
  }

  /** `retrieve_news`: the update setting "recent_news", or the exception raised. */
  function RetrieveNews(s: AgentState, apiKey: string, api: string -> Result<Json, string>): Result<Update, string>
  {
    var issued := IssuedQueries(NewsQueries(s.question, s.tickers));
    match DedupNews(AllNews(issued, apiKey, api))
    case Err(e) => Err(e)
    case Ok(news) => Ok(NoUpdate.(news := Some(news)))
  }

  method RetrieveNewsNode(s: AgentState, apiKey: string, api: string -> Result<Json, string>)
    returns (r: Result<Update, string>)
    ensures r == RetrieveNews(s, apiKey, api)
  {
    var queries := IssuedQueries(NewsQueries(s.question, s.tickers));
    var recent: seq<Fields> := [];
    for i := 0 to |queries|
      invariant recent == AllNews(queries[..i], apiKey, api)
    {
      assert queries[..i + 1][..i] == queries[..i];
      var articles := FetchFinancialNews(queries[i], apiKey, api);
      recent := recent + articles;
    }
    assert queries[..|queries|] == queries;
    var deduped := DedupNewsLoop(recent);
    match deduped
    case Err(e) => r := Err(e);
    case Ok(news) => r := Ok(NoUpdate.(news := Some(news)));
  }

  /**
   * The de-duplicated news: no two articles share (title, url), every identifier is
   * kept, the articles kept are those at the strictly increasing positions that hold
   * the first occurrence of their identifier (so the result is a subsequence of the
   * fetched news), and the loop raises exactly when some identifier cannot be hashed.
   */
  lemma DedupNewsMeaning(items: seq<Fields>)
    ensures DedupNews(items).Err? <==> exists i :: 0 <= i < |items| && IdError(items[i]).Some?
    ensures DedupNews(items).Ok? ==>
      var news := DedupNews(items).value;
      && (forall i, j :: 0 <= i < j < |news| ==> NewsId(news[i]) != NewsId(news[j]))
      && KeysOf(news, NewsId) == KeysOf(items, NewsId)
    ensures DedupNews(items).Ok? ==>
      var news, pos := DedupNews(items).value, FirstPositions(items, NewsId);
      && |pos| == |news|
      && (forall k :: 0 <= k < |pos| ==> pos[k] < |items| && news[k] == items[pos[k]])
      && (forall k, l :: 0 <= k < l < |pos| ==> pos[k] < pos[l])
      && (forall i :: 0 <= i < |items| ==> (i in pos <==> NewsId(items[i]) !in KeysOf(items[..i], NewsId)))
  {
    FirstIdErrorIff(items);
    DedupByUnique(items, NewsId);
    DedupByKeys(items, NewsId);
    DedupByPositions(items, NewsId);
    forall i | 0 <= i < |items|
      ensures i in FirstPositions(items, NewsId) <==> NewsId(items[i]) !in KeysOf(items[..i], NewsId)
    {
      FirstPositionsFirst(items, NewsId, i);
    }
  }
}
