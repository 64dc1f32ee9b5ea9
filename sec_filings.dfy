/**
 * The SEC filings scraper, over the anchors of the pages it fetches: the filing links
 * of an EDGAR search, the first financial-report link of a filing page, the cached
 * download of a document, and the 10-Q-then-10-K search for the latest earnings report.
 */
module SecFilings {
  import opened Wrappers
  import opened Text

  const BaseUrl: string := "https://www.sec.gov"

  /** An `<a>` tag: its `id` and `href` attributes, when present. */
  datatype Anchor = Anchor(id: Option<string>, href: Option<string>)

  /** The anchors `find_all('a', id='documentsbutton')` selects. */
  predicate IsDocumentsButton(a: Anchor)
  {
    a.id == Some("documentsbutton")
  }

  /**
   * The filing links of a search page, in document order; a documents button without
   * an `href` raises KeyError at `a_tag['href']`.
   */
  function FilingLinks(anchors: seq<Anchor>): Result<seq<string>, string>
    decreases |anchors|
  {
    if anchors == [] then Ok([])
    else
      var n := |anchors| - 1;
      match FilingLinks(anchors[..n])
      case Err(e) => Err(e)
      case Ok(links) =>
        if !IsDocumentsButton(anchors[n]) then Ok(links)
        else if anchors[n].href.None? then Err("'href'")
        else Ok(links + [BaseUrl + anchors[n].href.value])
  }

  /** The documents buttons, in document order. */
  function Buttons(anchors: seq<Anchor>): (bs: seq<Anchor>)
    ensures forall k :: 0 <= k < |bs| ==> IsDocumentsButton(bs[k]) && bs[k] in anchors
    decreases |anchors|
  {
    if anchors == [] then []
    else
      var n := |anchors| - 1;
      Buttons(anchors[..n]) + if IsDocumentsButton(anchors[n]) then [anchors[n]] else []
  }

  /**
   * The search succeeds exactly when every documents button has an `href`; its links
   * are then `base_url + href` of the buttons, one each and in order.
   */
  lemma {:induction false} FilingLinksSpec(anchors: seq<Anchor>)
    ensures var r := FilingLinks(anchors);
      && (r.Ok? <==> forall i :: 0 <= i < |anchors| && IsDocumentsButton(anchors[i]) ==> anchors[i].href.Some?)
      && (r.Err? ==> r.error == "'href'")
      && (r.Ok? ==> var bs := Buttons(anchors);
            && |r.value| == |bs|
            && forall k :: 0 <= k < |bs| ==> bs[k].href.Some? && r.value[k] == BaseUrl + bs[k].href.value)
    decreases |anchors|
  {
    if anchors != [] {
      var n := |anchors| - 1;
      FilingLinksSpec(anchors[..n]);
      assert forall i :: 0 <= i < n ==> anchors[..n][i] == anchors[i];
    }
  }

  /** Once a prefix of the page raises, the whole search raises. */
  lemma {:induction false} FilingLinksErrPrefix(anchors: seq<Anchor>, i: nat)
    requires i <= |anchors| && FilingLinks(anchors[..i]).Err?
    ensures FilingLinks(anchors) == FilingLinks(anchors[..i])
    decreases |anchors| - i
  {
    if i < |anchors| {
      assert anchors[..i + 1][..i] == anchors[..i];
      FilingLinksErrPrefix(anchors, i + 1);
    } else {
      assert anchors[..i] == anchors;
    }
  }

  /** `search_filings` on the anchors of the result page: the loop appending to `filing_links`. */
  method SearchFilings(anchors: seq<Anchor>) returns (r: Result<seq<string>, string>)
    ensures r == FilingLinks(anchors)
  {
    var filingLinks: seq<string> := [];
    for i := 0 to |anchors|
      invariant FilingLinks(anchors[..i]) == Ok(filingLinks)
    {
      assert anchors[..i + 1][..i] == anchors[..i];
      var tag := anchors[i];
      if IsDocumentsButton(tag) {
        if tag.href.None? {
          FilingLinksErrPrefix(anchors, i + 1);
          return Err("'href'");
        }
        filingLinks := filingLinks + [BaseUrl + tag.href.value];
      }
    }
    assert anchors[..|anchors|] == anchors;
    return Ok(filingLinks);
  }

  /** An `href` that names the financial report: it mentions "Financial_Report" and is an HTML page. */
  predicate IsReportHref(href: string)
  {
    Contains(href, "Financial_Report") && (EndsWith(href, ".htm") || EndsWith(href, ".html"))
  }

  /** An anchor `find_all('a', href=True)` selects whose `href` names the report. */
  predicate IsReportAnchor(a: Anchor)
  {
    a.href.Some? && IsReportHref(a.href.value)
  }

  /**
   * `get_filing_document_link` on the anchors of a filing page: `base_url + href` for the
   * first report anchor, None when there is none.
   */
  function DocumentLink(anchors: seq<Anchor>): (r: Option<string>)
    ensures r.None? <==> forall i :: 0 <= i < |anchors| ==> !IsReportAnchor(anchors[i])
    ensures r.Some? ==> exists i :: (0 <= i < |anchors| && IsReportAnchor(anchors[i])
      && (forall j :: 0 <= j < i ==> !IsReportAnchor(anchors[j]))
      && r.value == BaseUrl + anchors[i].href.value)
    decreases |anchors|
  {
    if anchors == [] then None
    else if IsReportAnchor(anchors[0]) then Some(BaseUrl + anchors[0].href.value)
    else
      var r := DocumentLink(anchors[1..]);
      assert forall i :: 1 <= i < |anchors| ==> anchors[i] == anchors[1..][i - 1];
      r
  }

  /** The loop of `get_filing_document_link`, returning at the first match. */
  method GetFilingDocumentLink(anchors: seq<Anchor>) returns (r: Option<string>)
    ensures r == DocumentLink(anchors)
  {
    for i := 0 to |anchors|
      invariant DocumentLink(anchors) == DocumentLink(anchors[i..])
    {
      assert anchors[i..][1..] == anchors[i + 1..];
      var tag := anchors[i];
      if tag.href.Some? {
        var href := tag.href.value;
        if Contains(href, "Financial_Report") && (EndsWith(href, ".htm") || EndsWith(href, ".html")) {
          return Some(BaseUrl + href);
        }
      }
    }
    return None;
  }

  /** The cache file of a download: `<cache_dir>/<ticker>_<doc_type>_<basename(url)>.html`. */
  function CacheFile(cacheDir: string, url: string, ticker: string, docType: string): (f: string)
    ensures EndsWith(f, ".html")
  {
    var name := ticker + "_" + docType + "_" + Basename(url) + ".html";
    assert EndsWith(name, ".html") by {
      var pre := ticker + "_" + docType + "_" + Basename(url);
      assert name == pre + ".html";
      assert name[|name| - 5..] == ".html";
    }
    var f := JoinPath(cacheDir, name);
    assert EndsWith(f, ".html") by {
      if !StartsWith(name, "/") {
        var pre := if cacheDir == [] || EndsWith(cacheDir, "/") then cacheDir else cacheDir + "/";
        assert f == pre + name;
        assert f[|f| - 5..] == name[|name| - 5..];
      }
    }
    f
  }

  /** Two documents with different basenames never share a cache file of the same directory, ticker and type. */
  lemma CacheFileSeparates(cacheDir: string, u1: string, u2: string, ticker: string, docType: string)
    requires Basename(u1) != Basename(u2)
    ensures CacheFile(cacheDir, u1, ticker, docType) != CacheFile(cacheDir, u2, ticker, docType)
  {
    var p := ticker + "_" + docType + "_";
    var n1, n2 := p + Basename(u1) + ".html", p + Basename(u2) + ".html";
    MiddleCancels(p, Basename(u1), Basename(u2), ".html");
    assert n1[0] == n2[0] == p[0];
    var pre := if StartsWith(n1, "/") then ""
      else if cacheDir == [] || EndsWith(cacheDir, "/") then cacheDir else cacheDir + "/";
    assert CacheFile(cacheDir, u1, ticker, docType) == pre + n1;
    assert CacheFile(cacheDir, u2, ticker, docType) == pre + n2;
    MiddleCancels(pre, n1, n2, "");
  }

  /** Equal strings with the same prefix and suffix have the same middle. */
  lemma MiddleCancels(p: string, a: string, b: string, s: string)
    ensures p + a + s == p + b + s ==> a == b
  {
    if p + a + s == p + b + s {
      assert |a| == |b|;
      assert a == (p + a + s)[|p|..|p| + |a|];
      assert b == (p + b + s)[|p|..|p| + |b|];
    }
  }

  /**
   * The pages and documents the scraper fetches: the anchors of an EDGAR search result
   * for a ticker, document type and count; the anchors of a filing page; a document's
   * HTML; and the text BeautifulSoup extracts from HTML once scripts and styles are gone.
   * A failed request is the message of the exception it raised.
   */
  datatype Edgar = Edgar(
    search: (string, string, int) -> Result<seq<Anchor>, string>,
    page: string -> Result<seq<Anchor>, string>,
    document: string -> Result<string, string>,
    extractText: string -> string)

  /** The cache directory's files, by path. */
  type Files = map<string, string>

  /**
   * `download_and_extract_text`: the text of the document and the cache directory after
   * the call.  A cached file is read instead of fetching the document; otherwise the
   * document is fetched and written under its cache file.
   */
  function Download(files: Files, cacheDir: string, url: string, ticker: string, docType: string, ed: Edgar)
    : Result<(string, Files), string>
  {
    var filename := CacheFile(cacheDir, url, ticker, docType);
    if filename in files then Ok((ed.extractText(files[filename]), files))
    else
      match ed.document(url)
      case Err(e) => Err(e)
      case Ok(html) => Ok((ed.extractText(html), files[filename := html]))
  }

  /** A cache hit leaves the cache as it was and does not depend on the network. */
  lemma DownloadHit(files: Files, cacheDir: string, url: string, ticker: string, docType: string, ed: Edgar,
                    document: string -> Result<string, string>)
    requires CacheFile(cacheDir, url, ticker, docType) in files
    ensures Download(files, cacheDir, url, ticker, docType, ed)
      == Download(files, cacheDir, url, ticker, docType, ed.(document := document))
    ensures Download(files, cacheDir, url, ticker, docType, ed)
      == Ok((ed.extractText(files[CacheFile(cacheDir, url, ticker, docType)]), files))
  {
  }

  /**
   * A download that fetched stores the document under its cache file and touches no
   * other file; repeating it is then a cache hit with the same text.
   */
  lemma DownloadCaches(files: Files, cacheDir: string, url: string, ticker: string, docType: string, ed: Edgar)
    requires CacheFile(cacheDir, url, ticker, docType) !in files
    requires Download(files, cacheDir, url, ticker, docType, ed).Ok?
    ensures var (text, after) := Download(files, cacheDir, url, ticker, docType, ed).value;
      && after == files[CacheFile(cacheDir, url, ticker, docType) := ed.document(url).value]
      && Download(after, cacheDir, url, ticker, docType, ed) == Ok((text, after))
  {
  }

  /** What a search for a ticker and document type turned up: the filing links, or the exception. */
  function Search(ticker: string, docType: string, ed: Edgar): Result<seq<string>, string>
  {
    match ed.search(ticker, docType, 1)
    case Err(e) => Err(e)
    case Ok(anchors) => FilingLinks(anchors)
  }

  /** The filing links used: the 10-Q search's, and the 10-K search's only when those are empty. */
  function ReportLinks(ticker: string, ed: Edgar): (r: Result<seq<string>, string>)
    ensures Search(ticker, "10-Q", ed) != Ok([]) ==> r == Search(ticker, "10-Q", ed)
    ensures Search(ticker, "10-Q", ed) == Ok([]) ==> r == Search(ticker, "10-K", ed)
  {
    match Search(ticker, "10-Q", ed)
    case Err(e) => Err(e)
    case Ok(links) => if links == [] then Search(ticker, "10-K", ed) else Ok(links)
  }

  /**
   * `get_recent_earnings_report_text`: the text of the report of the first filing found
   * (None when no filing or no report link is found), with the cache after the call.
   */
  function RecentEarningsReport(files: Files, cacheDir: string, ticker: string, ed: Edgar)
    : Result<(Option<string>, Files), string>
  {
    match ReportLinks(ticker, ed)
    case Err(e) => Err(e)
    case Ok(links) =>
      if links == [] then Ok((None, files))
      else
        match ed.page(links[0])
        case Err(e) => Err(e)
        case Ok(anchors) =>
          match DocumentLink(anchors)
          case None => Ok((None, files))
          case Some(doc) =>
            match Download(files, cacheDir, doc, ticker, "earnings_report", ed)
            case Err(e) => Err(e)
            case Ok((text, after)) => Ok((Some(text), after))
  }

  /** The 10-K search matters only when the 10-Q search found no filing. */
  lemma TenKOnlyAsFallback(files: Files, cacheDir: string, ticker: string, ed: Edgar,
                           search: (string, string, int) -> Result<seq<Anchor>, string>)
    requires Search(ticker, "10-Q", ed) != Ok([])
    requires search(ticker, "10-Q", 1) == ed.search(ticker, "10-Q", 1)
    ensures RecentEarningsReport(files, cacheDir, ticker, ed)
      == RecentEarningsReport(files, cacheDir, ticker, ed.(search := search))
  {
    var ed' := ed.(search := search);
    assert Search(ticker, "10-Q", ed') == Search(ticker, "10-Q", ed);
    assert ReportLinks(ticker, ed') == ReportLinks(ticker, ed);
    assert ed'.page == ed.page && ed'.document == ed.document && ed'.extractText == ed.extractText;
  }

  /** Only the first filing found is opened: filing pages of later links do not matter. */
  lemma FirstFilingOnly(files: Files, cacheDir: string, ticker: string, ed: Edgar,
                        page: string -> Result<seq<Anchor>, string>)
    requires ReportLinks(ticker, ed).Ok? && ReportLinks(ticker, ed).value != []
    requires page(ReportLinks(ticker, ed).value[0]) == ed.page(ReportLinks(ticker, ed).value[0])
    ensures RecentEarningsReport(files, cacheDir, ticker, ed)
      == RecentEarningsReport(files, cacheDir, ticker, ed.(page := page))
  {
    assert ReportLinks(ticker, ed.(page := page)) == ReportLinks(ticker, ed);
  }

  /**
   * No report: no filing in either search, or no report link on the first filing's page;
   * the cache is then untouched.  A report's text comes from the first filing's report link,
   * saved as an "earnings_report".
   */
  lemma EarningsReportOutcome(files: Files, cacheDir: string, ticker: string, ed: Edgar)
    requires RecentEarningsReport(files, cacheDir, ticker, ed).Ok?
    ensures var (text, after) := RecentEarningsReport(files, cacheDir, ticker, ed).value;
      var links := ReportLinks(ticker, ed).value;
      && (text.None? <==> links == [] || DocumentLink(ed.page(links[0]).value).None?)
      && (text.None? ==> after == files)
      && (text.Some? ==>
            var doc := DocumentLink(ed.page(links[0]).value).value;
            Download(files, cacheDir, doc, ticker, "earnings_report", ed) == Ok((text.value, after)))
  {
  }
}
