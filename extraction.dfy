/**
 * What the scraper takes out of one fetched page (scripts/scrape_dawn.py,
 * lines 95-142). HTML parsing is not modelled: a `Page` holds the results of
 * the BeautifulSoup look-ups the scraper performs, already stripped of
 * surrounding whitespace.
 */
module Extraction {
  import opened Wrappers
  import opened Text
  import opened Dates

  const BASE_URL: string := "https://www.dawn.com/news/"
  const SOURCE: string := "dawn"

  /** The closed set of body classes that name a category. */
  const CATEGORY_KEYWORDS: set<string> := {
    "pakistan", "world", "column", "editorial", "letters", "50-years-ago",
    "business", "sport", "sponsored", "culture", "tech", "front-page",
    "back-page", "national", "international"}

  /** A parsed page, as the scraper's look-ups see it. */
  datatype Page = Page(
    hasBody: bool,               // soup.find("body") found an element
    bodyClasses: seq<string>,    // that element's class list, in order
    hasArticle: bool,            // soup.find("article") found an element
    storyLink: Option<string>,   // text of the first <a class="story__link">
    storyTitle: Option<string>,  // text of the first element of class "story__title"
    timestamp: Option<string>,   // text of the first element of class "timestamp--date"
    paragraphs: seq<string>)     // texts of the <p> elements of the first "story__content"
                                 // element, in order; [] when there is no such element

  /** One row of the `articles` table. */
  datatype Article = Article(
    id: int,
    title: Option<string>,
    date: Option<string>,
    summary: Option<string>,
    category: Option<string>,
    fullText: Option<string>,
    url: string,
    source: string)

  /** The summary and full text taken from the story's paragraphs. */
  datatype Body = Body(summary: Option<string>, fullText: Option<string>)

  /** `BASE_URL.format(article_id)`. */
  function Url(id: int): string {
    BASE_URL + IntToString(id)
  }

  /** The URL of an ID is the base URL followed by text that `int()` reads back as that ID. */
  lemma UrlNamesId(id: int)
    ensures |Url(id)| > |BASE_URL| && Url(id)[..|BASE_URL|] == BASE_URL
    ensures ParseInt(Url(id)[|BASE_URL|..]) == Some(id)
  {
    assert Url(id)[|BASE_URL|..] == IntToString(id);
    ParseIntRoundTrip(id);
  }

  /** Distinct IDs are fetched from distinct URLs. */
  lemma UrlInjective(i: int, j: int)
    requires Url(i) == Url(j)
    ensures i == j
  {
    UrlNamesId(i);
    UrlNamesId(j);
  }

  predicate NoKeywordBefore(classes: seq<string>, i: int)
    requires 0 <= i <= |classes|
  {
    forall j :: 0 <= j < i ==> classes[j] !in CATEGORY_KEYWORDS
  }

  /** The category: the first class, in list order, that is one of the keywords. */
  function FirstKeyword(classes: seq<string>): (category: Option<string>)
    ensures category.None? <==> NoKeywordBefore(classes, |classes|)
    ensures category.Some? ==>
      category.value in CATEGORY_KEYWORDS &&
      exists i :: 0 <= i < |classes| && classes[i] == category.value && NoKeywordBefore(classes, i)
  {
    if classes == [] then None
    else if classes[0] in CATEGORY_KEYWORDS then
      assert classes[0] == classes[0] && NoKeywordBefore(classes, 0);
      Some(classes[0])
    else
      var rest := FirstKeyword(classes[1..]);
      if rest.Some? then
        var i :| 0 <= i < |classes[1..]| && classes[1..][i] == rest.value && NoKeywordBefore(classes[1..], i);
        assert classes[i + 1] == rest.value && NoKeywordBefore(classes, i + 1);
        rest
      else
        assert NoKeywordBefore(classes, |classes|) by {
          forall j | 0 <= j < |classes| ensures classes[j] !in CATEGORY_KEYWORDS {
            if j > 0 { assert classes[j] == classes[1..][j - 1]; }
          }
        }
        rest
  }

  /** The scan of the body classes with its early `break` (lines 101-106). */
  method ScanCategory(classes: seq<string>) returns (category: Option<string>)
    ensures category == FirstKeyword(classes)
  {
    category := None;
    var i := 0;
    while i < |classes|
      invariant 0 <= i <= |classes|
      invariant FirstKeyword(classes[i..]) == FirstKeyword(classes)
    {
      if classes[i] in CATEGORY_KEYWORDS {
        category := Some(classes[i]);
        break;
      }
      assert classes[i..][1..] == classes[i + 1..];
      i := i + 1;
    }
  }

  /** The title: the story link's text, else the story title's text, else none. */
  function Headline(p: Page): (title: Option<string>)
    ensures title.Some? <==> p.storyLink.Some? || p.storyTitle.Some?
    ensures p.storyLink.Some? ==> title == p.storyLink
    ensures p.storyLink.None? ==> title == p.storyTitle
  {
    if p.storyLink.Some? then p.storyLink else p.storyTitle
  }

  /** The date column: the timestamp read with "%B %d, %Y" and written as YYYY-MM-DD. */
  function PageDate(p: Page): (date: Option<string>)
    ensures date.Some? <==> p.timestamp.Some? && ParseLongDate(p.timestamp.value).Some?
    ensures date.Some? ==> ParseIso(date.value) == ParseLongDate(p.timestamp.value)
  {
    if p.timestamp.None? then None
    else match ParseLongDate(p.timestamp.value)
      case None => None
      case Some(d) => IsoRoundTrip(d); Some(IsoFormat(d))
  }

  /** The first paragraph is the summary; the others, newline-joined, the full text. */
  function SplitParagraphs(paragraphs: seq<string>): (body: Body)
    ensures body.summary.None? <==> paragraphs == []
    ensures body.fullText.None? <==> paragraphs == []
    ensures paragraphs != [] ==> body.summary == Some(paragraphs[0])
    ensures |paragraphs| == 1 ==> body.fullText == Some("")
    ensures |paragraphs| >= 2 && NoNewlines(paragraphs) ==> SplitLines(body.fullText.value) == paragraphs[1..]
  {
    if paragraphs == [] then Body(None, None)
    else
      var body := Body(Some(paragraphs[0]), Some(JoinLines(paragraphs[1..])));
      if |paragraphs| >= 2 && NoNewlines(paragraphs) then
        assert NoNewlines(paragraphs[1..]) by {
          forall i | 0 <= i < |paragraphs| - 1 ensures NoNewline(paragraphs[1..][i]) {
            assert paragraphs[1..][i] == paragraphs[i + 1];
          }
        }
        SplitJoinLines(paragraphs[1..]);
        body
      else
        body
  }

  /**
   * The row saved for a fetched page, or `None` when the page is skipped
   * because it has no <body> or no <article>.
   */
  function Extract(id: int, p: Page): (r: Option<Article>)
    ensures r.None? <==> !p.hasBody || !p.hasArticle
    ensures r.Some? ==> r.value.id == id && r.value.url == Url(id) && r.value.source == SOURCE
    ensures r.Some? ==> r.value.category == FirstKeyword(p.bodyClasses)
    ensures r.Some? ==> (r.value.title.Some? <==> p.storyLink.Some? || p.storyTitle.Some?)
    ensures r.Some? && p.storyLink.Some? ==> r.value.title == p.storyLink
    ensures r.Some? && p.storyLink.None? ==> r.value.title == p.storyTitle
    ensures r.Some? ==> r.value.date == PageDate(p)
    ensures r.Some? ==> Body(r.value.summary, r.value.fullText) == SplitParagraphs(p.paragraphs)
  {
    if !p.hasBody || !p.hasArticle then None
    else
      var body := SplitParagraphs(p.paragraphs);
      Some(Article(id, Headline(p), PageDate(p), body.summary, FirstKeyword(p.bodyClasses),
                   body.fullText, Url(id), SOURCE))
  }
}
