/**
 * The sitemap route: an XML document listing five fixed pages of the shop and one page per game
 * in the catalogue, in the order the catalogue query returns them.
 */
module SitemapRoute {
  import opened Wrappers
  import opened Text
  import opened Http

  /** One entry of the fixed page list: its path below the site root, priority and change frequency. */
  datatype StaticPage = StaticPage(url: string, priority: string, changefreq: string)

  /**
   * A game document as the lean query returns it: its public `id` and, when the document has one,
   * the ISO-8601 rendering of its `updatedAt` date (`toISOString()`).
   */
  datatype GameDoc = GameDoc(id: Option<string>, updatedAt: Option<string>)

  /** One `<url>` element of the document. */
  datatype UrlEntry = UrlEntry(loc: string, lastmod: string, changefreq: string, priority: string)

  const DefaultBaseUrl := "https://yourdomain.com"
  const StaticLastmod := "2023-11-01"
  const FailureMessage := "Failed to generate sitemap"
  const Prolog := "<?xml version=\"1.0\" encoding=\"UTF-8\"?>\n"
    + "<urlset xmlns=\"http://www.sitemaps.org/schemas/sitemap/0.9\">\n"
  const Closing := "</urlset>"

  const StaticPages: seq<StaticPage> := [
    StaticPage("", "1.0", "weekly"),
    StaticPage("support", "0.8", "monthly"),
    StaticPage("privacy-policy", "0.5", "yearly"),
    StaticPage("terms-of-service", "0.5", "yearly"),
    StaticPage("faq", "0.7", "monthly")
  ]

  /** The fixed markup around the four values of one `<url>` element: six indented lines. */
  const UrlOpen := "  <url>\n"
  const LocOpen := "    <loc>"
  const LocClose := "</loc>\n"
  const LastmodOpen := "    <lastmod>"
  const LastmodClose := "</lastmod>\n"
  const ChangefreqOpen := "    <changefreq>"
  const ChangefreqClose := "</changefreq>\n"
  const PriorityOpen := "    <priority>"
  const PriorityClose := "</priority>\n"
  const UrlClose := "  </url>\n"

  function Render(e: UrlEntry): string {
    UrlOpen
    + LocOpen + e.loc + LocClose
    + LastmodOpen + e.lastmod + LastmodClose
    + ChangefreqOpen + e.changefreq + ChangefreqClose
    + PriorityOpen + e.priority + PriorityClose
    + UrlClose
  }

  /** The elements written one after another, in order. */
  function RenderAll(es: seq<UrlEntry>): string {
    ConcatMap(Render, es)
  }

  /** `iso.split("T")[0]`: the date part of an ISO-8601 timestamp. */
  function DatePart(iso: string): (d: string)
    ensures 'T' !in d
  {
    Split(iso, 'T')[0]
  }

  function StaticEntry(baseUrl: string, p: StaticPage): UrlEntry {
    UrlEntry(baseUrl + "/" + p.url, StaticLastmod, p.changefreq, p.priority)
  }

  function StaticEntries(baseUrl: string): (es: seq<UrlEntry>)
    ensures |es| == |StaticPages|
  {
    seq(|StaticPages|, i requires 0 <= i < |StaticPages| => StaticEntry(baseUrl, StaticPages[i]))
  }

  /** The loc of a game's page; a document without `id` renders it as "undefined". */
  function GameLoc(baseUrl: string, g: GameDoc): string {
    baseUrl + "/games/" + JsText(g.id)
  }

  /** A game's element, or None when `updatedAt.toISOString()` would throw on a missing date. */
  function GameEntry(baseUrl: string, g: GameDoc): Option<UrlEntry> {
    match g.updatedAt
    case None => None
    case Some(iso) => Some(UrlEntry(GameLoc(baseUrl, g), DatePart(iso), "weekly", "0.8"))
  }

  /** The game elements in query order; None as soon as one game cannot be rendered. */
  function GameEntries(baseUrl: string, games: seq<GameDoc>): Option<seq<UrlEntry>> {
    if games == [] then Some([])
    else
      match GameEntries(baseUrl, games[..|games| - 1])
      case None => None
      case Some(es) =>
        match GameEntry(baseUrl, games[|games| - 1])
        case None => None
        case Some(e) => Some(es + [e])
  }

  /** The site root: the configured URL when it is a non-empty string, the placeholder domain otherwise. */
  function BaseUrl(siteUrl: Option<string>): string {
    OrElse(siteUrl, DefaultBaseUrl)
  }

  /** Every element of the document in order: the fixed pages, then the games. */
  function Entries(baseUrl: string, games: seq<GameDoc>): Option<seq<UrlEntry>> {
    match GameEntries(baseUrl, games)
    case None => None
    case Some(gs) => Some(StaticEntries(baseUrl) + gs)
  }

  /** The whole response: the XML document, or the 500 JSON error when rendering a game throws. */
  function Sitemap(siteUrl: Option<string>, games: seq<GameDoc>): Response {
    match Entries(BaseUrl(siteUrl), games)
    case None => Response(500, Error(FailureMessage))
    case Some(es) => Response(200, Xml(Prolog + RenderAll(es) + Closing))
  }

  // ---- properties ----

  /**
   * The game elements exist exactly when every game has an `updatedAt`, and then there is one per
   * game, in query order, each pointing at that game's page with the date part of its timestamp.
   */
  lemma {:induction false} GameEntriesShape(baseUrl: string, games: seq<GameDoc>)
    ensures GameEntries(baseUrl, games).Some? <==> forall g :: g in games ==> g.updatedAt.Some?
    ensures GameEntries(baseUrl, games).Some? ==>
      var es := GameEntries(baseUrl, games).value;
      |es| == |games| &&
      forall j :: 0 <= j < |games| ==>
        es[j] == UrlEntry(GameLoc(baseUrl, games[j]), DatePart(games[j].updatedAt.value), "weekly", "0.8")
  {
    if games != [] {
      var init := games[..|games| - 1];
      var last := games[|games| - 1];
      GameEntriesShape(baseUrl, init);
      assert games == init + [last];
      if GameEntries(baseUrl, init).Some? && last.updatedAt.Some? {
        var es := GameEntries(baseUrl, init).value;
        assert GameEntries(baseUrl, games).value == es + [GameEntry(baseUrl, last).value];
      } else if GameEntries(baseUrl, init).None? {
        var g :| g in init && g.updatedAt.None?;
        assert g in games;
      }
    }
  }

  /**
   * The document lists the five fixed pages first, each dated 2023-11-01, then the games in query
   * order; it fails as a whole when one game has no `updatedAt`.
   */
  lemma SitemapShape(siteUrl: Option<string>, games: seq<GameDoc>)
    ensures Sitemap(siteUrl, games).status == 200 <==> forall g :: g in games ==> g.updatedAt.Some?
    ensures Sitemap(siteUrl, games).status != 200 ==>
      Sitemap(siteUrl, games) == Response(500, Error(FailureMessage))
    ensures Sitemap(siteUrl, games).status == 200 ==>
      var es := Entries(BaseUrl(siteUrl), games).value;
      Sitemap(siteUrl, games).body == Xml(Prolog + RenderAll(es) + Closing) &&
      |es| == |StaticPages| + |games| &&
      (forall i :: 0 <= i < |StaticPages| ==>
        es[i].loc == BaseUrl(siteUrl) + "/" + StaticPages[i].url && es[i].lastmod == StaticLastmod) &&
      (forall j :: 0 <= j < |games| ==>
        es[|StaticPages| + j].loc == GameLoc(BaseUrl(siteUrl), games[j]) &&
        es[|StaticPages| + j].lastmod == DatePart(games[j].updatedAt.value))
  {
    var baseUrl := BaseUrl(siteUrl);
    GameEntriesShape(baseUrl, games);
    if GameEntries(baseUrl, games).Some? {
      var statics := StaticEntries(baseUrl);
      var gs := GameEntries(baseUrl, games).value;
      var es := statics + gs;
      assert Entries(baseUrl, games) == Some(es);
      forall i | 0 <= i < |StaticPages|
        ensures es[i].loc == baseUrl + "/" + StaticPages[i].url && es[i].lastmod == StaticLastmod
      {
        assert es[i] == statics[i];
      }
      forall j | 0 <= j < |games|
        ensures es[|StaticPages| + j].loc == GameLoc(baseUrl, games[j])
        ensures es[|StaticPages| + j].lastmod == DatePart(games[j].updatedAt.value)
      {
        assert es[|StaticPages| + j] == gs[j];
      }
    }
  }

  /** The date written for a game is the part of its timestamp before the time separator. */
  lemma DatePartOfIso(date: string, time: string)
    requires 'T' !in date
    ensures DatePart(date + "T" + time) == date
  {
    SplitConcat(date, time, 'T');
  }

  /** Games with distinct ids get distinct page locations, so no page is listed twice. */
  lemma GameLocsDistinct(baseUrl: string, a: GameDoc, b: GameDoc)
    requires a.id.Some? && b.id.Some? && a.id != b.id
    ensures GameLoc(baseUrl, a) != GameLoc(baseUrl, b)
  {
    var prefix := baseUrl + "/games/";
    assert GameLoc(baseUrl, a)[|prefix|..] == a.id.value;
    assert GameLoc(baseUrl, b)[|prefix|..] == b.id.value;
  }

  /** Every element of the list appears, rendered, in the document. */
  lemma RenderedEntryListed(es: seq<UrlEntry>, k: nat)
    requires k < |es|
    ensures Contains(Prolog + RenderAll(es) + Closing, Render(es[k]))
  {
    ConcatMapAround(Render, es, k);
    ContainsInside(Prolog, RenderAll(es[..k]), Render(es[k]), RenderAll(es[k + 1..]), Closing);
  }

  /** Every game in the catalogue has its page element in a successful sitemap. */
  lemma EveryGameListed(siteUrl: Option<string>, games: seq<GameDoc>, j: nat)
    requires j < |games| && Sitemap(siteUrl, games).status == 200
    ensures games[j].updatedAt.Some?
    ensures Contains(Sitemap(siteUrl, games).body.text,
      Render(UrlEntry(GameLoc(BaseUrl(siteUrl), games[j]), DatePart(games[j].updatedAt.value), "weekly", "0.8")))
  {
    var baseUrl := BaseUrl(siteUrl);
    assert GameEntries(baseUrl, games).Some?;
    GameListed(baseUrl, games, j);
  }

  lemma GameListed(baseUrl: string, games: seq<GameDoc>, j: nat)
    requires j < |games| && GameEntries(baseUrl, games).Some?
    ensures games[j].updatedAt.Some?
    ensures Contains(Prolog + RenderAll(StaticEntries(baseUrl) + GameEntries(baseUrl, games).value) + Closing,
      Render(UrlEntry(GameLoc(baseUrl, games[j]), DatePart(games[j].updatedAt.value), "weekly", "0.8")))
  {
    GameEntriesShape(baseUrl, games);
    var es := StaticEntries(baseUrl) + GameEntries(baseUrl, games).value;
    assert es[|StaticPages| + j] == GameEntries(baseUrl, games).value[j];
    RenderedEntryListed(es, |StaticPages| + j);
  }

  // ---- the handler ----

  /** GET: builds the document by appending to a string, fixed pages first, then the games. */
  method Get(siteUrl: Option<string>, games: seq<GameDoc>) returns (resp: Response)
    ensures resp == Sitemap(siteUrl, games)
  {
    var baseUrl := BaseUrl(siteUrl);
    var xml := Prolog;
    ghost var statics := StaticEntries(baseUrl);
    for i := 0 to |StaticPages|
      invariant xml == Prolog + RenderAll(statics[..i])
    {
      var page := StaticPages[i];
      var loc := baseUrl + "/" + page.url;
      var block := UrlOpen
        + LocOpen + loc + LocClose
        + LastmodOpen + StaticLastmod + LastmodClose
        + ChangefreqOpen + page.changefreq + ChangefreqClose
        + PriorityOpen + page.priority + PriorityClose
        + UrlClose;
      assert block == Render(statics[i]);
      assert statics[..i + 1][..i] == statics[..i];
      ConcatAssoc(Prolog, RenderAll(statics[..i]), block);
      xml := xml + block;
    }
    ghost var written: seq<UrlEntry> := [];
    assert statics + written == statics[..|StaticPages|];
    for j := 0 to |games|
      invariant GameEntries(baseUrl, games[..j]) == Some(written)
      invariant xml == Prolog + RenderAll(statics + written)
    {
      var game := games[j];
      assert games[..j + 1][..j] == games[..j];
      if game.updatedAt.None? {
        GameEntriesNone(baseUrl, games, j + 1);
        return Response(500, Error(FailureMessage));
      }
      var loc := baseUrl + "/games/" + JsText(game.id);
      var block := UrlOpen
        + LocOpen + loc + LocClose
        + LastmodOpen + DatePart(game.updatedAt.value) + LastmodClose
        + ChangefreqOpen + "weekly" + ChangefreqClose
        + PriorityOpen + "0.8" + PriorityClose
        + UrlClose;
      ghost var e := GameEntry(baseUrl, game).value;
      assert block == Render(e);
      assert (statics + written + [e])[..|statics + written + [e]| - 1] == statics + written;
      ConcatAssoc(Prolog, RenderAll(statics + written), block);
      xml := xml + block;
      assert statics + (written + [e]) == statics + written + [e];
      written := written + [e];
    }
    assert games[..|games|] == games;
    xml := xml + Closing;
    resp := Response(200, Xml(xml));
  }

  /** Once a prefix of the games cannot be rendered, neither can the whole list. */
  lemma {:induction false} GameEntriesNone(baseUrl: string, games: seq<GameDoc>, n: nat)
    requires n <= |games| && GameEntries(baseUrl, games[..n]).None?
    ensures GameEntries(baseUrl, games).None?
    decreases |games| - n
  {
    if n < |games| {
      assert games[..n + 1][..n] == games[..n];
      GameEntriesNone(baseUrl, games, n + 1);
    } else {
      assert games[..n] == games;
    }
  }
}
