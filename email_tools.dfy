/**
 * The mock e-mail tools: the footer settings kept between calls (set, reset,
 * read), the footer markup, and the HTML e-mail rendered from a title, an
 * intro, optional feature and link lists, items and calls to action.
 */
module EmailTools {
  import opened Strings
  import opened ContentTools

  // ---------------------------------------------------------------------------
  // Footer settings

  datatype FooterSettings = FooterSettings(
    orgName: string,
    addressLine1: Option<string>,
    addressLine2: Option<string>,
    unsubscribeUrl: Option<string>,
    websiteUrl: Option<string>,
    twitterUrl: Option<string>,
    linkedinUrl: Option<string>,
    style: Option<string>,
    customHtml: Option<string>)

  /** The fields a `set_footer` call passes (`None`: not passed), and its `reset` flag. */
  datatype FooterPatch = FooterPatch(
    orgName: Option<string>,
    addressLine1: Option<string>,
    addressLine2: Option<string>,
    unsubscribeUrl: Option<string>,
    websiteUrl: Option<string>,
    twitterUrl: Option<string>,
    linkedinUrl: Option<string>,
    style: Option<string>,
    customHtml: Option<string>,
    reset: bool)

  const DefaultFooterStyle := "color:#666;font-size:12px;line-height:1.4;"

  /** The settings before any reset. */
  const InitialFooter := FooterSettings(
    "Acme Publishing Co.", Some("123 Market Street"), Some("San Francisco, CA 94105"),
    Some("https://example.com/unsubscribe"), Some("https://example.com"),
    Some("https://twitter.com/example"), Some("https://linkedin.com/company/example"),
    Some(DefaultFooterStyle), None)

  /** The settings a reset installs: the initial ones without a style. */
  const ResetFooter := FooterSettings(
    "Acme Publishing Co.", Some("123 Market Street"), Some("San Francisco, CA 94105"),
    Some("https://example.com/unsubscribe"), Some("https://example.com"),
    Some("https://twitter.com/example"), Some("https://linkedin.com/company/example"),
    None, None)

  function Pick(given: Option<string>, current: Option<string>): Option<string> {
    if given.Some? then given else current
  }

  /** `{ ...current, ...patch }`: a shallow merge in which exactly the passed fields win. */
  function Merge(current: FooterSettings, p: FooterPatch): (r: FooterSettings)
    ensures r.orgName == if p.orgName.Some? then p.orgName.value else current.orgName
    ensures p.addressLine1.Some? ==> r.addressLine1 == p.addressLine1
    ensures p.addressLine1.None? ==> r.addressLine1 == current.addressLine1
    ensures p.addressLine2.Some? ==> r.addressLine2 == p.addressLine2
    ensures p.addressLine2.None? ==> r.addressLine2 == current.addressLine2
    ensures p.unsubscribeUrl.Some? ==> r.unsubscribeUrl == p.unsubscribeUrl
    ensures p.unsubscribeUrl.None? ==> r.unsubscribeUrl == current.unsubscribeUrl
    ensures p.websiteUrl.Some? ==> r.websiteUrl == p.websiteUrl
    ensures p.websiteUrl.None? ==> r.websiteUrl == current.websiteUrl
    ensures p.twitterUrl.Some? ==> r.twitterUrl == p.twitterUrl
    ensures p.twitterUrl.None? ==> r.twitterUrl == current.twitterUrl
    ensures p.linkedinUrl.Some? ==> r.linkedinUrl == p.linkedinUrl
    ensures p.linkedinUrl.None? ==> r.linkedinUrl == current.linkedinUrl
    ensures p.style.Some? ==> r.style == p.style
    ensures p.style.None? ==> r.style == current.style
    ensures p.customHtml.Some? ==> r.customHtml == p.customHtml
    ensures p.customHtml.None? ==> r.customHtml == current.customHtml
  {
    FooterSettings(
      if p.orgName.Some? then p.orgName.value else current.orgName,
      Pick(p.addressLine1, current.addressLine1),
      Pick(p.addressLine2, current.addressLine2),
      Pick(p.unsubscribeUrl, current.unsubscribeUrl),
      Pick(p.websiteUrl, current.websiteUrl),
      Pick(p.twitterUrl, current.twitterUrl),
      Pick(p.linkedinUrl, current.linkedinUrl),
      Pick(p.style, current.style),
      Pick(p.customHtml, current.customHtml))
  }

  /** A patch that passes nothing. */
  predicate EmptyPatch(p: FooterPatch) {
    && p.orgName.None? && p.addressLine1.None? && p.addressLine2.None?
    && p.unsubscribeUrl.None? && p.websiteUrl.None? && p.twitterUrl.None?
    && p.linkedinUrl.None? && p.style.None? && p.customHtml.None?
  }

  /** Merging the same patch twice is merging it once; merging nothing changes nothing. */
  lemma MergeIdempotent(s: FooterSettings, p: FooterPatch)
    ensures Merge(Merge(s, p), p) == Merge(s, p)
    ensures EmptyPatch(p) ==> Merge(s, p) == s
  {
  }

  // ---------------------------------------------------------------------------
  // Footer markup

  function OptLine(o: Option<string>): (r: seq<string>)
    ensures |r| <= 1
  {
    if Given(o) then [EscapeHtml(o.value)] else []
  }

  function Anchor(o: Option<string>, text: string): (r: seq<string>)
    ensures |r| <= 1
  {
    if Given(o) then ["<a href=\"" + EscapeHtml(o.value) + "\" target=\"_blank\">" + text + "</a>"] else []
  }

  /** The organisation in bold, then the given address lines, all escaped. */
  function FooterLines(s: FooterSettings): seq<string> {
    ["<strong>" + EscapeHtml(s.orgName) + "</strong>"] + OptLine(s.addressLine1) + OptLine(s.addressLine2)
  }

  /** The Website, Twitter and LinkedIn anchors, each iff its URL is given, in that order. */
  function FooterLinks(s: FooterSettings): seq<string> {
    Anchor(s.websiteUrl, "Website") + Anchor(s.twitterUrl, "Twitter") + Anchor(s.linkedinUrl, "LinkedIn")
  }

  function LinksHtml(links: seq<string>): string {
    if |links| > 0 then "<div style=\"margin-top:6px;\">" + Join(links, " · ") + "</div>" else ""
  }

  function UnsubHtml(s: FooterSettings): string {
    if Given(s.unsubscribeUrl) then
      "<div style=\"margin-top:6px;font-size:12px;\">You can <a href=\"" + EscapeHtml(s.unsubscribeUrl.value)
        + "\" target=\"_blank\">unsubscribe here</a>.</div>"
    else ""
  }

  const FooterOpen := "\n  <hr/>\n  <footer style=\"margin-top:16px;"

  /** Everything after the opening of the footer element's style. */
  function FooterRest(s: FooterSettings): string {
    (if Given(s.style) then s.style.value else DefaultFooterStyle) + "\">\n    <div>" + Join(FooterLines(s), "<br/>")
      + "</div>\n    " + LinksHtml(FooterLinks(s)) + "\n    " + UnsubHtml(s) + "\n  </footer>"
  }

  /** `renderFooterHtml(settings)`: custom markup verbatim, otherwise the standard footer. */
  function FooterHtml(s: FooterSettings): (r: string)
    ensures Given(s.customHtml) ==> r == s.customHtml.value
    ensures !Given(s.customHtml) ==> StartsWith(r, FooterOpen)
  {
    if Given(s.customHtml) then s.customHtml.value
    else
      assert StartsWith(FooterOpen + FooterRest(s), FooterOpen) by {
        assert (FooterOpen + FooterRest(s))[..|FooterOpen|] == FooterOpen;
      }
      FooterOpen + FooterRest(s)
  }

  /** Only the organisation line carries markup of its own: the address lines hold no raw `<` or `>`. */
  lemma FooterLinesEscaped(s: FooterSettings)
    ensures var ls := FooterLines(s);
      && ls[0] == "<strong>" + EscapeHtml(s.orgName) + "</strong>"
      && '<' !in EscapeHtml(s.orgName) && '>' !in EscapeHtml(s.orgName)
      && forall i :: 1 <= i < |ls| ==> '<' !in ls[i] && '>' !in ls[i]
  {
    EscapeHtmlNoSpecials(s.orgName);
    if Given(s.addressLine1) {
      EscapeHtmlNoSpecials(s.addressLine1.value);
    }
    if Given(s.addressLine2) {
      EscapeHtmlNoSpecials(s.addressLine2.value);
    }
  }

  /** The links row is present iff one of the three URLs is given, with one anchor per given URL. */
  lemma FooterLinksIff(s: FooterSettings)
    ensures |FooterLinks(s)| == (if Given(s.websiteUrl) then 1 else 0) + (if Given(s.twitterUrl) then 1 else 0)
      + (if Given(s.linkedinUrl) then 1 else 0)
    ensures LinksHtml(FooterLinks(s)) == "" <==> !Given(s.websiteUrl) && !Given(s.twitterUrl) && !Given(s.linkedinUrl)
  {
  }

  // ---------------------------------------------------------------------------
  // The e-mail

  /** An item handed to the renderer: a summary (url, summary, published) or a section (bodyHtml, takeaways). */
  datatype EmailItem = EmailItem(
    title: string,
    url: Option<string>,
    summary: Option<string>,
    published: Option<string>,
    bodyHtml: Option<string>,
    keyTakeaways: Option<seq<string>>)

  datatype Cta = Cta(title: string, text: string, url: string)

  datatype EmailArgs = EmailArgs(
    title: string,
    intro: Option<string>,
    newsletterType: Option<string>,
    features: Option<seq<string>>,
    links: Option<seq<string>>,
    location: Option<string>,
    content: Option<string>,
    keyDetails: Option<string>,
    tone: Option<string>,
    items: Option<seq<EmailItem>>,
    ctas: Option<seq<Cta>>)

  const DefaultIntro := "Here's what's new this week."

  /** The destructuring default: only a missing intro is replaced, an empty one stays. */
  function IntroBase(a: EmailArgs): string {
    if a.intro.Some? then a.intro.value else DefaultIntro
  }

  /** `text` when `o` is truthy, otherwise nothing. */
  function Clause(o: Option<string>, before: string, after: string): (r: string)
    ensures !Given(o) ==> r == ""
    ensures Given(o) ==> Contains(r, o.value)
  {
    if Given(o) then
      ContainsMiddle(before, o.value, after);
      before + o.value + after
    else ""
  }

  /** The intro followed by the type, location, tone, key-details and content clauses, in that order. */
  function EnhancedIntro(a: EmailArgs): (r: string)
    ensures StartsWith(r, IntroBase(a))
    ensures (!Given(a.newsletterType) && !Given(a.location) && !Given(a.tone) && !Given(a.keyDetails)
      && !Given(a.content)) ==> r == IntroBase(a)
  {
    var r := IntroBase(a) + Clause(a.newsletterType, " This ", " newsletter") + Clause(a.location, " focuses on ", "")
      + Clause(a.tone, " with a ", " tone") + Clause(a.keyDetails, ". Key highlights: ", "")
      + Clause(a.content, ". ", "");
    assert r == IntroBase(a) + r[|IntroBase(a)|..];
    assert r[..|IntroBase(a)|] == IntroBase(a);
    r
  }

  function ListItems(xs: seq<string>): string {
    Concat(seq(|xs|, i requires 0 <= i < |xs| => "<li>" + EscapeHtml(xs[i]) + "</li>"))
  }

  function LinkItems(xs: seq<string>): string {
    Concat(seq(|xs|, i requires 0 <= i < |xs| =>
      "<li><a href=\"" + EscapeHtml(xs[i]) + "\" target=\"_blank\">" + EscapeHtml(xs[i]) + "</a></li>"))
  }

  predicate NonEmpty<T>(o: Option<seq<T>>) {
    o.Some? && |o.value| > 0
  }

  const FeaturesOpen := "\n  <div style=\"margin:16px 0;padding:12px;background:#f5f5f5;border-radius:6px;\">\n    <h3 style=\"margin:0 0 8px;\">Content Features</h3>\n    <ul style=\"margin:0;padding-left:20px;\">\n      "
  const LinksOpen := "\n  <div style=\"margin:16px 0;padding:12px;background:#e8f4fd;border-radius:6px;\">\n    <h3 style=\"margin:0 0 8px;\">Related Links</h3>\n    <ul style=\"margin:0;padding-left:20px;\">\n      "
  const ListClose := "\n    </ul>\n  </div>"

  function FeaturesBlock(features: Option<seq<string>>): string {
    if NonEmpty(features) then
      FeaturesOpen + ListItems(features.value) + ListClose
    else ""
  }

  function LinksBlock(links: Option<seq<string>>): string {
    if NonEmpty(links) then
      LinksOpen + LinkItems(links.value) + ListClose
    else ""
  }

  function Bullets(kt: Option<seq<string>>): string {
    if NonEmpty(kt) then "<ul style=\"margin:8px 0 0 18px;\">" + ListItems(kt.value) + "</ul>" else ""
  }

  const SectionOpen := "<section" + " style=\"margin:20px 0;\">\n          <h2 style=\"margin:0 0 8px;\">"
  const SummaryOpen := "<div" + " style=\"margin:16px 0;\">\n        <h3 style=\"margin:0 0 4px;\">"

  /** A section: escaped title, the body as given, then the takeaways. */
  function SectionHtml(title: string, body: string, bullets: string): string {
    SectionOpen + title + "</h2>\n          " + body + "\n          " + bullets + "\n        </section>"
  }

  /** A summary block: escaped title and summary, then the optional link and date. */
  function SummaryHtml(title: string, summary: string, url: Option<string>, published: Option<string>): string {
    SummaryOpen + title + "</h3>\n        <p style=\"margin:0 0 4px;color:#333;\">" + summary + "</p>\n        "
      + (if Given(url) then "<a href=\"" + url.value + "\" style=\"font-size:14px;\">Read more →</a>" else "")
      + "\n        "
      + (if Given(published) then "<div style=\"font-size:12px;color:#777;\">Published: " + EscapeHtml(published.value) + "</div>" else "")
      + "\n      </div>"
  }

  /** One item's block: a `<section>` with the body as given, or a summary block. */
  function ItemHtml(it: EmailItem): string {
    if Given(it.bodyHtml) then SectionHtml(EscapeHtml(it.title), it.bodyHtml.value, Bullets(it.keyTakeaways))
    else SummaryHtml(EscapeHtml(it.title), EscapeHtml(if Given(it.summary) then it.summary.value else ""), it.url, it.published)
  }

  function ItemBlocks(items: seq<EmailItem>): (r: seq<string>)
    ensures |r| == |items| && forall i :: 0 <= i < |items| ==> r[i] == ItemHtml(items[i])
  {
    seq(|items|, i requires 0 <= i < |items| => ItemHtml(items[i]))
  }

  function CtaHtml(c: Cta): string {
    "<p><strong>" + EscapeHtml(c.title) + ":</strong> " + EscapeHtml(c.text) + " <a href=\"" + c.url + "\">→</a></p>"
  }

  const CtaOpen := "\n    <hr/>\n    <section style=\"margin:20px 0;\">\n      <h3>Keep going</h3>\n      "

  function CtaBlock(ctas: seq<Cta>): string {
    if |ctas| > 0 then
      CtaOpen + Concat(seq(|ctas|, i requires 0 <= i < |ctas| => CtaHtml(ctas[i]))) + "\n    </section>"
    else ""
  }

  const DocOpen := "<!doctype html>" + "\n<html><head><meta charset=\"utf-8\">"

  function TitleTag(title: string): string {
    "<title>" + EscapeHtml(title) + "</title>"
  }

  const BodyOpen := "</head>\n<body style=\"font-family:system-ui,-apple-system,Segoe UI,Roboto,sans-serif;padding:24px;\">\n  <h1 style=\"margin:0 0 8px;\">"

  /** From the title tag to the rule before the items. */
  function HeadAndIntro(a: EmailArgs, intro: string): string {
    TitleTag(a.title) + AfterTitle(a, intro)
  }

  function AfterTitle(a: EmailArgs, intro: string): string {
    BodyOpen
      + EscapeHtml(a.title) + "</h1>\n  <p style=\"color:#555;\">" + EscapeHtml(intro) + "</p>\n  "
      + FeaturesBlock(a.features) + "\n  " + LinksBlock(a.links) + "\n  <hr/>\n  "
  }

  function PageTop(a: EmailArgs, intro: string): string {
    DocOpen + HeadAndIntro(a, intro)
  }

  function PageEnd(footer: string): string {
    footer + "\n</body></html>"
  }

  /** From the end of the items to the end of the document. */
  function PageBottom(ctas: seq<Cta>, footer: string): string {
    "\n  " + CtaBlock(ctas) + "\n  " + PageEnd(footer)
  }

  /** `items = []` and `ctas = []`: the destructuring defaults. */
  function ItemsOf(a: EmailArgs): seq<EmailItem> {
    if a.items.Some? then a.items.value else []
  }

  function CtasOf(a: EmailArgs): seq<Cta> {
    if a.ctas.Some? then a.ctas.value else []
  }

  /** The document around a given (already enhanced) intro and footer. */
  function EmailPage(a: EmailArgs, intro: string, footer: string): string {
    PageTop(a, intro) + Concat(ItemBlocks(ItemsOf(a))) + PageBottom(CtasOf(a), footer)
  }

  /** `toolGenerateEmail(args).html` with the given footer settings. */
  function EmailHtml(a: EmailArgs, footer: FooterSettings): string {
    EmailPage(a, EnhancedIntro(a), FooterHtml(footer))
  }

  lemma OpeningTags()
    ensures StartsWith(SectionOpen, "<section") && StartsWith(SummaryOpen, "<div")
    ensures StartsWith(DocOpen, "<!doctype html>")
  {
    PrefixStartsWith("<section", SectionOpen[8..]);
    PrefixStartsWith("<div", SummaryOpen[4..]);
    PrefixStartsWith("<!doctype html>", DocOpen[15..]);
  }

  lemma SectionFacts(title: string, body: string, bullets: string)
    ensures var h := SectionHtml(title, body, bullets);
      StartsWith(h, "<section") && Contains(h, title) && Contains(h, body)
  {
    var m := "</h2>\n          ";
    var n := "\n          ";
    var z := "\n        </section>";
    OpeningTags();
    StartsWithExtend(SectionOpen, "<section", title);
    StartsWithExtend(SectionOpen + title, "<section", m);
    StartsWithExtend(SectionOpen + title + m, "<section", body);
    StartsWithExtend(SectionOpen + title + m + body, "<section", n);
    StartsWithExtend(SectionOpen + title + m + body + n, "<section", bullets);
    StartsWithExtend(SectionOpen + title + m + body + n + bullets, "<section", z);
    ContainsMiddle(SectionOpen, title, m);
    ContainsRight(SectionOpen + title + m, body, title);
    ContainsRight(SectionOpen + title + m + body, n, title);
    ContainsRight(SectionOpen + title + m + body + n, bullets, title);
    ContainsRight(SectionOpen + title + m + body + n + bullets, z, title);
    ContainsMiddle(SectionOpen + title + m, body, n);
    ContainsRight(SectionOpen + title + m + body + n, bullets, body);
    ContainsRight(SectionOpen + title + m + body + n + bullets, z, body);
  }

  lemma SummaryFacts(title: string, summary: string, url: Option<string>, published: Option<string>)
    ensures var h := SummaryHtml(title, summary, url, published);
      StartsWith(h, "<div") && Contains(h, title)
  {
    var h := SummaryHtml(title, summary, url, published);
    var head := SummaryOpen + title;
    var rest := h[|head|..];
    assert h == head + rest;
    OpeningTags();
    StartsWithExtend(SummaryOpen, "<div", title);
    StartsWithExtend(head, "<div", rest);
    assert Contains(head, title) by {
      assert head[|SummaryOpen|..|SummaryOpen| + |title|] == title;
      ContainsAt(head, title, |SummaryOpen|);
    }
    ContainsRight(head, rest, title);
  }

  /** The two kinds of block are told apart by their first tag. */
  lemma DivIsNotSection(h: string)
    requires StartsWith(h, "<div")
    ensures !StartsWith(h, "<section")
  {
    assert h[..4][1] == h[1];
    if |h| >= 8 {
      assert h[..8][1] == h[1];
    }
  }

  lemma SectionIsNotDiv(h: string)
    requires StartsWith(h, "<section")
    ensures !StartsWith(h, "<div")
  {
    assert h[..8][1] == h[1] && h[..4][1] == h[1];
  }

  /** An item with a truthy body becomes a section holding that body as is; any other item a summary block. */
  lemma ItemBlockKind(it: EmailItem)
    ensures StartsWith(ItemHtml(it), "<section") <==> Given(it.bodyHtml)
    ensures StartsWith(ItemHtml(it), "<div") <==> !Given(it.bodyHtml)
    ensures Given(it.bodyHtml) ==> Contains(ItemHtml(it), it.bodyHtml.value)
    ensures Contains(ItemHtml(it), EscapeHtml(it.title))
  {
    if Given(it.bodyHtml) {
      SectionFacts(EscapeHtml(it.title), it.bodyHtml.value, Bullets(it.keyTakeaways));
      SectionIsNotDiv(ItemHtml(it));
    } else {
      SummaryFacts(EscapeHtml(it.title), EscapeHtml(if Given(it.summary) then it.summary.value else ""), it.url, it.published);
      DivIsNotSection(ItemHtml(it));
    }
  }

  /** The call-to-action block is there iff there are calls to action, with one paragraph each. */
  lemma CtaBlockIff(ctas: seq<Cta>)
    ensures CtaBlock(ctas) == "" <==> ctas == []
    ensures forall i :: 0 <= i < |ctas| ==> Contains(CtaBlock(ctas), CtaHtml(ctas[i]))
  {
    if ctas != [] {
      var ps := seq(|ctas|, i requires 0 <= i < |ctas| => CtaHtml(ctas[i]));
      forall i | 0 <= i < |ctas| ensures Contains(CtaBlock(ctas), CtaHtml(ctas[i])) {
        ConcatContains(ps, i);
        ContainsWithin(CtaOpen, Concat(ps), "\n    </section>", CtaHtml(ctas[i]));
      }
    }
  }

  /** The page starts with the doctype. */
  lemma EmailStartsWithDoctype(a: EmailArgs, f: FooterSettings)
    ensures StartsWith(EmailHtml(a, f), "<!doctype html>")
  {
    var rest := HeadAndIntro(a, EnhancedIntro(a));
    var blocks := Concat(ItemBlocks(ItemsOf(a)));
    var bottom := PageBottom(CtasOf(a), FooterHtml(f));
    OpeningTags();
    StartsWithExtend(DocOpen, "<!doctype html>", rest);
    StartsWithExtend(DocOpen + rest, "<!doctype html>", blocks);
    StartsWithExtend(DocOpen + rest + blocks, "<!doctype html>", bottom);
  }

  /** The page ends with the footer and the closing tags. */
  lemma EmailEndsWithFooter(a: EmailArgs, f: FooterSettings)
    ensures EndsWith(EmailHtml(a, f), FooterHtml(f) + "\n</body></html>")
  {
    var top := PageTop(a, EnhancedIntro(a));
    var blocks := Concat(ItemBlocks(ItemsOf(a)));
    var end := PageEnd(FooterHtml(f));
    assert EndsWith(end, end);
    EndsWithExtend("\n  " + CtaBlock(CtasOf(a)) + "\n  ", end, end);
    EndsWithExtend(top + blocks, PageBottom(CtasOf(a), FooterHtml(f)), end);
  }

  /** The page names the title, escaped, so the title cannot open or close a tag. */
  lemma EmailNamesTitle(a: EmailArgs, f: FooterSettings)
    ensures Contains(EmailHtml(a, f), TitleTag(a.title))
    ensures '<' !in EscapeHtml(a.title) && '>' !in EscapeHtml(a.title)
  {
    EscapeHtmlNoSpecials(a.title);
    var rest := HeadAndIntro(a, EnhancedIntro(a));
    var blocks := Concat(ItemBlocks(ItemsOf(a)));
    var bottom := PageBottom(CtasOf(a), FooterHtml(f));
    var tag := TitleTag(a.title);
    assert Contains(tag, tag) by {
      ContainsAt(tag, tag, 0);
    }
    ContainsRight(tag, AfterTitle(a, EnhancedIntro(a)), tag);
    ContainsLeft(DocOpen, rest, tag);
    ContainsRight(DocOpen + rest, blocks, tag);
    ContainsRight(DocOpen + rest + blocks, bottom, tag);
  }

  /** Every item's block is in the page. */
  lemma EmailHoldsItems(a: EmailArgs, f: FooterSettings)
    ensures forall i :: 0 <= i < |ItemsOf(a)| ==> Contains(EmailHtml(a, f), ItemHtml(ItemsOf(a)[i]))
  {
    var items := ItemsOf(a);
    var top := PageTop(a, EnhancedIntro(a));
    var blocks := Concat(ItemBlocks(items));
    var bottom := PageBottom(CtasOf(a), FooterHtml(f));
    forall i | 0 <= i < |items| ensures Contains(EmailHtml(a, f), ItemHtml(items[i])) {
      ConcatContains(ItemBlocks(items), i);
      ContainsWithin(top, blocks, bottom, ItemHtml(items[i]));
    }
  }

  // ---------------------------------------------------------------------------
  // The tool state

  datatype SetFooterResult = SetFooterResult(ok: bool, settings: FooterSettings, html: string)

  /** The footer settings the mock tools keep between calls. */
  class FooterStore {
    var settings: FooterSettings

    constructor()
      ensures settings == InitialFooter
    {
      settings := InitialFooter;
    }

    /** `toolSetFooter(args)`: reset to the defaults (without a style) or merge the passed fields. */
    method SetFooter(p: FooterPatch) returns (r: SetFooterResult)
      modifies this
      ensures settings == if p.reset then ResetFooter else Merge(old(settings), p)
      ensures r == SetFooterResult(true, settings, FooterHtml(settings))
    {
      if p.reset {
        settings := ResetFooter;
      } else {
        settings := Merge(settings, p);
      }
      var html := RenderFooterHtml(settings);
      r := SetFooterResult(true, settings, html);
    }

    /** `toolGetFooter()`. */
    method GetFooter() returns (s: FooterSettings, html: string)
      ensures s == settings && html == FooterHtml(settings)
    {
      s := settings;
      html := RenderFooterHtml(settings);
    }

    /** `toolGenerateEmail(args)`: the intro grows clause by clause, then the page is rendered. */
    method GenerateEmail(a: EmailArgs) returns (html: string)
      ensures html == EmailHtml(a, settings)
    {
      var intro := BuildIntro(a);
      var footer := RenderFooterHtml(settings);
      html := EmailPage(a, intro, footer);
    }
  }

  /** The enhanced introduction of `generate_email`, one clause appended after another. */
  method BuildIntro(a: EmailArgs) returns (intro: string)
    ensures intro == EnhancedIntro(a)
  {
    intro := IntroBase(a);
    intro := AppendClause(intro, a.newsletterType, " This ", " newsletter");
    intro := AppendClause(intro, a.location, " focuses on ", "");
    intro := AppendClause(intro, a.tone, " with a ", " tone");
    intro := AppendClause(intro, a.keyDetails, ". Key highlights: ", "");
    intro := AppendClause(intro, a.content, ". ", "");
  }

  /** One `if (field) enhancedIntro += ...` step. */
  method AppendClause(intro: string, o: Option<string>, before: string, after: string) returns (r: string)
    ensures r == intro + Clause(o, before, after)
  {
    if Given(o) {
      r := intro + (before + o.value + after);
    } else {
      r := intro;
      assert r == intro + "";
    }
  }

  /** `renderFooterHtml(settings)`, building the line and link lists step by step. */
  method RenderFooterHtml(s: FooterSettings) returns (html: string)
    ensures html == FooterHtml(s)
  {
    if Given(s.customHtml) {
      return s.customHtml.value;
    }
    var lines := ["<strong>" + EscapeHtml(s.orgName) + "</strong>"];
    if Given(s.addressLine1) {
      lines := lines + [EscapeHtml(s.addressLine1.value)];
    }
    assert lines == ["<strong>" + EscapeHtml(s.orgName) + "</strong>"] + OptLine(s.addressLine1);
    if Given(s.addressLine2) {
      lines := lines + [EscapeHtml(s.addressLine2.value)];
    }
    assert lines == FooterLines(s);
    var links: seq<string> := [];
    if Given(s.websiteUrl) {
      links := links + ["<a href=\"" + EscapeHtml(s.websiteUrl.value) + "\" target=\"_blank\">" + "Website" + "</a>"];
    }
    assert links == Anchor(s.websiteUrl, "Website");
    if Given(s.twitterUrl) {
      links := links + ["<a href=\"" + EscapeHtml(s.twitterUrl.value) + "\" target=\"_blank\">" + "Twitter" + "</a>"];
    }
    assert links == Anchor(s.websiteUrl, "Website") + Anchor(s.twitterUrl, "Twitter");
    if Given(s.linkedinUrl) {
      links := links + ["<a href=\"" + EscapeHtml(s.linkedinUrl.value) + "\" target=\"_blank\">" + "LinkedIn" + "</a>"];
    }
    assert links == FooterLinks(s);
    var linksHtml := if |links| > 0 then "<div style=\"margin-top:6px;\">" + Join(links, " · ") + "</div>" else "";
    var unsub := UnsubHtml(s);
    var style := if Given(s.style) then s.style.value else DefaultFooterStyle;
    html := FooterOpen + (style + "\">\n    <div>" + Join(lines, "<br/>") + "</div>\n    "
      + linksHtml + "\n    " + unsub + "\n  </footer>");
  }
}
