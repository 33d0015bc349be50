/**
 * The themed footer builder and the theme style injection: conditional blocks
 * appended to a footer string, and one `<style>` element placed in the head
 * of a document (or a new document around a fragment).
 */
module FooterTheme {
  import opened Strings
  import opened ContentTools

  datatype SocialLinks = SocialLinks(
    twitter: Option<string>,
    linkedin: Option<string>,
    facebook: Option<string>,
    instagram: Option<string>)

  datatype FooterDetails = FooterDetails(
    companyName: Option<string>,
    address: Option<string>,
    phone: Option<string>,
    email: Option<string>,
    website: Option<string>,
    socialLinks: Option<SocialLinks>,
    copyright: Option<string>,
    unsubscribeText: Option<string>)

  datatype ThemeColors = ThemeColors(
    primary: Option<string>,
    secondary: Option<string>,
    accent: Option<string>,
    background: Option<string>,
    foreground: Option<string>)

  const DefaultPrimary := "#3b82f6"
  const DefaultSecondary := "#64748b"
  const DefaultAccent := "#f59e0b"
  const DefaultBackground := "#ffffff"
  const DefaultForeground := "#0f172a"

  /** `value || fallback`: a missing or empty value falls back. */
  function OrElse(o: Option<string>, fallback: string): (r: string)
    ensures Given(o) ==> r == o.value
    ensures !Given(o) ==> r == fallback
  {
    if Given(o) then o.value else fallback
  }

  /** A destructuring default: only a missing value falls back, an empty one stays. */
  function IfMissing(o: Option<string>, fallback: string): (r: string)
    ensures o.Some? ==> r == o.value
    ensures o.None? ==> r == fallback
  {
    if o.Some? then o.value else fallback
  }

  datatype FooterPalette = FooterPalette(primary: string, foreground: string, background: string)

  /** The three colours the footer uses, each defaulting when missing or empty. */
  function PaletteOf(theme: Option<ThemeColors>): (r: FooterPalette)
    ensures theme.None? ==> r == FooterPalette(DefaultPrimary, DefaultForeground, DefaultBackground)
    ensures theme.Some? ==> r.primary == OrElse(theme.value.primary, DefaultPrimary)
    ensures theme.Some? ==> r.foreground == OrElse(theme.value.foreground, DefaultForeground)
    ensures theme.Some? ==> r.background == OrElse(theme.value.background, DefaultBackground)
  {
    if theme.None? then FooterPalette(DefaultPrimary, DefaultForeground, DefaultBackground)
    else FooterPalette(
      OrElse(theme.value.primary, DefaultPrimary),
      OrElse(theme.value.foreground, DefaultForeground),
      OrElse(theme.value.background, DefaultBackground))
  }

  // ---------------------------------------------------------------------------
  // Footer pieces

  const FooterStart := "\n    <footer style=\"\n      margin-top: 2rem;\n      padding: 2rem 1rem;\n      background-color: "
  const FooterGrid := ";\n      font-family: -apple-system, BlinkMacSystemFont, 'Segoe UI', Roboto, sans-serif;\n    \">\n      <div style=\"max-width: 1200px; margin: 0 auto;\">\n        <div style=\"display: grid; grid-template-columns: repeat(auto-fit, minmax(250px, 1fr)); gap: 2rem; margin-bottom: 2rem;\">\n  "

  function FooterOpening(c: FooterPalette): string {
    FooterStart + c.background + ";\n      border-top: 2px solid " + c.primary + FooterGrid
  }

  const ParaStyle := "<p style=\"margin: 0.5rem 0; color: "
  const H3Style := "<h3 style=\"margin: 0 0 1rem 0; color: "
  const H3Rest := "; font-size: 1.1rem; font-weight: 600;\">"
  const AddressRest := "; font-size: 0.9rem; line-height: 1.4;\">"
  const PhoneRest := "; font-size: 0.9rem;\">\U{1F4DE} "
  const EmailRest := "; font-size: 0.9rem;\">\U{2709}\U{FE0F} "
  const WebsiteRest := "; font-size: 0.9rem;\">\U{1F310} <a href=\""
  const WebsiteStyle := "\" style=\"color: "
  const WebsiteStyleEnd := "; text-decoration: none;\">"
  const SocialStyleEnd := "; text-decoration: none; font-size: 0.9rem;\">"
  const SocialHead := "\n      <div>\n        <h4 style=\"margin: 0 0 1rem 0; color: "
  const SocialHeadRest := "; font-size: 1rem; font-weight: 600;\">Follow Us</h4>\n        <div style=\"display: flex; flex-wrap: wrap; gap: 1rem;\">\n    "
  const SmallRest := "; font-size: 0.8rem;\">"

  function CompanyLine(d: FooterDetails, c: FooterPalette): string {
    if Given(d.companyName) then
      H3Style + c.foreground + H3Rest + d.companyName.value + "</h3>"
    else ""
  }

  /** `address.replace(/\n/g, '<br>')`. */
  function AddressHtml(address: string): (r: string)
    ensures '\n' !in r
  {
    ReplaceCharRemoves(address, '\n', "<br>");
    ReplaceChar(address, '\n', "<br>")
  }

  function AddressLine(d: FooterDetails, c: FooterPalette): string {
    if Given(d.address) then
      ParaStyle + c.foreground + AddressRest + AddressHtml(d.address.value) + "</p>"
    else ""
  }

  function PhoneLine(d: FooterDetails, c: FooterPalette): string {
    if Given(d.phone) then ParaStyle + c.foreground + PhoneRest + d.phone.value + "</p>" else ""
  }

  function EmailLine(d: FooterDetails, c: FooterPalette): string {
    if Given(d.email) then ParaStyle + c.foreground + EmailRest + d.email.value + "</p>" else ""
  }

  function WebsiteLine(d: FooterDetails, c: FooterPalette): string {
    if Given(d.website) then
      ParaStyle + c.foreground + WebsiteRest + d.website.value + WebsiteStyle + c.primary + WebsiteStyleEnd
        + d.website.value + "</a></p>"
    else ""
  }

  predicate HasContact(d: FooterDetails) {
    Given(d.companyName) || Given(d.address) || Given(d.phone) || Given(d.email) || Given(d.website)
  }

  const Sep := "\n        "
  const ContactStart := "\n      <div>\n        "
  const BlockEnd := "\n      </div>\n    "

  /** The contact column, emitted iff one of its five fields is set. */
  function ContactBlock(d: FooterDetails, c: FooterPalette): string {
    if HasContact(d) then
      ContactStart + CompanyLine(d, c) + Sep + AddressLine(d, c) + ContactTail(d, c)
    else ""
  }

  function ContactTail(d: FooterDetails, c: FooterPalette): string {
    Sep + PhoneLine(d, c) + Sep + EmailLine(d, c) + Sep + WebsiteLine(d, c) + BlockEnd
  }

  predicate HasSocial(s: Option<SocialLinks>) {
    s.Some? && (Given(s.value.twitter) || Given(s.value.linkedin) || Given(s.value.facebook) || Given(s.value.instagram))
  }

  function SocialAnchor(url: string, name: string, c: FooterPalette): string {
    "<a href=\"" + url + "\" style=\"color: " + c.primary + SocialStyleEnd + name + "</a>"
  }

  function AnchorIf(o: Option<string>, name: string, c: FooterPalette): (r: seq<string>)
    ensures |r| == if Given(o) then 1 else 0
  {
    if Given(o) then [SocialAnchor(o.value, name, c)] else []
  }

  /** The anchors of the set links, in the order Twitter, LinkedIn, Facebook, Instagram. */
  function SocialAnchors(s: SocialLinks, c: FooterPalette): (r: seq<string>)
    ensures |r| == (if Given(s.twitter) then 1 else 0) + (if Given(s.linkedin) then 1 else 0)
      + (if Given(s.facebook) then 1 else 0) + (if Given(s.instagram) then 1 else 0)
  {
    AnchorIf(s.twitter, "Twitter", c) + AnchorIf(s.linkedin, "LinkedIn", c)
      + AnchorIf(s.facebook, "Facebook", c) + AnchorIf(s.instagram, "Instagram", c)
  }

  const SocialEnd := "\n        </div>\n      </div>\n    "

  function SocialStart(c: FooterPalette): string {
    SocialHead + c.foreground + SocialHeadRest
  }

  /** The social column, emitted iff one of the four links is set. */
  function SocialBlock(s: Option<SocialLinks>, c: FooterPalette): string {
    if HasSocial(s) then SocialStart(c) + Concat(SocialAnchors(s.value, c)) + SocialEnd else ""
  }

  const BottomStart := "\n        </div>\n        <div style=\"border-top: 1px solid #e5e7eb; padding-top: 1rem; text-align: center;\">\n  "

  function CopyrightLine(d: FooterDetails, c: FooterPalette, year: int): string {
    if Given(d.copyright) then
      ParaStyle + c.foreground + SmallRest + ("\U{00A9} " + IntToString(year) + " " + d.copyright.value) + "</p>"
    else ""
  }

  function UnsubscribeLine(d: FooterDetails, c: FooterPalette): string {
    if Given(d.unsubscribeText) then ParaStyle + c.foreground + SmallRest + d.unsubscribeText.value + "</p>"
    else ""
  }

  /** The closing note, always the last paragraph. */
  const AiNote := "\n          <p style=\"margin: 1rem 0 0 0; color: #6b7280; font-size: 0.8rem;\">\n            This newsletter was generated with AI assistance\n          </p>\n        </div>\n      </div>\n    </footer>\n  "

  /** The opening and the contact and social columns. */
  function FooterColumns(d: FooterDetails, c: FooterPalette): string {
    FooterOpening(c) + ContactBlock(d, c) + SocialBlock(d.socialLinks, c)
  }

  /** `generateFooterHTML(footerDetails, themeColors)` with the current year given. */
  function FooterMarkup(details: Option<FooterDetails>, theme: Option<ThemeColors>, year: int): string {
    if details.None? then "" else FooterOf(details.value, PaletteOf(theme), year)
  }

  /** The footer for given details in a resolved palette. */
  function FooterOf(d: FooterDetails, c: FooterPalette, year: int): string {
    FooterColumns(d, c) + BottomStart + CopyrightLine(d, c, year) + UnsubscribeLine(d, c) + AiNote
  }

  /** The anchors of the set social links, appended one after the other. */
  method SocialRow(s: SocialLinks, c: FooterPalette) returns (row: string)
    ensures row == Concat(SocialAnchors(s, c))
  {
    row := "";
    ghost var shown: seq<string> := [];
    if Given(s.twitter) {
      row := row + SocialAnchor(s.twitter.value, "Twitter", c);
      ConcatSnoc(shown, SocialAnchor(s.twitter.value, "Twitter", c));
      shown := shown + [SocialAnchor(s.twitter.value, "Twitter", c)];
    }
    assert shown == AnchorIf(s.twitter, "Twitter", c) && row == Concat(shown);
    if Given(s.linkedin) {
      row := row + SocialAnchor(s.linkedin.value, "LinkedIn", c);
      ConcatSnoc(shown, SocialAnchor(s.linkedin.value, "LinkedIn", c));
      shown := shown + [SocialAnchor(s.linkedin.value, "LinkedIn", c)];
    }
    assert shown == AnchorIf(s.twitter, "Twitter", c) + AnchorIf(s.linkedin, "LinkedIn", c);
    if Given(s.facebook) {
      row := row + SocialAnchor(s.facebook.value, "Facebook", c);
      ConcatSnoc(shown, SocialAnchor(s.facebook.value, "Facebook", c));
      shown := shown + [SocialAnchor(s.facebook.value, "Facebook", c)];
    }
    assert shown == AnchorIf(s.twitter, "Twitter", c) + AnchorIf(s.linkedin, "LinkedIn", c)
      + AnchorIf(s.facebook, "Facebook", c);
    if Given(s.instagram) {
      row := row + SocialAnchor(s.instagram.value, "Instagram", c);
      ConcatSnoc(shown, SocialAnchor(s.instagram.value, "Instagram", c));
      shown := shown + [SocialAnchor(s.instagram.value, "Instagram", c)];
    }
    assert shown == SocialAnchors(s, c);
  }

  /** `generateFooterHTML`, appending block after block. */
  method GenerateFooterHtml(details: Option<FooterDetails>, theme: Option<ThemeColors>, year: int) returns (html: string)
    ensures html == FooterMarkup(details, theme, year)
  {
    if details.None? {
      return "";
    }
    var d := details.value;
    var c := PaletteOf(theme);
    var columns := OpenColumns(d, c);
    var closing := ClosingRows(d, c, year);
    html := columns + BottomStart;
    html := html + closing;
    html := html + AiNote;
    FooterParts(FooterColumns(d, c), BottomStart, CopyrightLine(d, c, year), UnsubscribeLine(d, c), AiNote);
  }

  /** The bottom paragraphs of `generateFooterHTML`: copyright, then unsubscribe, each when set. */
  method ClosingRows(d: FooterDetails, c: FooterPalette, year: int) returns (rows: string)
    ensures rows == CopyrightLine(d, c, year) + UnsubscribeLine(d, c)
  {
    rows := "";
    if Given(d.copyright) {
      rows := rows + CopyrightLine(d, c, year);
    }
    assert rows == CopyrightLine(d, c, year);
    if Given(d.unsubscribeText) {
      rows := rows + UnsubscribeLine(d, c);
    }
  }

  lemma FooterParts(a: string, b: string, x: string, y: string, z: string)
    ensures a + b + (x + y) + z == a + b + x + y + z
  {
  }

  /** The first half of `generateFooterHTML`: the opening, then each column that has content. */
  method OpenColumns(d: FooterDetails, c: FooterPalette) returns (html: string)
    ensures html == FooterColumns(d, c)
  {
    html := FooterOpening(c);
    if HasContact(d) {
      html := html + ContactBlock(d, c);
    }
    assert html == FooterOpening(c) + ContactBlock(d, c);
    if HasSocial(d.socialLinks) {
      var row := SocialRow(d.socialLinks.value, c);
      html := html + (SocialStart(c) + row + SocialEnd);
    }
  }

  // ---------------------------------------------------------------------------
  // Footer properties

  /** The contact column is there iff a contact field is set; a set address appears with its line breaks as `<br>`. */
  lemma ContactBlockIff(d: FooterDetails, c: FooterPalette)
    ensures ContactBlock(d, c) != "" <==> HasContact(d)
    ensures Given(d.address) ==> Contains(ContactBlock(d, c), AddressHtml(d.address.value))
  {
    if HasContact(d) {
      assert |ContactBlock(d, c)| >= |ContactStart| > 0;
    }
    if Given(d.address) {
      var a := AddressHtml(d.address.value);
      var pre := ParaStyle + c.foreground + AddressRest;
      ContainsMiddle(pre, a, "</p>");
      ContainsWithin(ContactStart + CompanyLine(d, c) + Sep, AddressLine(d, c), ContactTail(d, c), a);
    }
  }

  /** The social column is there iff a link is set, and holds exactly the set links' anchors, in order. */
  lemma SocialBlockIff(s: Option<SocialLinks>, c: FooterPalette)
    ensures SocialBlock(s, c) != "" <==> HasSocial(s)
    ensures HasSocial(s) ==> forall i :: 0 <= i < |SocialAnchors(s.value, c)| ==>
      Contains(SocialBlock(s, c), SocialAnchors(s.value, c)[i])
  {
    if HasSocial(s) {
      assert |SocialBlock(s, c)| >= |SocialEnd| > 0;
      var xs := SocialAnchors(s.value, c);
      forall i | 0 <= i < |xs| ensures Contains(SocialBlock(s, c), xs[i]) {
        ConcatContains(xs, i);
        ContainsWithin(SocialStart(c), Concat(xs), SocialEnd, xs[i]);
      }
    }
  }

  /** The copyright and unsubscribe paragraphs are there iff set; the copyright one names the year. */
  lemma ClosingParagraphs(d: FooterDetails, c: FooterPalette, year: int)
    ensures CopyrightLine(d, c, year) != "" <==> Given(d.copyright)
    ensures Given(d.copyright) ==>
      Contains(CopyrightLine(d, c, year), "\U{00A9} " + IntToString(year) + " " + d.copyright.value)
    ensures UnsubscribeLine(d, c) != "" <==> Given(d.unsubscribeText)
  {
    if Given(d.copyright) {
      ContainsMiddle(ParaStyle + c.foreground + SmallRest, "\U{00A9} " + IntToString(year) + " " + d.copyright.value, "</p>");
    }
    if Given(d.unsubscribeText) {
      assert |UnsubscribeLine(d, c)| >= |ParaStyle| > 0;
    }
  }

  /** Without details the footer is empty; with details it is not, and the AI note closes it. */
  lemma FooterEndsWithNote(details: Option<FooterDetails>, theme: Option<ThemeColors>, year: int)
    ensures FooterMarkup(details, theme, year) == "" <==> details.None?
    ensures details.Some? ==> EndsWith(FooterMarkup(details, theme, year), AiNote)
  {
    if details.Some? {
      var d, c := details.value, PaletteOf(theme);
      var body := FooterColumns(d, c) + BottomStart + CopyrightLine(d, c, year) + UnsubscribeLine(d, c);
      EndsWithAppended(body, AiNote);
      assert FooterOf(d, c, year) == body + AiNote;
    }
  }

  // ---------------------------------------------------------------------------
  // Theme injection

  datatype FullPalette = FullPalette(primary: string, secondary: string, accent: string, background: string, foreground: string)

  /** The destructuring defaults of `applyThemeColors`: only missing colours fall back. */
  function FullPaletteOf(t: ThemeColors): (r: FullPalette)
    ensures r.primary == IfMissing(t.primary, DefaultPrimary) && r.secondary == IfMissing(t.secondary, DefaultSecondary)
    ensures r.accent == IfMissing(t.accent, DefaultAccent) && r.background == IfMissing(t.background, DefaultBackground)
    ensures r.foreground == IfMissing(t.foreground, DefaultForeground)
  {
    FullPalette(
      IfMissing(t.primary, DefaultPrimary), IfMissing(t.secondary, DefaultSecondary),
      IfMissing(t.accent, DefaultAccent), IfMissing(t.background, DefaultBackground),
      IfMissing(t.foreground, DefaultForeground))
  }

  /** The `<style>` element with the colour variables and rules. */
  function ThemeCss(p: FullPalette): string {
    "\n    <style>\n      :root {\n        --primary: " + p.primary
      + ";\n        --secondary: " + p.secondary
      + ";\n        --accent: " + p.accent
      + ";\n        --background: " + p.background
      + ";\n        --foreground: " + p.foreground
      + ";\n      }\n      body {\n        background-color: " + p.background
      + ";\n        color: " + p.foreground
      + ";\n      }\n      .primary { color: " + p.primary
      + "; }\n      .bg-primary { background-color: " + p.primary
      + "; }\n      .border-primary { border-color: " + p.primary
      + "; }\n      .accent { color: " + p.accent
      + "; }\n      .bg-accent { background-color: " + p.accent
      + "; }\n      a { color: " + p.primary
      + "; }\n      h1, h2, h3, h4, h5, h6 { color: " + p.foreground
      + "; }\n      .btn-primary {\n        background-color: " + p.primary
      + ";\n        color: " + p.background
      + ";\n        border: 1px solid " + p.primary
      + ";\n      }\n      .btn-secondary {\n        background-color: transparent;\n        color: " + p.primary
      + ";\n        border: 1px solid " + p.primary
      + ";\n      }\n    </style>\n  "
  }

  const DocStart := "<!DOCTYPE html><html><head>"
  const DocMiddle := "</head><body>"
  const DocEnd := "</body></html>"

  /** Places `css` after the first `<head>`, else in a new head after the first `<html>`, else in a new document. */
  function InsertStyle(html: string, css: string): string {
    if Contains(html, "<head>") then ReplaceFirst(html, "<head>", "<head>" + css)
    else if Contains(html, "<html>") then ReplaceFirst(html, "<html>", "<html><head>" + css + "</head>")
    else DocStart + css + DocMiddle + html + DocEnd
  }

  /** `applyThemeColors(html, themeColors)`. */
  function ApplyThemeColors(html: string, theme: Option<ThemeColors>): (r: string)
    ensures theme.None? ==> r == html
    ensures theme.Some? ==> r == InsertStyle(html, ThemeCss(FullPaletteOf(theme.value)))
  {
    if theme.None? then html else InsertStyle(html, ThemeCss(FullPaletteOf(theme.value)))
  }

  lemma DollarFreeJoin(a: string, b: string)
    requires '$' !in a && '$' !in b
    ensures '$' !in a + b
  {
  }

  /**
   * The style is placed once: right after the first `<head>`, else in a new
   * head right after the first `<html>`, else in a new document around the
   * input. (`String.prototype.replace` reads a `$` in the replacement as a
   * pattern; the splice is stated for a style without one.)
   */
  lemma StyleInsertedOnce(html: string, css: string)
    requires '$' !in css
    ensures var r := InsertStyle(html, css);
      && (Contains(html, "<head>") ==>
            var i := IndexOf(html, "<head>").value;
            r == html[..i] + "<head>" + css + html[i + 6..] && |r| == |html| + |css|)
      && (!Contains(html, "<head>") && Contains(html, "<html>") ==>
            var i := IndexOf(html, "<html>").value;
            r == html[..i] + ("<html><head>" + css + "</head>") + html[i + 6..] && |r| == |html| + |css| + 13)
      && (!Contains(html, "<head>") && !Contains(html, "<html>") ==>
            r == DocStart + css + DocMiddle + html + DocEnd && |r| == |html| + |css| + 54)
  {
    if Contains(html, "<head>") {
      DollarFreeJoin("<head>", css);
    } else if Contains(html, "<html>") {
      DollarFreeJoin("<html><head>", css);
      DollarFreeJoin("<html><head>" + css, "</head>");
    }
  }
}
