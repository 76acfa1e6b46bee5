/**
 * The six-slide deck that create_presentation.py assembles with python-pptx.
 *
 * The deck is a value (Deck, Slide, Shape, TextFrame, Paragraph); the
 * library's presentation object is the class DeckBuilder, whose methods are
 * the library calls the script makes: append a slide, append a text box,
 * set a frame's text, append a paragraph, and set properties of a
 * paragraph or a shape. Lengths are English Metric Units (EMU), the
 * library's own integer unit: 914400 per inch and 12700 per point.
 */
module DeckAssembly {
  import opened Wrappers

  // ---------------------------------------------------------------------
  // Units and colours
  // ---------------------------------------------------------------------

  /** Inches(h / 100): a length given in hundredths of an inch, in EMU. */
  function In(hundredths: int): (emu: int)
    ensures emu * 100 == hundredths * 914400
  {
    hundredths * 9144
  }

  /** Pt(n) in EMU. */
  function Pt(points: int): (emu: int)
    ensures emu * 72 == points * 914400
  {
    points * 12700
  }

  type Channel = x: int | 0 <= x <= 255

  /** RGBColor; the library refuses a channel outside 0..255. */
  datatype Rgb = Rgb(r: Channel, g: Channel, b: Channel)

  datatype Align = Left | Center | Right

  const Blue: Rgb := Rgb(41, 128, 185)
  const White: Rgb := Rgb(255, 255, 255)
  const Cloud: Rgb := Rgb(236, 240, 241)
  const Slate: Rgb := Rgb(52, 73, 94)
  const Green: Rgb := Rgb(39, 174, 96)

  // ---------------------------------------------------------------------
  // The document model
  // ---------------------------------------------------------------------

  /** One paragraph with its own font and spacing; None is a property the script never set. */
  datatype Paragraph = Paragraph(
    text: string,
    size: Option<int>,
    bold: Option<bool>,
    color: Option<Rgb>,
    align: Option<Align>,
    spaceBefore: Option<int>,
    spaceAfter: Option<int>)

  /** wordWrap None: a frame whose word wrap the script never set (python-pptx creates a text box with wrapping off). */
  datatype TextFrame = TextFrame(paragraphs: seq<Paragraph>, wordWrap: Option<bool>)

  /** A text box; `fill` None means no fill. */
  datatype Shape = TextBox(x: int, y: int, width: int, height: int, frame: TextFrame, fill: Option<Rgb>)

  datatype Slide = Slide(layout: nat, background: Option<Rgb>, shapes: seq<Shape>)

  datatype Deck = Deck(width: int, height: int, slides: seq<Slide>)

  function PlainParagraph(text: string): Paragraph {
    Paragraph(text, None, None, None, None, None, None)
  }

  function PlainParagraphs(lines: seq<string>): (ps: seq<Paragraph>)
    ensures |ps| == |lines|
    ensures forall i :: 0 <= i < |lines| ==> ps[i] == PlainParagraph(lines[i])
  {
    seq(|lines|, i requires 0 <= i < |lines| => PlainParagraph(lines[i]))
  }

  /** A new text box holds one empty paragraph. */
  function NewTextBox(x: int, y: int, width: int, height: int): Shape {
    TextBox(x, y, width, height, TextFrame([PlainParagraph("")], None), None)
  }

  // ---------------------------------------------------------------------
  // Text: the frame's text setter makes one paragraph per line
  // ---------------------------------------------------------------------

  function SplitLines(s: string): (lines: seq<string>)
    ensures |lines| >= 1
    ensures forall i :: 0 <= i < |lines| ==> '\n' !in lines[i]
    ensures '\n' !in s ==> lines == [s]
  {
    if s == [] then [""]
    else
      var rest := SplitLines(s[1..]);
      if s[0] == '\n' then [""] + rest
      else
        assert '\n' !in s[1..] ==> rest == [s[1..]] && [s[0]] + s[1..] == s;
        [[s[0]] + rest[0]] + rest[1..]
  }

  function JoinLines(lines: seq<string>): string
    requires |lines| >= 1
  {
    if |lines| == 1 then lines[0] else lines[0] + "\n" + JoinLines(lines[1..])
  }

  /** Splitting loses nothing: joining the lines with '\n' gives the text back. */
  lemma {:induction false} SplitLinesRoundTrip(s: string)
    ensures JoinLines(SplitLines(s)) == s
  {
    if s != [] {
      SplitLinesRoundTrip(s[1..]);
      var rest := SplitLines(s[1..]);
      if s[0] != '\n' && |rest| > 1 {
        assert JoinLines(rest) == rest[0] + "\n" + JoinLines(rest[1..]);
      }
    }
  }

  /** The characters Python's str.isspace accepts, which str.strip() removes. */
  predicate IsSpace(ch: char) {
    var c := ch as int;
    (0x09 <= c <= 0x0D) || (0x1C <= c <= 0x20) || c == 0x85 || c == 0xA0 || c == 0x1680
    || (0x2000 <= c <= 0x200A) || c == 0x2028 || c == 0x2029 || c == 0x202F || c == 0x205F || c == 0x3000
  }

  predicate AllSpace(s: string) {
    forall i :: 0 <= i < |s| ==> IsSpace(s[i])
  }

  /** str.strip() with no argument. */
  function Strip(s: string): (r: string)
    ensures |r| <= |s|
    ensures r == "" || (!IsSpace(r[0]) && !IsSpace(r[|r| - 1]))
  {
    if s != [] && IsSpace(s[0]) then Strip(s[1..])
    else if s != [] && IsSpace(s[|s| - 1]) then Strip(s[..|s| - 1])
    else s
  }

  lemma AllSpaceCons(ch: char, t: string)
    requires IsSpace(ch) && AllSpace(t)
    ensures AllSpace([ch] + t)
  {
    assert forall k :: 1 <= k < |t| + 1 ==> ([ch] + t)[k] == t[k - 1];
  }

  lemma AllSpaceSnoc(t: string, ch: char)
    requires AllSpace(t) && IsSpace(ch)
    ensures AllSpace(t + [ch])
  {
    assert forall k :: 0 <= k < |t| ==> (t + [ch])[k] == t[k];
  }

  /** `r` is `s` with a run of whitespace removed before index `start` and after the text kept. */
  predicate TrimmedAt(s: string, r: string, start: nat) {
    start + |r| <= |s| && r == s[start..start + |r|] && AllSpace(s[..start]) && AllSpace(s[start + |r|..])
  }

  /** The first branch of Strip: a leading whitespace character moves the kept run one place right. */
  lemma StripTrimsFront(s: string, r: string, i: nat)
    requires s != [] && IsSpace(s[0]) && TrimmedAt(s[1..], r, i)
    ensures TrimmedAt(s, r, i + 1)
  {
    assert s[1..][i..i + |r|] == s[i + 1..i + 1 + |r|];
    assert s[..i + 1] == [s[0]] + s[1..][..i];
    AllSpaceCons(s[0], s[1..][..i]);
    assert s[1..][i + |r|..] == s[i + 1 + |r|..];
  }

  /** The second branch of Strip: a trailing whitespace character joins the run after the kept text. */
  lemma StripTrimsBack(s: string, r: string, i: nat)
    requires s != [] && IsSpace(s[|s| - 1]) && TrimmedAt(s[..|s| - 1], r, i)
    ensures TrimmedAt(s, r, i)
  {
    assert s[..|s| - 1][i..i + |r|] == s[i..i + |r|];
    assert s[..|s| - 1][..i] == s[..i];
    assert s[i + |r|..] == s[..|s| - 1][i + |r|..] + [s[|s| - 1]];
    AllSpaceSnoc(s[..|s| - 1][i + |r|..], s[|s| - 1]);
  }

  /** Strip removes exactly a run of whitespace at each end, starting at the returned index; its ensures say it leaves none. */
  lemma {:induction false} StripTrims(s: string) returns (start: nat)
    ensures TrimmedAt(s, Strip(s), start)
  {
    if s != [] && IsSpace(s[0]) {
      var t := s[1..];
      assert Strip(s) == Strip(t);
      var i := StripTrims(t);
      StripTrimsFront(s, Strip(t), i);
      start := i + 1;
    } else if s != [] && IsSpace(s[|s| - 1]) {
      var t := s[..|s| - 1];
      assert Strip(s) == Strip(t);
      start := StripTrims(t);
      StripTrimsBack(s, Strip(t), start);
    } else {
      start := 0;
      assert s[0..|s|] == s;
    }
  }

  /** Separators and non-ASCII spaces are stripped too, as Python strips them. */
  lemma StripUnicodeSpace()
    ensures Strip([0x1C as char]) == ""
    ensures Strip([0x3000 as char, 'a', 'b', 0xA0 as char]) == "ab"
  {
    var s := [0x3000 as char, 'a', 'b', 0xA0 as char];
    assert IsSpace(s[0]) && s[1..] == ['a', 'b', 0xA0 as char];
    assert Strip(s) == Strip(s[1..]);
    var t := s[1..];
    assert !IsSpace(t[0]) && IsSpace(t[|t| - 1]) && t[..|t| - 1] == "ab";
    assert Strip(t) == Strip("ab");
    assert !IsSpace('a') && !IsSpace('b');
    var x := [0x1C as char];
    assert IsSpace(x[0]) && x[1..] == [];
  }

  function Texts(ps: seq<Paragraph>): (ts: seq<string>)
    ensures |ts| == |ps|
    ensures forall i :: 0 <= i < |ps| ==> ts[i] == ps[i].text
  {
    seq(|ps|, i requires 0 <= i < |ps| => ps[i].text)
  }

  /** The character a line break inside a paragraph reads back as. */
  const VerticalTab: char := 11 as char

  /**
   * The paragraph's text setter: a '\n' in the assigned text becomes a line
   * break inside the paragraph, which the getters read back as '\v'.
   */
  function ParagraphText(s: string): (r: string)
    ensures |r| == |s| && '\n' !in r
    ensures forall i :: 0 <= i < |s| && s[i] != '\n' ==> r[i] == s[i]
    ensures forall i :: 0 <= i < |s| && s[i] == '\n' ==> r[i] == VerticalTab
  {
    seq(|s|, i requires 0 <= i < |s| => if s[i] == '\n' then VerticalTab else s[i])
  }

  /** A text without line breaks is stored as it is; setting a stored text again changes nothing. */
  lemma ParagraphTextStable(s: string)
    ensures '\n' !in s ==> ParagraphText(s) == s
    ensures ParagraphText(ParagraphText(s)) == ParagraphText(s)
  {
    if '\n' !in s {
      assert forall i :: 0 <= i < |s| ==> ParagraphText(s)[i] == s[i];
    }
    assert forall i :: 0 <= i < |s| ==> ParagraphText(ParagraphText(s))[i] == ParagraphText(s)[i];
  }

  /** The stored texts of a run of paragraph-setter assignments. */
  function ParagraphTexts(items: seq<string>): (ts: seq<string>)
    ensures |ts| == |items|
    ensures forall i :: 0 <= i < |items| ==> ts[i] == ParagraphText(items[i])
  {
    seq(|items|, i requires 0 <= i < |items| => ParagraphText(items[i]))
  }

  /** Items without line breaks are stored as they are. */
  lemma ParagraphTextsKeepItems(items: seq<string>)
    requires forall i :: 0 <= i < |items| ==> '\n' !in items[i]
    ensures ParagraphTexts(items) == items
  {
    forall i | 0 <= i < |items|
      ensures ParagraphTexts(items)[i] == items[i]
    {
      ParagraphTextStable(items[i]);
    }
  }

  /** The frame's text getter: its paragraphs' texts joined by line breaks. */
  function FrameText(f: TextFrame): string
    requires |f.paragraphs| >= 1
  {
    JoinLines(Texts(f.paragraphs))
  }

  /** Setting a frame's text and reading it back gives the same text. */
  lemma SetTextReadsBack(text: string, wrap: Option<bool>)
    ensures |PlainParagraphs(SplitLines(text))| >= 1
    ensures FrameText(TextFrame(PlainParagraphs(SplitLines(text)), wrap)) == text
  {
    assert Texts(PlainParagraphs(SplitLines(text))) == SplitLines(text);
    SplitLinesRoundTrip(text);
  }

  // ---------------------------------------------------------------------
  // The builder (python-pptx's Presentation object)
  // ---------------------------------------------------------------------

  /** The "Blank" layout, slide_layouts[6] of the default template. */
  const BlankLayout: nat := 6

  function UpdateShape(slides: seq<Slide>, k: nat, j: nat, s: Shape): (r: seq<Slide>)
    requires k < |slides| && j < |slides[k].shapes|
  {
    slides[k := slides[k].(shapes := slides[k].shapes[j := s])]
  }

  function AppendShape(slides: seq<Slide>, k: nat, s: Shape): (r: seq<Slide>)
    requires k < |slides|
  {
    slides[k := slides[k].(shapes := slides[k].shapes + [s])]
  }

  /** Appending to the last slide leaves the earlier ones alone. */
  lemma AppendShapeToLast(done: seq<Slide>, last: Slide, s: Shape)
    ensures AppendShape(done + [last], |done|, s) == done + [last.(shapes := last.shapes + [s])]
  {
  }

  lemma ShapeOfAppended(slides: seq<Slide>, k: nat, s: Shape)
    requires k < |slides|
    ensures |AppendShape(slides, k, s)| == |slides|
    ensures AppendShape(slides, k, s)[k].shapes[|slides[k].shapes|] == s
  {
  }

  /** Replacing a shape just appended is appending the replacement. */
  lemma ReplaceAppended(slides: seq<Slide>, k: nat, s: Shape, t: Shape)
    requires k < |slides|
    ensures |AppendShape(slides, k, s)| == |slides|
    ensures UpdateShape(AppendShape(slides, k, s), k, |slides[k].shapes|, t) == AppendShape(slides, k, t)
  {
    var r := AppendShape(slides, k, s);
    assert r[k].shapes[|slides[k].shapes| := t] == slides[k].shapes + [t];
  }

  lemma UpdateShapeOfLast(done: seq<Slide>, last: Slide, j: nat, s: Shape)
    requires j < |last.shapes|
    ensures UpdateShape(done + [last], |done|, j, s) == done + [last.(shapes := last.shapes[j := s])]
  {
  }

  function WithParagraphs(s: Shape, ps: seq<Paragraph>): Shape {
    s.(frame := s.frame.(paragraphs := ps))
  }

  class DeckBuilder {
    var width: int
    var height: int
    var slides: seq<Slide>

    function Current(): Deck
      reads this
    {
      Deck(width, height, slides)
    }

    /** Presentation(): the default template's 10 x 7.5 inch page and no slides. */
    constructor ()
      ensures width == In(1000) && height == In(750) && slides == []
    {
      width, height, slides := In(1000), In(750), [];
    }

    method AddSlide(layout: nat) returns (k: nat)
      modifies this`slides
      ensures k == |old(slides)|
      ensures slides == old(slides) + [Slide(layout, None, [])]
    {
      k := |slides|;
      slides := slides + [Slide(layout, None, [])];
    }

    /** background.fill.solid(); fore_color.rgb = color */
    method SetBackground(k: nat, color: Rgb)
      requires k < |slides|
      modifies this`slides
      ensures slides == old(slides)[k := old(slides)[k].(background := Some(color))]
    {
      slides := slides[k := slides[k].(background := Some(color))];
    }

    method AddTextBox(k: nat, x: int, y: int, w: int, h: int) returns (j: nat)
      requires k < |slides|
      modifies this`slides
      ensures j == |old(slides)[k].shapes|
      ensures slides == AppendShape(old(slides), k, NewTextBox(x, y, w, h))
    {
      j := |slides[k].shapes|;
      slides := AppendShape(slides, k, NewTextBox(x, y, w, h));
    }

    /** text_frame.text = text: the frame's paragraphs become the lines of `text`, unstyled. */
    method SetText(k: nat, j: nat, text: string)
      requires k < |slides| && j < |slides[k].shapes|
      modifies this`slides
      ensures slides == UpdateShape(old(slides), k, j, WithParagraphs(old(slides)[k].shapes[j], PlainParagraphs(SplitLines(text))))
    {
      slides := UpdateShape(slides, k, j, WithParagraphs(slides[k].shapes[j], PlainParagraphs(SplitLines(text))));
    }

    /** text_frame.word_wrap = wrap */
    method SetWordWrap(k: nat, j: nat, wrap: bool)
      requires k < |slides| && j < |slides[k].shapes|
      modifies this`slides
      ensures var s := old(slides)[k].shapes[j];
              slides == UpdateShape(old(slides), k, j, s.(frame := s.frame.(wordWrap := Some(wrap))))
    {
      var s := slides[k].shapes[j];
      slides := UpdateShape(slides, k, j, s.(frame := s.frame.(wordWrap := Some(wrap))));
    }

    /** text_frame.add_paragraph(): appends an empty paragraph and returns its index. */
    method AddParagraph(k: nat, j: nat) returns (p: nat)
      requires k < |slides| && j < |slides[k].shapes|
      modifies this`slides
      ensures var s := old(slides)[k].shapes[j];
              p == |s.frame.paragraphs| &&
              slides == UpdateShape(old(slides), k, j, WithParagraphs(s, s.frame.paragraphs + [PlainParagraph("")]))
    {
      var s := slides[k].shapes[j];
      p := |s.frame.paragraphs|;
      slides := UpdateShape(slides, k, j, WithParagraphs(s, s.frame.paragraphs + [PlainParagraph("")]));
    }

    function ParagraphAt(k: nat, j: nat, p: nat): Paragraph
      reads this
      requires k < |slides| && j < |slides[k].shapes| && p < |slides[k].shapes[j].frame.paragraphs|
    {
      slides[k].shapes[j].frame.paragraphs[p]
    }

    /** Writes the properties of paragraph `p` (its text, font, alignment and spacing setters). */
    method SetParagraph(k: nat, j: nat, p: nat, para: Paragraph)
      requires k < |slides| && j < |slides[k].shapes| && p < |slides[k].shapes[j].frame.paragraphs|
      modifies this`slides
      ensures var s := old(slides)[k].shapes[j];
              slides == UpdateShape(old(slides), k, j, WithParagraphs(s, s.frame.paragraphs[p := para]))
    {
      var s := slides[k].shapes[j];
      slides := UpdateShape(slides, k, j, WithParagraphs(s, s.frame.paragraphs[p := para]));
    }

    /** shape.fill.solid(); fore_color.rgb = color */
    method SetShapeFill(k: nat, j: nat, color: Rgb)
      requires k < |slides| && j < |slides[k].shapes|
      modifies this`slides
      ensures slides == UpdateShape(old(slides), k, j, old(slides)[k].shapes[j].(fill := Some(color)))
    {
      slides := UpdateShape(slides, k, j, slides[k].shapes[j].(fill := Some(color)));
    }
  }

  // ---------------------------------------------------------------------
  // The planned deck, slide by slide, in closed form
  // ---------------------------------------------------------------------

  /** A box whose position and size are given in hundredths of an inch. */
  function Box(x: int, y: int, w: int, h: int, frame: TextFrame, fill: Option<Rgb>): Shape {
    TextBox(In(x), In(y), In(w), In(h), frame, fill)
  }

  function Styled(text: string, size: int, bold: Option<bool>, color: Rgb, align: Align): Paragraph {
    Paragraph(text, Some(Pt(size)), bold, Some(color), Some(align), None, None)
  }

  /**
   * The frame of a box whose text was set to `p.text` and whose first
   * paragraph was then given p's font and alignment: one paragraph per line,
   * only the first styled.
   */
  function StyledFrame(p: Paragraph): TextFrame
    requires p.spaceBefore.None? && p.spaceAfter.None?
  {
    var lines := SplitLines(p.text);
    TextFrame(PlainParagraphs(lines)[0 := p.(text := lines[0])], None)
  }

  /** Only the first line is styled; a one-line text gives one paragraph carrying all of p. */
  lemma StyledFrameParagraphs(p: Paragraph)
    requires p.spaceBefore.None? && p.spaceAfter.None?
    ensures var f := StyledFrame(p);
            |f.paragraphs| == |SplitLines(p.text)| &&
            f.paragraphs[0] == p.(text := SplitLines(p.text)[0]) &&
            (forall i :: 1 <= i < |f.paragraphs| ==> f.paragraphs[i] == PlainParagraph(SplitLines(p.text)[i])) &&
            ('\n' !in p.text ==> f == TextFrame([p], None))
  {
  }

  /** A styled box shows the text it was given. */
  lemma StyledFrameReadsBack(p: Paragraph)
    requires p.spaceBefore.None? && p.spaceAfter.None?
    ensures FrameText(StyledFrame(p)) == p.text
  {
    assert Texts(StyledFrame(p).paragraphs) == SplitLines(p.text);
    SplitLinesRoundTrip(p.text);
  }

  function StyledBox(x: int, y: int, w: int, h: int, p: Paragraph): Shape
    requires p.spaceBefore.None? && p.spaceAfter.None?
  {
    Box(x, y, w, h, StyledFrame(p), None)
  }

  /** The heading every content slide (2 to 5) opens with: one line, 40 pt bold blue, right-aligned. */
  function Heading(text: string): Shape {
    Box(100, 50, 800, 80, TextFrame([Styled(text, 40, Some(true), Blue, Right)], None), None)
  }

  const TitleText: string := "عرض تقديمي احترافي"
  const SubtitleText: string := "مُعد بواسطة Blackbox"
  const DateText: string := "نوفمبر 2025"
  const ContentsTitle: string := "جدول المحتويات"
  const IntroTitle: string := "المقدمة"
  const GoalsTitle: string := "الأهداف الرئيسية"
  const StatsTitle: string := "البيانات والإحصائيات"
  const ThanksText: string := "شكراً لحسن استماعكم"
  const ContactText: string := "للتواصل: info@example.com"

  const RawIntroText: string :=
    "\n    • نقدم لكم عرضاً شاملاً يغطي جميع الجوانب المهمة\n    \n    • تم إعداد هذا العرض بعناية فائقة لتلبية احتياجاتكم\n    \n    • يتضمن العرض تحليلاً دقيقاً وحلولاً عملية\n    \n    • نسعى لتحقيق أفضل النتائج من خلال هذه الخطة\n    "

  const ContentItems: seq<string> := [
    "1. المقدمة",
    "2. الأهداف الرئيسية",
    "3. التحليل والبيانات",
    "4. الحلول المقترحة",
    "5. الخطة التنفيذية",
    "6. الخلاصة"
  ]

  const Goals: seq<(string, Rgb)> := [
    ("تحسين الأداء", Rgb(46, 204, 113)),
    ("زيادة الكفاءة", Rgb(52, 152, 219)),
    ("تطوير المهارات", Rgb(155, 89, 182)),
    ("تحقيق النجاح", Rgb(241, 196, 15))
  ]

  const Stats: seq<(string, string)> := [
    ("85%", "نسبة النجاح"),
    ("120+", "مشروع منجز"),
    ("50+", "عميل راضٍ"),
    ("24/7", "دعم متواصل")
  ]

  /** x_positions, in hundredths of an inch. */
  const XPositions: seq<int> := [100, 350, 600, 850]

  /** Everything the script writes on its slides, apart from the four headings. */
  datatype DeckContent = DeckContent(
    title: string, subtitle: string, date: string,
    items: seq<string>,
    intro: string,
    goals: seq<(string, Rgb)>,
    stats: seq<(string, string)>, xs: seq<int>,
    thanks: string, contact: string)

  const ScriptContent: DeckContent :=
    DeckContent(TitleText, SubtitleText, DateText, ContentItems, RawIntroText, Goals, Stats, XPositions, ThanksText, ContactText)

  /** Slide 1: blue, with the title, the subtitle and the date centred one under the other. */
  function TitleSlide(title: string, subtitle: string, date: string): Slide {
    Slide(BlankLayout, Some(Blue), [
      StyledBox(100, 250, 800, 100, Styled(title, 54, Some(true), White, Center)),
      StyledBox(100, 400, 800, 50, Styled(subtitle, 24, None, White, Center)),
      StyledBox(100, 500, 800, 50, Styled(date, 18, None, Cloud, Center))
    ])
  }

  /** A further table-of-contents entry as the first loop leaves it: spaced 15 pt from the previous one. */
  function TocSpaced(item: string): Paragraph {
    PlainParagraph(ParagraphText(item)).(spaceBefore := Some(Pt(15)))
  }

  /** The styling loop's properties for a contents entry. */
  function TocStyle(p: Paragraph): Paragraph {
    p.(size := Some(Pt(28)), color := Some(Slate), align := Some(Right))
  }

  /** The contents paragraphs once the first `n` items are in: the lines of the first item, then one paragraph per further item. */
  function TocDrafts(items: seq<string>, n: nat): (ps: seq<Paragraph>)
    requires 1 <= n <= |items|
    ensures |ps| == |SplitLines(items[0])| + n - 1
  {
    PlainParagraphs(SplitLines(items[0])) + seq(n - 1, i requires 0 <= i < n - 1 => TocSpaced(items[i + 1]))
  }

  /** The contents paragraphs once the styling loop has passed the first `q`. */
  function TocStyledUpTo(ps: seq<Paragraph>, q: nat): seq<Paragraph> {
    seq(|ps|, i requires 0 <= i < |ps| => if i < q then TocStyle(ps[i]) else ps[i])
  }

  function ContentsSlideWith(entries: seq<Paragraph>): Slide {
    Slide(BlankLayout, None, [Heading(ContentsTitle), Box(200, 200, 600, 400, TextFrame(entries, None), None)])
  }

  /**
   * Slide 2: every paragraph 28 pt, slate and right-aligned; with a
   * one-line first item, one entry per item in order, each spaced 15 pt from
   * the previous one.
   */
  function ContentsSlide(items: seq<string>): Slide
    requires |items| >= 1
  {
    ContentsSlideWith(TocStyledUpTo(TocDrafts(items, |items|), |TocDrafts(items, |items|)|))
  }

  /**
   * Slide 2: every paragraph 28 pt, slate and right-aligned; with a
   * one-line first item, one entry per item in order, each but the first
   * spaced 15 pt from the previous one.
   */
  lemma ContentsEntries(items: seq<string>)
    requires |items| >= 1
    ensures var s := ContentsSlide(items);
            |s.shapes| == 2 && s.shapes[0] == Heading(ContentsTitle)
    ensures var ps := ContentsSlide(items).shapes[1].frame.paragraphs;
            |ps| == |SplitLines(items[0])| + |items| - 1 &&
            forall i :: 0 <= i < |ps| ==>
              ps[i].size == Some(Pt(28)) && ps[i].color == Some(Slate) && ps[i].align == Some(Right)
    ensures '\n' !in items[0] ==>
              var ps := ContentsSlide(items).shapes[1].frame.paragraphs;
              |ps| == |items| &&
              forall i :: 0 <= i < |items| ==>
                ps[i].text == ParagraphText(items[i]) && (ps[i].spaceBefore.None? <==> i == 0) &&
                (i > 0 ==> ps[i].spaceBefore == Some(Pt(15)))
  {
    var ps := ContentsSlide(items).shapes[1].frame.paragraphs;
    if '\n' !in items[0] {
      ParagraphTextStable(items[0]);
      forall i | 0 <= i < |items|
        ensures |ps| == |items|
        ensures ps[i].text == ParagraphText(items[i]) && (ps[i].spaceBefore.None? <==> i == 0)
        ensures i > 0 ==> ps[i].spaceBefore == Some(Pt(15))
      {
        TocEntryAt(items, i);
      }
    }
  }

  /** With a one-line first item, contents paragraph i is item i's draft, styled. */
  lemma TocEntryAt(items: seq<string>, i: nat)
    requires |items| >= 1 && '\n' !in items[0] && i < |items|
    ensures |ContentsSlide(items).shapes[1].frame.paragraphs| == |items|
    ensures ContentsSlide(items).shapes[1].frame.paragraphs[i]
            == TocStyle(if i == 0 then PlainParagraph(items[0]) else TocSpaced(items[i]))
  {
    var drafts := TocDrafts(items, |items|);
    assert SplitLines(items[0]) == [items[0]];
    assert ContentsSlide(items).shapes[1].frame.paragraphs == TocStyledUpTo(drafts, |drafts|);
    if i == 0 {
      assert drafts[0] == PlainParagraph(items[0]);
    } else {
      assert drafts[i] == TocSpaced(items[i]);
    }
  }

  /** The script's contents box: its six items, in order and unchanged, with no space before only the first. */
  lemma ScriptContents()
    ensures var ps := ContentsSlide(ContentItems).shapes[1].frame.paragraphs;
            |ps| == 6 && forall i :: 0 <= i < 6 ==> ps[i].text == ContentItems[i] && (ps[i].spaceBefore.None? <==> i == 0)
  {
    var items := ContentItems;
    forall j | 0 <= j < |items|
      ensures '\n' !in items[j]
    {
      var a := items[j];
      assert forall k :: 0 <= k < |a| ==> a[k] != '\n';
    }
    ContentsEntries(items);
    ParagraphTextsKeepItems(items);
  }

  /** The introduction's lines: the stripped text split at its line breaks. */
  function IntroLines(text: string): seq<string> {
    SplitLines(Strip(text))
  }

  /** The styling loop's properties for an introduction paragraph. */
  function IntroStyle(p: Paragraph): Paragraph {
    p.(size := Some(Pt(22)), color := Some(Slate), align := Some(Right), spaceAfter := Some(Pt(20)))
  }

  /** The introduction paragraphs once the styling loop has passed the first `q`. */
  function IntroStyledUpTo(ps: seq<Paragraph>, q: nat): seq<Paragraph> {
    seq(|ps|, i requires 0 <= i < |ps| => if i < q then IntroStyle(ps[i]) else ps[i])
  }

  function IntroSlideWith(entries: seq<Paragraph>): Slide {
    Slide(BlankLayout, None, [Heading(IntroTitle), Box(150, 200, 700, 400, TextFrame(entries, Some(true)), None)])
  }

  function IntroSlide(text: string): Slide {
    var ps := PlainParagraphs(IntroLines(text));
    IntroSlideWith(IntroStyledUpTo(ps, |ps|))
  }

  /** Slide 3: one paragraph per line of the stripped text, each 22 pt slate, right-aligned, 20 pt after. */
  lemma IntroEntries(text: string)
    ensures var s := IntroSlide(text);
            |s.shapes| == 2 && s.shapes[0] == Heading(IntroTitle) && s.shapes[1].frame.wordWrap == Some(true)
    ensures var ps := IntroSlide(text).shapes[1].frame.paragraphs;
            |ps| == |IntroLines(text)| &&
            forall i :: 0 <= i < |ps| ==>
              ps[i] == Paragraph(IntroLines(text)[i], Some(Pt(22)), None, Some(Slate), Some(Right), None, Some(Pt(20)))
  {
  }

  /** Goal box `i`: 1.1 inch below its predecessor, filled with the goal's colour. */
  function GoalBox(goals: seq<(string, Rgb)>, i: nat): Shape
    requires i < |goals|
  {
    StyledBox(200, 200 + 110 * i, 600, 80, Styled(goals[i].0, 28, Some(true), White, Center)).(fill := Some(goals[i].1))
  }

  function GoalBoxes(goals: seq<(string, Rgb)>, n: nat): (boxes: seq<Shape>)
    requires n <= |goals|
    ensures |boxes| == n
  {
    seq(n, i requires 0 <= i < n => GoalBox(goals, i))
  }

  function GoalsSlideWith(goals: seq<(string, Rgb)>, n: nat): Slide
    requires n <= |goals|
  {
    Slide(BlankLayout, None, [Heading(GoalsTitle)] + GoalBoxes(goals, n))
  }

  /** The value box of statistic `i`, starting half an inch left of its x position. */
  function StatValueBox(stats: seq<(string, string)>, xs: seq<int>, i: nat): Shape
    requires i < |stats| && i < |xs|
  {
    StyledBox(xs[i] - 50, 250, 150, 80, Styled(stats[i].0, 36, Some(true), Blue, Center))
  }

  /** The label box of statistic `i`, one inch below its value. */
  function StatLabelBox(stats: seq<(string, string)>, xs: seq<int>, i: nat): Shape
    requires i < |stats| && i < |xs|
  {
    StyledBox(xs[i] - 50, 350, 150, 50, Styled(stats[i].1, 16, None, Slate, Center))
  }

  function Min(a: int, b: int): int {
    if a <= b then a else b
  }

  /** The boxes of the first `n` statistics: value then label, for each one that has an x position. */
  function StatBoxes(stats: seq<(string, string)>, xs: seq<int>, n: nat): (boxes: seq<Shape>)
    requires n <= |stats|
    ensures |boxes| == 2 * Min(n, |xs|)
  {
    if n == 0 then []
    else if n - 1 < |xs| then StatBoxes(stats, xs, n - 1) + [StatValueBox(stats, xs, n - 1), StatLabelBox(stats, xs, n - 1)]
    else StatBoxes(stats, xs, n - 1)
  }

  function StatsSlideWith(stats: seq<(string, string)>, xs: seq<int>, n: nat): Slide
    requires n <= |stats|
  {
    Slide(BlankLayout, None, [Heading(StatsTitle)] + StatBoxes(stats, xs, n))
  }

  /** Slide 6: green, with the thanks and the contact line. */
  function ClosingSlide(thanks: string, contact: string): Slide {
    Slide(BlankLayout, Some(Green), [
      StyledBox(100, 250, 800, 100, Styled(thanks, 48, Some(true), White, Center)),
      StyledBox(100, 450, 800, 50, Styled(contact, 20, None, White, Center))
    ])
  }

  /** The deck laid out around the given texts. */
  function DeckOf(c: DeckContent): Deck
    requires |c.items| >= 1
  {
    Deck(In(1000), In(750),
      [TitleSlide(c.title, c.subtitle, c.date)] + [ContentsSlide(c.items)] + [IntroSlide(c.intro)]
      + [GoalsSlideWith(c.goals, |c.goals|)] + [StatsSlideWith(c.stats, c.xs, |c.stats|)]
      + [ClosingSlide(c.thanks, c.contact)])
  }

  /** The deck create_presentation hands to prs.save. */
  function PlannedDeck(): Deck {
    DeckOf(ScriptContent)
  }

  // ---------------------------------------------------------------------
  // What the deck holds
  // ---------------------------------------------------------------------

  /** Six blank-layout slides; only the first (blue) and the last (green) have a background. */
  lemma DeckOutline(c: DeckContent)
    requires |c.items| >= 1
    ensures var d := DeckOf(c);
            |d.slides| == 6 &&
            (forall k :: 0 <= k < 6 ==> d.slides[k].layout == BlankLayout) &&
            (forall k :: 0 <= k < 6 ==> (d.slides[k].background.Some? <==> k == 0 || k == 5)) &&
            d.slides[0].background == Some(Blue) && d.slides[5].background == Some(Green) &&
            |d.slides[0].shapes| == 3 && |d.slides[1].shapes| == 2 && |d.slides[2].shapes| == 2 &&
            |d.slides[3].shapes| == 1 + |c.goals| && |d.slides[4].shapes| == 1 + 2 * Min(|c.stats|, |c.xs|) &&
            |d.slides[5].shapes| == 2
  {
  }

  /** The script's deck: 3, 2, 2, 5, 9 and 2 boxes on its six slides. */
  lemma PlannedDeckOutline()
    ensures var d := PlannedDeck();
            |d.slides| == 6 &&
            |d.slides[0].shapes| == 3 && |d.slides[1].shapes| == 2 && |d.slides[2].shapes| == 2 &&
            |d.slides[3].shapes| == 5 && |d.slides[4].shapes| == 9 && |d.slides[5].shapes| == 2
  {
    DeckOutline(ScriptContent);
  }

  /** Slide 1 shows the title, the subtitle and the date, top to bottom, on blue. */
  lemma TitleSlideTexts(title: string, subtitle: string, date: string)
    ensures var s := TitleSlide(title, subtitle, date);
            |s.shapes| == 3 && s.background == Some(Blue) &&
            FrameText(s.shapes[0].frame) == title && FrameText(s.shapes[1].frame) == subtitle &&
            FrameText(s.shapes[2].frame) == date &&
            s.shapes[0].y + s.shapes[0].height <= s.shapes[1].y &&
            s.shapes[1].y + s.shapes[1].height <= s.shapes[2].y
  {
    StyledFrameReadsBack(Styled(title, 54, Some(true), White, Center));
    StyledFrameReadsBack(Styled(subtitle, 24, None, White, Center));
    StyledFrameReadsBack(Styled(date, 18, None, Cloud, Center));
  }

  /** Slide 6 shows the thanks above the contact line, on green. */
  lemma ClosingSlideTexts(thanks: string, contact: string)
    ensures var s := ClosingSlide(thanks, contact);
            |s.shapes| == 2 && s.background == Some(Green) &&
            FrameText(s.shapes[0].frame) == thanks && FrameText(s.shapes[1].frame) == contact &&
            s.shapes[0].y + s.shapes[0].height <= s.shapes[1].y
  {
    StyledFrameReadsBack(Styled(thanks, 48, Some(true), White, Center));
    StyledFrameReadsBack(Styled(contact, 20, None, White, Center));
  }

  /** A one-line heading is what the script's four statements make of it, and it shows its text. */
  lemma HeadingReadsBack(text: string)
    requires '\n' !in text
    ensures Heading(text) == StyledBox(100, 50, 800, 80, Styled(text, 40, Some(true), Blue, Right))
    ensures FrameText(Heading(text).frame) == text
  {
  }

  /** Statistic `i`: its value above its label, both 1.5 inch wide from half an inch left of its x position. */
  lemma StatBoxTexts(stats: seq<(string, string)>, xs: seq<int>, i: nat)
    requires i < |stats| && i < |xs|
    ensures var v, l := StatValueBox(stats, xs, i), StatLabelBox(stats, xs, i);
            v.x == l.x == In(xs[i] - 50) && v.width == l.width == In(150) &&
            v.y + v.height <= l.y &&
            FrameText(v.frame) == stats[i].0 && FrameText(l.frame) == stats[i].1
  {
    StyledFrameReadsBack(Styled(stats[i].0, 36, Some(true), Blue, Center));
    StyledFrameReadsBack(Styled(stats[i].1, 16, None, Slate, Center));
  }

  /** Goal `i` is 1.1 inch below goal `i - 1`, filled with its colour and showing its text. */
  lemma GoalsStepDown(goals: seq<(string, Rgb)>)
    ensures var s := GoalsSlideWith(goals, |goals|);
            |s.shapes| == 1 + |goals| &&
            forall i :: 0 <= i < |goals| ==>
              s.shapes[i + 1].y == In(200 + 110 * i) && s.shapes[i + 1].fill == Some(goals[i].1) &&
              FrameText(s.shapes[i + 1].frame) == goals[i].0
  {
    var s := GoalsSlideWith(goals, |goals|);
    forall i | 0 <= i < |goals|
      ensures FrameText(s.shapes[i + 1].frame) == goals[i].0
    {
      assert s.shapes[i + 1] == GoalBox(goals, i);
      StyledFrameReadsBack(Styled(goals[i].0, 28, Some(true), White, Center));
    }
  }

  /** Statistic `i` with an x position has its value box at 2i and its label box at 2i + 1. */
  lemma {:induction false} StatBoxesAt(stats: seq<(string, string)>, xs: seq<int>, n: nat)
    requires n <= |stats|
    ensures forall i :: 0 <= i < Min(n, |xs|) ==> StatPairAt(StatBoxes(stats, xs, n), stats, xs, i)
  {
    if n > 0 {
      StatBoxesAt(stats, xs, n - 1);
      if n - 1 < |xs| {
        forall i | 0 <= i < n
          ensures StatPairAt(StatBoxes(stats, xs, n), stats, xs, i)
        {
          if i == n - 1 {
            StatBoxesLast(stats, xs, n);
          } else {
            StatBoxesKeepPair(stats, xs, n, i);
          }
        }
      } else {
        StatBoxesSkip(stats, xs, n);
      }
    }
  }

  /** Boxes 2i and 2i + 1 are statistic i's value and label. */
  predicate StatPairAt(boxes: seq<Shape>, stats: seq<(string, string)>, xs: seq<int>, i: nat)
    requires i < |stats| && i < |xs|
  {
    2 * i + 1 < |boxes| && boxes[2 * i] == StatValueBox(stats, xs, i) && boxes[2 * i + 1] == StatLabelBox(stats, xs, i)
  }

  /** One more statistic leaves the boxes of an earlier one where they were. */
  lemma StatBoxesKeepPair(stats: seq<(string, string)>, xs: seq<int>, n: nat, i: nat)
    requires 0 < n <= |stats| && i < n - 1 && n - 1 < |xs|
    requires StatPairAt(StatBoxes(stats, xs, n - 1), stats, xs, i)
    ensures StatPairAt(StatBoxes(stats, xs, n), stats, xs, i)
  {
    var prev := StatBoxes(stats, xs, n - 1);
    assert StatBoxes(stats, xs, n) == prev + [StatValueBox(stats, xs, n - 1), StatLabelBox(stats, xs, n - 1)];
  }

  /** Statistic n - 1, when it has an x position, puts its two boxes last. */
  lemma StatBoxesLast(stats: seq<(string, string)>, xs: seq<int>, n: nat)
    requires 0 < n <= |stats| && n - 1 < |xs|
    ensures StatPairAt(StatBoxes(stats, xs, n), stats, xs, n - 1)
  {
  }

  /** A statistic without an x position adds no box. */
  lemma StatBoxesSkip(stats: seq<(string, string)>, xs: seq<int>, n: nat)
    requires 0 < n <= |stats| && n - 1 >= |xs|
    ensures StatBoxes(stats, xs, n) == StatBoxes(stats, xs, n - 1) && Min(n, |xs|) == Min(n - 1, |xs|)
  {
  }

  /** Joining two runs of lines joins their texts with one more line break. */
  lemma {:induction false} JoinLinesAppend(xs: seq<string>, ys: seq<string>)
    requires |xs| >= 1 && |ys| >= 1
    ensures JoinLines(xs + ys) == JoinLines(xs) + "\n" + JoinLines(ys)
  {
    if |xs| > 1 {
      assert (xs + ys)[1..] == xs[1..] + ys;
      JoinLinesAppend(xs[1..], ys);
    } else {
      assert (xs + ys)[1..] == ys;
    }
  }

  /** The texts of the contents paragraphs: the first item's lines, then the further items as the paragraph setter stores them. */
  lemma TocTexts(items: seq<string>)
    requires |items| >= 1
    ensures Texts(ContentsSlide(items).shapes[1].frame.paragraphs) == SplitLines(items[0]) + ParagraphTexts(items[1..])
  {
    var drafts := TocDrafts(items, |items|);
    var ps := TocStyledUpTo(drafts, |drafts|);
    assert ContentsSlide(items).shapes[1].frame.paragraphs == ps;
    assert Texts(drafts) == SplitLines(items[0]) + ParagraphTexts(items[1..]);
    assert Texts(ps) == Texts(drafts);
  }

  /**
   * Reading the contents box back gives the items, one per line; a line
   * break inside a further item reads back as '\v'.
   */
  lemma ContentsReadsBack(items: seq<string>)
    requires |items| >= 1
    ensures |ContentsSlide(items).shapes[1].frame.paragraphs| >= 1
    ensures FrameText(ContentsSlide(items).shapes[1].frame) == JoinLines([items[0]] + ParagraphTexts(items[1..]))
    ensures (forall i :: 1 <= i < |items| ==> '\n' !in items[i]) ==>
              FrameText(ContentsSlide(items).shapes[1].frame) == JoinLines(items)
  {
    var rest := ParagraphTexts(items[1..]);
    TocTexts(items);
    JoinSplitFirst(items[0], rest);
    if forall i :: 1 <= i < |items| ==> '\n' !in items[i] {
      ParagraphTextsKeepItems(items[1..]);
      assert [items[0]] + items[1..] == items;
    }
  }

  /** Joining a text's lines and then further lines is joining the text and those lines. */
  lemma JoinSplitFirst(a: string, rest: seq<string>)
    ensures JoinLines(SplitLines(a) + rest) == JoinLines([a] + rest)
  {
    SplitLinesRoundTrip(a);
    if |rest| > 0 {
      JoinLinesAppend(SplitLines(a), rest);
      JoinLinesAppend([a], rest);
    } else {
      assert SplitLines(a) + rest == SplitLines(a) && [a] + rest == [a];
    }
  }

  /** Reading the introduction box back gives the stripped text. */
  lemma IntroReadsBack(text: string)
    ensures |IntroSlide(text).shapes[1].frame.paragraphs| >= 1
    ensures FrameText(IntroSlide(text).shapes[1].frame) == Strip(text)
  {
    assert Texts(IntroSlide(text).shapes[1].frame.paragraphs) == IntroLines(text);
    SplitLinesRoundTrip(Strip(text));
  }

  // ---------------------------------------------------------------------
  // Layout: every box lies on the page
  // ---------------------------------------------------------------------

  predicate OnPage(s: Shape, width: int, height: int) {
    0 <= s.x && 0 <= s.y && s.x + s.width <= width && s.y + s.height <= height
  }

  predicate SlideOnPage(s: Slide, width: int, height: int) {
    forall j :: 0 <= j < |s.shapes| ==> OnPage(s.shapes[j], width, height)
  }

  predicate FitsPage(d: Deck) {
    forall k :: 0 <= k < |d.slides| ==> SlideOnPage(d.slides[k], d.width, d.height)
  }

  /** Up to five goals fit: the fifth box ends at 7.2 inches. */
  lemma GoalsOnPage(goals: seq<(string, Rgb)>)
    requires |goals| <= 5
    ensures SlideOnPage(GoalsSlideWith(goals, |goals|), In(1000), In(750))
  {
    var s := GoalsSlideWith(goals, |goals|);
    forall j | 1 <= j < |s.shapes|
      ensures OnPage(s.shapes[j], In(1000), In(750))
    {
      assert s.shapes[j] == GoalBox(goals, j - 1);
    }
  }

  /** Statistic boxes, starting half an inch left of x positions between 0.5 and 8.5 inches, fit. */
  lemma {:induction false} StatBoxesOnPage(stats: seq<(string, string)>, xs: seq<int>, n: nat)
    requires n <= |stats|
    requires forall i :: 0 <= i < |xs| ==> 50 <= xs[i] <= 850
    ensures forall j :: 0 <= j < |StatBoxes(stats, xs, n)| ==> OnPage(StatBoxes(stats, xs, n)[j], In(1000), In(750))
  {
    if n > 0 {
      StatBoxesOnPage(stats, xs, n - 1);
    }
  }

  lemma StatsOnPage(stats: seq<(string, string)>, xs: seq<int>)
    requires forall i :: 0 <= i < |xs| ==> 50 <= xs[i] <= 850
    ensures SlideOnPage(StatsSlideWith(stats, xs, |stats|), In(1000), In(750))
  {
    StatBoxesOnPage(stats, xs, |stats|);
    var s := StatsSlideWith(stats, xs, |stats|);
    forall j | 1 <= j < |s.shapes|
      ensures OnPage(s.shapes[j], In(1000), In(750))
    {
      assert s.shapes[j] == StatBoxes(stats, xs, |stats|)[j - 1];
    }
  }

  /** Whatever the texts, the deck's boxes lie inside the 10 x 7.5 inch page. */
  lemma DeckFitsPage(c: DeckContent)
    requires |c.items| >= 1
    requires |c.goals| <= 5
    requires forall i :: 0 <= i < |c.xs| ==> 50 <= c.xs[i] <= 850
    ensures FitsPage(DeckOf(c))
  {
    GoalsOnPage(c.goals);
    StatsOnPage(c.stats, c.xs);
    var d := DeckOf(c);
    assert d.slides[1] == ContentsSlide(c.items);
    assert d.slides[2] == IntroSlide(c.intro);
  }

  /** The script's six contents items, four goals and x positions meet DeckFitsPage's conditions. */
  lemma ScriptContentFits()
    ensures |ScriptContent.items| >= 1 && |ScriptContent.goals| <= 5
    ensures forall i :: 0 <= i < |ScriptContent.xs| ==> 50 <= ScriptContent.xs[i] <= 850
  {
  }

  /** Every box of the script's deck lies inside the page. */
  lemma PlannedDeckFitsPage()
    ensures FitsPage(PlannedDeck())
  {
    ScriptContentFits();
    DeckFitsPage(ScriptContent);
  }

  // ---------------------------------------------------------------------
  // Building it (create_presentation)
  // ---------------------------------------------------------------------

  /** Replacing the paragraphs of shape `j` of the last slide. */
  lemma SetParagraphsOfLast(done: seq<Slide>, last: Slide, j: nat, ps: seq<Paragraph>)
    requires j < |last.shapes|
    ensures UpdateShape(done + [last], |done|, j, WithParagraphs(last.shapes[j], ps))
            == done + [last.(shapes := last.shapes[j := WithParagraphs(last.shapes[j], ps)])]
  {
    UpdateShapeOfLast(done, last, j, WithParagraphs(last.shapes[j], ps));
  }

  /** Giving the contents box new paragraphs. */
  lemma ContentsParagraphs(entries: seq<Paragraph>, ps: seq<Paragraph>)
    ensures var c := ContentsSlideWith(entries);
            c.(shapes := c.shapes[1 := WithParagraphs(c.shapes[1], ps)]) == ContentsSlideWith(ps)
  {
    var c := ContentsSlideWith(entries);
    assert c.shapes[1 := WithParagraphs(c.shapes[1], ps)] == ContentsSlideWith(ps).shapes;
  }

  /** Giving the introduction box new paragraphs. */
  lemma IntroParagraphs(entries: seq<Paragraph>, ps: seq<Paragraph>)
    ensures var c := IntroSlideWith(entries);
            c.(shapes := c.shapes[1 := WithParagraphs(c.shapes[1], ps)]) == IntroSlideWith(ps)
  {
    var c := IntroSlideWith(entries);
    assert c.shapes[1 := WithParagraphs(c.shapes[1], ps)] == IntroSlideWith(ps).shapes;
  }

  /** The script's repeated four statements: a text box, its text, and its first paragraph's font and alignment. */
  method AddStyledBox(b: DeckBuilder, k: nat, x: int, y: int, w: int, h: int,
                      text: string, size: int, bold: Option<bool>, color: Rgb, align: Align)
    requires k < |b.slides|
    modifies b
    ensures b.width == old(b.width) && b.height == old(b.height)
    ensures b.slides == AppendShape(old(b.slides), k, StyledBox(x, y, w, h, Styled(text, size, bold, color, align)))
  {
    ghost var before := b.slides;
    var j := b.AddTextBox(k, In(x), In(y), In(w), In(h));
    ghost var blank := NewTextBox(In(x), In(y), In(w), In(h));
    ShapeOfAppended(before, k, blank);
    b.SetText(k, j, text);
    ghost var texted := WithParagraphs(blank, PlainParagraphs(SplitLines(text)));
    ReplaceAppended(before, k, blank, texted);
    ShapeOfAppended(before, k, texted);
    var para := b.ParagraphAt(k, j, 0);
    var styledPara := para.(size := Some(Pt(size)), bold := bold, color := Some(color), align := Some(align));
    b.SetParagraph(k, j, 0, styledPara);
    ghost var styled := StyledBox(x, y, w, h, Styled(text, size, bold, color, align));
    assert WithParagraphs(texted, texted.frame.paragraphs[0 := styledPara]) == styled;
    ReplaceAppended(before, k, texted, styled);
  }

  /** A heading: the first box of slides 2 to 5. */
  method AddHeading(b: DeckBuilder, ghost done: seq<Slide>, k: nat, text: string)
    requires k == |done| && b.slides == done + [Slide(BlankLayout, None, [])]
    requires '\n' !in text
    modifies b
    ensures b.width == old(b.width) && b.height == old(b.height)
    ensures b.slides == done + [Slide(BlankLayout, None, [Heading(text)])]
  {
    AddStyledBox(b, k, 100, 50, 800, 80, text, 40, Some(true), Blue, Right);
    assert StyledBox(100, 50, 800, 80, Styled(text, 40, Some(true), Blue, Right)) == Heading(text);
    ghost var s := Slide(BlankLayout, None, []);
    AppendShapeToLast(done, s, Heading(text));
    assert s.(shapes := s.shapes + [Heading(text)]) == Slide(BlankLayout, None, [Heading(text)]);
  }

  /** Slide 1 (lines 20-54). */
  method AddTitleSlide(b: DeckBuilder, title: string, subtitle: string, date: string)
    modifies b
    ensures b.width == old(b.width) && b.height == old(b.height)
    ensures b.slides == old(b.slides) + [TitleSlide(title, subtitle, date)]
  {
    ghost var done := b.slides;
    var k := b.AddSlide(BlankLayout);
    b.SetBackground(k, Blue);
    ghost var s := Slide(BlankLayout, Some(Blue), []);
    assert b.slides == done + [s];
    AddStyledBox(b, k, 100, 250, 800, 100, title, 54, Some(true), White, Center);
    AppendShapeToLast(done, s, StyledBox(100, 250, 800, 100, Styled(title, 54, Some(true), White, Center)));
    s := s.(shapes := s.shapes + [StyledBox(100, 250, 800, 100, Styled(title, 54, Some(true), White, Center))]);
    AddStyledBox(b, k, 100, 400, 800, 50, subtitle, 24, None, White, Center);
    AppendShapeToLast(done, s, StyledBox(100, 400, 800, 50, Styled(subtitle, 24, None, White, Center)));
    s := s.(shapes := s.shapes + [StyledBox(100, 400, 800, 50, Styled(subtitle, 24, None, White, Center))]);
    AddStyledBox(b, k, 100, 500, 800, 50, date, 18, None, Cloud, Center);
    AppendShapeToLast(done, s, StyledBox(100, 500, 800, 50, Styled(date, 18, None, Cloud, Center)));
    assert s.(shapes := s.shapes + [StyledBox(100, 500, 800, 50, Styled(date, 18, None, Cloud, Center))])
           == TitleSlide(title, subtitle, date);
  }

  /** The first loop of slide 2 (lines 83-86): one spaced paragraph per further item. */
  method AddContentsEntries(b: DeckBuilder, ghost done: seq<Slide>, k: nat, items: seq<string>)
    requires |items| >= 1 && k == |done|
    requires b.slides == done + [ContentsSlideWith(TocDrafts(items, 1))]
    modifies b
    ensures b.width == old(b.width) && b.height == old(b.height)
    ensures b.slides == done + [ContentsSlideWith(TocDrafts(items, |items|))]
  {
    var n := 1;
    while n < |items|
      invariant 1 <= n <= |items|
      invariant b.width == old(b.width) && b.height == old(b.height)
      invariant b.slides == done + [ContentsSlideWith(TocDrafts(items, n))]
    {
      ghost var ps := TocDrafts(items, n);
      var p := b.AddParagraph(k, 1);
      SetParagraphsOfLast(done, ContentsSlideWith(ps), 1, ps + [PlainParagraph("")]);
      ContentsParagraphs(ps, ps + [PlainParagraph("")]);
      var para := b.ParagraphAt(k, 1, p);
      b.SetParagraph(k, 1, p, para.(text := ParagraphText(items[n]), spaceBefore := Some(Pt(15))));
      assert (ps + [PlainParagraph("")])[p := TocSpaced(items[n])] == TocDrafts(items, n + 1);
      SetParagraphsOfLast(done, ContentsSlideWith(ps + [PlainParagraph("")]), 1, TocDrafts(items, n + 1));
      ContentsParagraphs(ps + [PlainParagraph("")], TocDrafts(items, n + 1));
      n := n + 1;
    }
  }

  /** The second loop of slide 2 (lines 88-91): every paragraph 28 pt, slate, right-aligned. */
  method StyleContentsEntries(b: DeckBuilder, ghost done: seq<Slide>, k: nat, ghost ps: seq<Paragraph>)
    requires k == |done|
    requires b.slides == done + [ContentsSlideWith(ps)]
    modifies b
    ensures b.width == old(b.width) && b.height == old(b.height)
    ensures b.slides == done + [ContentsSlideWith(TocStyledUpTo(ps, |ps|))]
  {
    assert ps == TocStyledUpTo(ps, 0);
    var count := |b.slides[k].shapes[1].frame.paragraphs|;
    var q := 0;
    while q < count
      invariant 0 <= q <= count == |ps|
      invariant b.width == old(b.width) && b.height == old(b.height)
      invariant b.slides == done + [ContentsSlideWith(TocStyledUpTo(ps, q))]
    {
      var para := b.ParagraphAt(k, 1, q);
      b.SetParagraph(k, 1, q, para.(size := Some(Pt(28)), color := Some(Slate), align := Some(Right)));
      assert TocStyledUpTo(ps, q)[q := TocStyle(para)] == TocStyledUpTo(ps, q + 1);
      SetParagraphsOfLast(done, ContentsSlideWith(TocStyledUpTo(ps, q)), 1, TocStyledUpTo(ps, q + 1));
      ContentsParagraphs(TocStyledUpTo(ps, q), TocStyledUpTo(ps, q + 1));
      q := q + 1;
    }
  }

  /** Slide 2 (lines 57-91): the heading, then the contents box filled by the two loops. */
  method AddContentsSlide(b: DeckBuilder, items: seq<string>)
    requires |items| >= 1
    modifies b
    ensures b.width == old(b.width) && b.height == old(b.height)
    ensures b.slides == old(b.slides) + [ContentsSlide(items)]
  {
    ghost var done := b.slides;
    var k := b.AddSlide(BlankLayout);
    AddHeading(b, done, k, ContentsTitle);
    ghost var s := Slide(BlankLayout, None, [Heading(ContentsTitle)]);
    var j := b.AddTextBox(k, In(200), In(200), In(600), In(400));
    AppendShapeToLast(done, s, NewTextBox(In(200), In(200), In(600), In(400)));
    s := s.(shapes := s.shapes + [NewTextBox(In(200), In(200), In(600), In(400))]);
    assert s == ContentsSlideWith([PlainParagraph("")]);
    b.SetText(k, j, items[0]);
    SetParagraphsOfLast(done, s, 1, PlainParagraphs(SplitLines(items[0])));
    assert PlainParagraphs(SplitLines(items[0])) == TocDrafts(items, 1);
    ContentsParagraphs([PlainParagraph("")], TocDrafts(items, 1));
    AddContentsEntries(b, done, k, items);
    StyleContentsEntries(b, done, k, TocDrafts(items, |items|));
  }

  /** The loop of slide 3 (lines 122-126): every paragraph 22 pt, slate, right-aligned, 20 pt after. */
  method StyleIntroParagraphs(b: DeckBuilder, ghost done: seq<Slide>, k: nat, ghost ps: seq<Paragraph>)
    requires k == |done|
    requires b.slides == done + [IntroSlideWith(ps)]
    modifies b
    ensures b.width == old(b.width) && b.height == old(b.height)
    ensures b.slides == done + [IntroSlideWith(IntroStyledUpTo(ps, |ps|))]
  {
    assert ps == IntroStyledUpTo(ps, 0);
    var count := |b.slides[k].shapes[1].frame.paragraphs|;
    var q := 0;
    while q < count
      invariant 0 <= q <= count == |ps|
      invariant b.width == old(b.width) && b.height == old(b.height)
      invariant b.slides == done + [IntroSlideWith(IntroStyledUpTo(ps, q))]
    {
      var para := b.ParagraphAt(k, 1, q);
      b.SetParagraph(k, 1, q, para.(size := Some(Pt(22)), color := Some(Slate), align := Some(Right), spaceAfter := Some(Pt(20))));
      assert IntroStyledUpTo(ps, q)[q := IntroStyle(para)] == IntroStyledUpTo(ps, q + 1);
      SetParagraphsOfLast(done, IntroSlideWith(IntroStyledUpTo(ps, q)), 1, IntroStyledUpTo(ps, q + 1));
      IntroParagraphs(IntroStyledUpTo(ps, q), IntroStyledUpTo(ps, q + 1));
      q := q + 1;
    }
  }

  /** Slide 3 (lines 94-126): the heading, then the introduction, one styled paragraph per line. */
  method AddIntroSlide(b: DeckBuilder, text: string)
    modifies b
    ensures b.width == old(b.width) && b.height == old(b.height)
    ensures b.slides == old(b.slides) + [IntroSlide(text)]
  {
    ghost var done := b.slides;
    ghost var ps := PlainParagraphs(IntroLines(text));
    var k := b.AddSlide(BlankLayout);
    AddHeading(b, done, k, IntroTitle);
    ghost var s := Slide(BlankLayout, None, [Heading(IntroTitle)]);
    var j := b.AddTextBox(k, In(150), In(200), In(700), In(400));
    ghost var box := NewTextBox(In(150), In(200), In(700), In(400));
    AppendShapeToLast(done, s, box);
    s := s.(shapes := s.shapes + [box]);
    b.SetText(k, j, Strip(text));
    SetParagraphsOfLast(done, s, 1, ps);
    s := s.(shapes := s.shapes[1 := WithParagraphs(box, ps)]);
    b.SetWordWrap(k, j, true);
    ghost var wrapped := Box(150, 200, 700, 400, TextFrame(ps, Some(true)), None);
    assert s.shapes[1].(frame := s.shapes[1].frame.(wordWrap := Some(true))) == wrapped;
    UpdateShapeOfLast(done, s, 1, wrapped);
    assert s.(shapes := s.shapes[1 := wrapped]) == IntroSlideWith(ps);
    StyleIntroParagraphs(b, done, k, ps);
  }

  /** Slide 4 (lines 129-165): the heading, then one filled box per goal, stepping down by 1.1 inch. */
  method AddGoalsSlide(b: DeckBuilder, goals: seq<(string, Rgb)>)
    modifies b
    ensures b.width == old(b.width) && b.height == old(b.height)
    ensures b.slides == old(b.slides) + [GoalsSlideWith(goals, |goals|)]
  {
    ghost var done := b.slides;
    var k := b.AddSlide(BlankLayout);
    AddHeading(b, done, k, GoalsTitle);
    assert Slide(BlankLayout, None, [Heading(GoalsTitle)]) == GoalsSlideWith(goals, 0);
    var yPosition := 200;
    var g := 0;
    while g < |goals|
      invariant 0 <= g <= |goals|
      invariant yPosition == 200 + 110 * g
      invariant b.width == old(b.width) && b.height == old(b.height)
      invariant b.slides == done + [GoalsSlideWith(goals, g)]
    {
      var (goal, color) := goals[g];
      ghost var unfilled := StyledBox(200, yPosition, 600, 80, Styled(goal, 28, Some(true), White, Center));
      AddStyledBox(b, k, 200, yPosition, 600, 80, goal, 28, Some(true), White, Center);
      ShapeOfAppended(done + [GoalsSlideWith(goals, g)], k, unfilled);
      b.SetShapeFill(k, 1 + g, color);
      assert unfilled.(fill := Some(color)) == GoalBox(goals, g);
      ReplaceAppended(done + [GoalsSlideWith(goals, g)], k, unfilled, GoalBox(goals, g));
      AppendShapeToLast(done, GoalsSlideWith(goals, g), GoalBox(goals, g));
      assert GoalBoxes(goals, g + 1) == GoalBoxes(goals, g) + [GoalBox(goals, g)];
      ghost var t := GoalsSlideWith(goals, g);
      assert t.(shapes := t.shapes + [GoalBox(goals, g)]) == GoalsSlideWith(goals, g + 1);
      yPosition := yPosition + 110;
      g := g + 1;
    }
  }

  /** One more statistic adds its two boxes, or nothing when it has no x position. */
  lemma StatsStep(stats: seq<(string, string)>, xs: seq<int>, i: nat)
    requires i < |stats|
    ensures var s := StatsSlideWith(stats, xs, i);
            StatsSlideWith(stats, xs, i + 1) ==
              if i < |xs| then s.(shapes := s.shapes + [StatValueBox(stats, xs, i)] + [StatLabelBox(stats, xs, i)]) else s
  {
    var s := StatsSlideWith(stats, xs, i);
    if i < |xs| {
      assert StatBoxes(stats, xs, i + 1) == StatBoxes(stats, xs, i) + [StatValueBox(stats, xs, i), StatLabelBox(stats, xs, i)];
      assert s.shapes + [StatValueBox(stats, xs, i)] + [StatLabelBox(stats, xs, i)] == StatsSlideWith(stats, xs, i + 1).shapes;
    }
  }

  /** The body of the statistics loop (lines 190-208): the value box, then the label box. */
  method AddStatBoxes(b: DeckBuilder, ghost done: seq<Slide>, k: nat, stats: seq<(string, string)>, xs: seq<int>, i: nat)
    requires i < |stats| && i < |xs| && k == |done|
    requires b.slides == done + [StatsSlideWith(stats, xs, i)]
    modifies b
    ensures b.width == old(b.width) && b.height == old(b.height)
    ensures b.slides == done + [StatsSlideWith(stats, xs, i + 1)]
  {
    var (stat, desc) := stats[i];
    ghost var before := StatsSlideWith(stats, xs, i);
    AddStyledBox(b, k, xs[i] - 50, 250, 150, 80, stat, 36, Some(true), Blue, Center);
    AppendShapeToLast(done, before, StatValueBox(stats, xs, i));
    ghost var middle := before.(shapes := before.shapes + [StatValueBox(stats, xs, i)]);
    AddStyledBox(b, k, xs[i] - 50, 350, 150, 50, desc, 16, None, Slate, Center);
    AppendShapeToLast(done, middle, StatLabelBox(stats, xs, i));
    StatsStep(stats, xs, i);
  }

  /** Slide 5 (lines 168-208): the heading, then a value box and a label box per statistic that has an x position. */
  method AddStatsSlide(b: DeckBuilder, stats: seq<(string, string)>, xs: seq<int>)
    modifies b
    ensures b.width == old(b.width) && b.height == old(b.height)
    ensures b.slides == old(b.slides) + [StatsSlideWith(stats, xs, |stats|)]
  {
    ghost var done := b.slides;
    var k := b.AddSlide(BlankLayout);
    AddHeading(b, done, k, StatsTitle);
    assert Slide(BlankLayout, None, [Heading(StatsTitle)]) == StatsSlideWith(stats, xs, 0);
    var i := 0;
    while i < |stats|
      invariant 0 <= i <= |stats|
      invariant b.width == old(b.width) && b.height == old(b.height)
      invariant b.slides == done + [StatsSlideWith(stats, xs, i)]
    {
      if i < |xs| {
        AddStatBoxes(b, done, k, stats, xs, i);
      } else {
        StatsStep(stats, xs, i);
      }
      i := i + 1;
    }
  }

  /** Slide 6 (lines 211-236). */
  method AddClosingSlide(b: DeckBuilder, thanks: string, contact: string)
    modifies b
    ensures b.width == old(b.width) && b.height == old(b.height)
    ensures b.slides == old(b.slides) + [ClosingSlide(thanks, contact)]
  {
    ghost var done := b.slides;
    var k := b.AddSlide(BlankLayout);
    b.SetBackground(k, Green);
    ghost var s := Slide(BlankLayout, Some(Green), []);
    assert b.slides == done + [s];
    AddStyledBox(b, k, 100, 250, 800, 100, thanks, 48, Some(true), White, Center);
    AppendShapeToLast(done, s, StyledBox(100, 250, 800, 100, Styled(thanks, 48, Some(true), White, Center)));
    s := s.(shapes := s.shapes + [StyledBox(100, 250, 800, 100, Styled(thanks, 48, Some(true), White, Center))]);
    AddStyledBox(b, k, 100, 450, 800, 50, contact, 20, None, White, Center);
    AppendShapeToLast(done, s, StyledBox(100, 450, 800, 50, Styled(contact, 20, None, White, Center)));
    assert s.(shapes := s.shapes + [StyledBox(100, 450, 800, 50, Styled(contact, 20, None, White, Center))])
           == ClosingSlide(thanks, contact);
  }

  /** create_presentation, up to the save, for the given texts. */
  method BuildDeck(c: DeckContent) returns (deck: Deck)
    requires |c.items| >= 1
    ensures deck == DeckOf(c)
    ensures |deck.slides| == 6
  {
    var b := new DeckBuilder();
    b.width := In(1000);
    b.height := In(750);
    AddTitleSlide(b, c.title, c.subtitle, c.date);
    assert b.slides == [TitleSlide(c.title, c.subtitle, c.date)];
    AddContentsSlide(b, c.items);
    AddIntroSlide(b, c.intro);
    AddGoalsSlide(b, c.goals);
    AddStatsSlide(b, c.stats, c.xs);
    AddClosingSlide(b, c.thanks, c.contact);
    deck := b.Current();
  }

  method CreatePresentation() returns (deck: Deck)
    ensures deck == PlannedDeck()
  {
    deck := BuildDeck(ScriptContent);
  }
}
