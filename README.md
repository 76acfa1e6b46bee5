# Presentation tools: a verified model

The repository holds three small programs around a slide presentation.

- **script.js** is the browser-side navigation of the web slides. Class `Presentation` keeps a cursor over the slides. It moves the cursor on button clicks, on the arrow, Home and End keys, and on a horizontal swipe of more than 50 pixels. After every move it recomputes the view:
  - the `active` and `prev` CSS classes on each slide;
  - the disabled flags of the two buttons;
  - the width of the progress bar;
  - the "Slide n of N" screen-reader announcement.
- **convert_ppt_to_pdf.py** is a command-line converter. It checks that its argument exists and has a `.pptx` or `.ppt` extension in any letter case. It then tries LibreOffice and, if that fails, unoconv. Each converter probes for the tool with `which`, runs it, and succeeds exactly when the tool exits with status 0. The PDF is named after the input's stem, in the input's directory (or `.`). Without an argument the script writes a fixed PDF guide instead.
- **create_presentation.py** builds a six-slide deck with python-pptx on a 10 × 7.5 inch page. The slides are: a blue title slide, a table of contents, an introduction, four coloured goal boxes, four statistics and a green closing slide.

The Dafny model has one module per program, plus `Wrappers` for `Option`.

- `Navigation` (navigation.dfy) is the class `Presentation`:
  - an `array` of per-slide class flags, with the cursor, the button flags, the progress and the announcement as fields;
  - one method per source method, each proved to keep `Valid()`, the invariant that the cursor is in range and the whole view matches it;
  - pure functions (`NextIndex`, `PrevIndex`, `GoToIndex`, `KeyIndex`, `SwipeIndex`) that specify where each move leaves the cursor.
- `Conversion` (conversion.dfy) treats the environment as input values. Every external process becomes an exit code or a raised exception. The file system becomes the set of existing paths. `Convert` and `RunCli` return the outcome and the list of processes attempted (a `subprocess.run` that raised may never have started its process). The POSIX `os.path` and `pathlib` functions the script uses are written out as string functions.
- `DeckAssembly` (deck.dfy) models the document in the library's integer unit, the EMU (914400 per inch, 12700 per point).
  - The document is the datatypes `Deck`, `Slide`, `Shape`, `TextFrame` and `Paragraph`.
  - The python-pptx presentation object is the class `DeckBuilder`, with one method per library call the script makes.
  - `create_presentation` is a sequence of builder calls, split into one method per slide. Each method is proved to append exactly the slide its closed-form function (`TitleSlide`, `ContentsSlide`, …) describes.
  - The properties of the deck are lemmas about those functions. They are stated for any texts (`DeckContent`) and instantiated for the script's own texts (`ScriptContent`).

## Model

| member | source | states |
|---|---|---|
| Navigation.NextIndex | script.js:77-83 | the next cursor stays in range; it is one more than the old one unless the cursor was on the last slide, where it stays put |
| Navigation.PrevIndex | script.js:85-91 | the previous cursor stays in range; it is one less unless the cursor was on the first slide, where it stays put |
| Navigation.GoToIndex | script.js:93-99 | the cursor becomes `index` exactly when `0 <= index < totalSlides`, and is unchanged otherwise |
| Navigation.KeyIndex | script.js:23-28 | every key press leaves the cursor in range |
| Navigation.PrevUndoesNext | script.js:77-91 | from any slide but the last, stepping forward adds one and stepping back restores the cursor |
| Navigation.NextUndoesPrev | script.js:77-91 | from any slide but the first, stepping back subtracts one and stepping forward restores the cursor |
| Navigation.HomeAndEndKeys | script.js:26-27 | Home goes to slide 0 and End to slide totalSlides − 1 from any position; any other key changes nothing |
| Navigation.SwipeIndex | script.js:43-46 | a swipe more than 50 px to the left moves to the next slide, more than 50 px to the right to the previous one, and a shorter one changes nothing |
| Navigation.SwipeBranchesExclusive | script.js:44-45 | the two swipe tests never both hold, and neither holds exactly when the travel is within ±50 px |
| Navigation.CountsOfPrefix | script.js:53-63 | in the view updateSlide leaves, the first k slides hold one `active` class if the cursor is among them, and min(k, cursor) `prev` classes |
| Navigation.ExactlyOneActive | script.js:53-63 | after updateSlide exactly one slide is `active`, it is the cursor's slide, and exactly `currentSlide` slides carry `prev` |
| Navigation.Progress | script.js:70 | the progress is in (0, 100] and equals 100 exactly on the last slide |
| Navigation.ProgressIncreasing | script.js:70 | the progress grows strictly with the cursor |
| Navigation.NatToString | script.js:114 | a number renders as a non-empty run of digits with a leading '0' only for zero |
| Navigation.NatToStringRoundTrip | script.js:114 | reading the rendered digits back gives the number |
| Navigation.AnnouncementDeterminesPosition | script.js:112-114 | two equal "Slide n of N" texts have the same n and the same N |
| Navigation.DistinctSlidesAnnouncedDistinctly | script.js:112-114 | two different slides of one presentation get different "Slide n of N" announcements |
| Navigation.PreloadTarget | script.js:175-177 | preloading targets a later slide that exists, and does nothing only from the last slide or beyond |
| Navigation.PreloadMatchesNext | script.js:175-177 | from a valid cursor, preloading fires exactly when nextSlide would move, and targets the slide it would move to |
| Navigation.Presentation.Valid | script.js:51-75 | in a valid view exactly one slide is `active`, exactly `currentSlide` slides carry `prev`, and both buttons are disabled exactly when there is a single slide |
| Navigation.Presentation.constructor | script.js:3-16 | given at least one slide, the presentation starts on slide 0 with the view valid |
| Navigation.Presentation.UpdateSlide | script.js:51-75 | clears every slide's classes, then marks the cursor's slide `active` and the slides before it `prev`; sets the button flags, progress and announcement; the view becomes valid |
| Navigation.Presentation.NextSlide | script.js:77-83 | keeps the view valid, moves the cursor as NextIndex says, and changes nothing on the last slide |
| Navigation.Presentation.PreviousSlide | script.js:85-91 | keeps the view valid, moves the cursor as PrevIndex says, and changes nothing on the first slide |
| Navigation.Presentation.GoToSlide | script.js:93-99 | keeps the view valid, moves the cursor as GoToIndex says, and changes nothing for an out-of-range index |
| Navigation.Presentation.HandleKey | script.js:23-28 | keeps the view valid and moves the cursor as KeyIndex says |
| Navigation.Presentation.HandleSwipe | script.js:38-46 | keeps the view valid and moves the cursor as SwipeIndex says |
| Navigation.NextThenPrevious | script.js:77-91 | on a presentation not at its last slide, nextSlide followed by previousSlide returns to the same slide |
| Conversion.Lower | convert_ppt_to_pdf.py:338 | lower-casing keeps the length, leaves no capital letter and keeps every character that is not a capital |
| Conversion.LowerIdempotent | convert_ppt_to_pdf.py:338 | lower-casing twice is lower-casing once |
| Conversion.IsPresentationFile | convert_ppt_to_pdf.py:338 | an accepted name has a '.' four or five characters from its end and ends in `t` or `x` in either case |
| Conversion.ExtensionAcceptedInAnyCase | convert_ppt_to_pdf.py:338 | any name ending in `.pptx` or `.ppt`, in any letter case, is accepted |
| Conversion.CaseInsensitive | convert_ppt_to_pdf.py:338 | two names that differ only in letter case are both accepted or both rejected |
| Conversion.RejectedByLastChar | convert_ppt_to_pdf.py:338 | a name whose last character is neither `t` nor `x` in any case is rejected |
| Conversion.UpperCaseAccepted | convert_ppt_to_pdf.py:338 | `deck.PPTX` is accepted |
| Conversion.UnknownExtensionRejected | convert_ppt_to_pdf.py:338 | `deck.xyz` and `deck.pptm` are rejected |
| Conversion.RFind | convert_ppt_to_pdf.py:20 | the result is the last index holding the character, or −1 when there is none |
| Conversion.RStripSlashes | convert_ppt_to_pdf.py:20 | the result is a prefix with no trailing '/', and only slashes were removed |
| Conversion.SplitPath | convert_ppt_to_pdf.py:20 | the directory part has no trailing '/' unless it is all slashes, and the file part contains no '/' |
| Conversion.SplitPathTail | convert_ppt_to_pdf.py:20 | the file part is exactly the text after the path's last '/' (the whole path when it has none) |
| Conversion.SplitPathHead | convert_ppt_to_pdf.py:20 | the directory part is a prefix of the path reaching at most to its last '/', and only slashes lie between its end and that '/'; when everything up to the last '/' is slashes (as in `//x`), that whole run is the directory part |
| Conversion.SplitPathHeadEmpty | convert_ppt_to_pdf.py:20 | the directory part is empty exactly when the path has no '/' |
| Conversion.DirName | convert_ppt_to_pdf.py:20 | `os.path.dirname` is empty exactly when the path has no '/' |
| Conversion.OutputDir | convert_ppt_to_pdf.py:19-20 | an explicit directory is used as given; otherwise the result is never empty, is the input's DirName when the input has a '/', and is "." when it has none |
| Conversion.Stem | convert_ppt_to_pdf.py:48 | the stem is a prefix of the name; when it is shorter, it is non-empty and is followed by a '.' that begins the last suffix, with no '.' after it |
| Conversion.Join | convert_ppt_to_pdf.py:49 | the joined path ends with the file part and, when the file part is not absolute, begins with the directory |
| Conversion.PdfPath | convert_ppt_to_pdf.py:48-49 | the reported PDF path, the same for both converters, ends with PdfName and so with `.pdf` |
| Conversion.PdfName | convert_ppt_to_pdf.py:48 | the PDF's file name contains no '/' and ends in `.pdf` |
| Conversion.SplitJoin | convert_ppt_to_pdf.py:49 | splitting a joined directory and file name gives both back |
| Conversion.PdfBesideInput | convert_ppt_to_pdf.py:48-49 | without an explicit directory, the PDF path's directory is the defaulted output directory and its file name is the stem plus `.pdf` |
| Conversion.StemDropsExtension | convert_ppt_to_pdf.py:48 | the stem of `base + ext` is `base` for a one-dot extension and a non-empty base |
| Conversion.DotFileKeepsItsName | convert_ppt_to_pdf.py:48 | a file named only `.pptx` keeps its name as its stem and converts to `./.pptx.pdf` |
| Conversion.ConvertCommand | convert_ppt_to_pdf.py:36-42 | the command starts with the tool's own name and ends with the output directory followed by the input |
| Conversion.ToolLog | convert_ppt_to_pdf.py:22-45 | a converter always starts with its `which` probe, runs its command only when the probe exits with 0, and attempts no process of the other tool; the second process is the tool's command with the defaulted output directory and the input |
| Conversion.Convert | convert_ppt_to_pdf.py:14-59 | success exactly when probe and command both exit with 0, with the PDF at PdfPath; "not installed" exactly on a non-zero probe; an exception in either step gives an error; a failing command reports its non-zero code; the processes attempted are ToolLog |
| Conversion.CreateInfoPdf | convert_ppt_to_pdf.py:113-321 | the guide is written, as `PowerPoint_Guide.pdf`, exactly when building succeeds; a missing library is reported exactly when reportlab does not import |
| Conversion.ConversionOrder | convert_ppt_to_pdf.py:342-352 | LibreOffice is probed first, no LibreOffice process follows an unoconv one, and unoconv is attempted exactly when LibreOffice failed |
| Conversion.RunCli | convert_ppt_to_pdf.py:324-358 | no argument gives the fallback guide and attempts no process; a missing file is reported before the extension is checked; a non-presentation is rejected before any process; LibreOffice succeeds, or unoconv succeeds after LibreOffice failed, or both failed, each exactly when the environment says so; the PDF path is PdfPath; the processes attempted are ConversionLog |
| DeckAssembly.In | create_presentation.py:16-17 | a length in hundredths of an inch is converted at 914400 EMU per inch |
| DeckAssembly.Pt | create_presentation.py:33 | a size in points is converted at 12700 EMU per point, i.e. 72 points per inch |
| DeckAssembly.SplitLines | create_presentation.py:119 | setting a frame's text gives at least one paragraph, none containing a line break, and exactly one for a text without line breaks |
| DeckAssembly.SplitLinesRoundTrip | create_presentation.py:119 | joining the paragraphs with line breaks gives the text back |
| DeckAssembly.Strip | create_presentation.py:119 | the stripped introduction is no longer than the text, and is empty or neither starts nor ends with a character Python counts as whitespace |
| DeckAssembly.StripTrims | create_presentation.py:119 | the stripped text is a contiguous piece of the text, and everything removed before and after it is whitespace |
| DeckAssembly.StripUnicodeSpace | create_presentation.py:119 | information separators, the ideographic space and the no-break space are stripped as Python strips them |
| DeckAssembly.ParagraphText | create_presentation.py:85 | the paragraph text setter keeps the length, keeps every character but '\n', and turns each '\n' into a break that reads back as a vertical tab |
| DeckAssembly.ParagraphTextStable | create_presentation.py:85 | a text without line breaks is stored unchanged, and storing a stored text again changes nothing |
| DeckAssembly.SetTextReadsBack | create_presentation.py:81 | a frame whose text was set reads back the same text |
| DeckAssembly.DeckBuilder.constructor | create_presentation.py:15-17 | a new presentation has a 10 × 7.5 inch page and no slides |
| DeckAssembly.DeckBuilder.AddSlide | create_presentation.py:20 | appends one empty slide with the layout and returns its index |
| DeckAssembly.DeckBuilder.SetBackground | create_presentation.py:23-26 | sets the solid background of slide k and nothing else |
| DeckAssembly.DeckBuilder.AddTextBox | create_presentation.py:29 | appends a text box with one empty paragraph at the end of slide k and returns its index |
| DeckAssembly.DeckBuilder.SetText | create_presentation.py:31 | replaces the paragraphs of one box by one unstyled paragraph per line of the text |
| DeckAssembly.DeckBuilder.SetWordWrap | create_presentation.py:120 | sets the word-wrap flag of one box and nothing else |
| DeckAssembly.DeckBuilder.AddParagraph | create_presentation.py:84 | appends an empty paragraph to one box and returns its index |
| DeckAssembly.DeckBuilder.SetParagraph | create_presentation.py:85-86 | replaces one paragraph of one box and nothing else |
| DeckAssembly.DeckBuilder.SetShapeFill | create_presentation.py:161-163 | sets the solid fill of one box and nothing else |
| DeckAssembly.StyledFrameParagraphs | create_presentation.py:29-36 | a box's text gives one paragraph per line; only the first carries the font and alignment; a one-line text is one fully styled paragraph |
| DeckAssembly.StyledFrameReadsBack | create_presentation.py:29-36 | styling the first paragraph does not change the text the box shows |
| DeckAssembly.ContentsEntries | create_presentation.py:79-91 | the contents slide has the heading and one box; every paragraph is 28 pt, slate and right-aligned; with a one-line first item there is one paragraph per item, in order, holding the item as the paragraph setter stores it, and every paragraph but the first has 15 pt before it |
| DeckAssembly.ScriptContents | create_presentation.py:70-91 | the script's contents box holds its six items, in order, as written, with no space before only the first |
| DeckAssembly.TocTexts | create_presentation.py:81-85 | the contents paragraphs hold the first item's lines and then each further item as the paragraph setter stores it, in order |
| DeckAssembly.ContentsReadsBack | create_presentation.py:79-86 | the contents box reads back as the first item and then the stored further items, joined by line breaks; when no further item has a line break, that is exactly the items joined by line breaks |
| DeckAssembly.IntroEntries | create_presentation.py:117-126 | the introduction box wraps words and has one paragraph per line of the stripped text, each 22 pt, slate, right-aligned, with 20 pt after |
| DeckAssembly.IntroReadsBack | create_presentation.py:117-119 | the introduction box reads back as the stripped text |
| DeckAssembly.GoalBoxes | create_presentation.py:149-165 | there is one box per goal |
| DeckAssembly.GoalsStepDown | create_presentation.py:149-165 | goal box i sits at 2 + 1.1·i inches, is filled with goal i's colour and shows goal i's text |
| DeckAssembly.StatBoxes | create_presentation.py:188-208 | each statistic with an x position contributes two boxes, and any other statistic none |
| DeckAssembly.StatBoxesAt | create_presentation.py:188-208 | statistic i's value box is box 2i and its label box is box 2i + 1 |
| DeckAssembly.DeckOutline | create_presentation.py:20-236 | the deck has six blank-layout slides; only slide 1 (blue) and slide 6 (green) have a background; the shape counts are 3, 2, 2, 1 + goals, 1 + 2·min(stats, x positions) and 2 |
| DeckAssembly.PlannedDeckOutline | create_presentation.py:20-236 | the script's deck has six slides with 3, 2, 2, 5, 9 and 2 shapes |
| DeckAssembly.TitleSlideTexts | create_presentation.py:20-54 | the title slide (TitleSlide) is blue and shows the title, the subtitle and the date in three boxes, top to bottom |
| DeckAssembly.ClosingSlideTexts | create_presentation.py:211-236 | the closing slide (ClosingSlide) is green and shows the thanks above the contact line |
| DeckAssembly.HeadingReadsBack | create_presentation.py:60-67 | a one-line heading is a single 40 pt bold blue right-aligned paragraph in a box at (1, 0.5) inches, 8 × 0.8 inches, and reads back as its text |
| DeckAssembly.StatBoxTexts | create_presentation.py:190-208 | statistic i's value box (StatValueBox) and label box (StatLabelBox) start half an inch left of x position i, are 1.5 inches wide, show the value above the label |
| DeckAssembly.GoalsOnPage | create_presentation.py:149-165 | up to five goal boxes fit on the page |
| DeckAssembly.StatBoxesOnPage | create_presentation.py:188-208 | statistic boxes, each starting half an inch left of an x position between 0.5 and 8.5 inches and 1.5 inches wide, fit on the page |
| DeckAssembly.StatsOnPage | create_presentation.py:168-208 | every box of the statistics slide fits on the page |
| DeckAssembly.DeckFitsPage | create_presentation.py:15-236 | with at most five goals and x positions within 0.5–8.5 inches, every box of every slide lies within the page, whatever the texts |
| DeckAssembly.PlannedDeckFitsPage | create_presentation.py:15-236 | every box of the script's deck lies within the 10 × 7.5 inch page |
| DeckAssembly.AddStyledBox | create_presentation.py:29-36 | appends a box whose text is set and whose first paragraph is styled; nothing else changes |
| DeckAssembly.AddHeading | create_presentation.py:60-67 | gives a fresh slide its heading: one 40 pt bold blue right-aligned line |
| DeckAssembly.AddTitleSlide | create_presentation.py:20-54 | appends exactly the title slide |
| DeckAssembly.AddContentsEntries | create_presentation.py:83-86 | the first contents loop adds one paragraph per further item, holding the item as the paragraph setter stores it, spaced 15 pt before |
| DeckAssembly.StyleContentsEntries | create_presentation.py:88-91 | the second contents loop styles every paragraph of the box |
| DeckAssembly.AddContentsSlide | create_presentation.py:57-91 | appends exactly the contents slide |
| DeckAssembly.StyleIntroParagraphs | create_presentation.py:122-126 | the introduction loop styles every paragraph of the box |
| DeckAssembly.AddIntroSlide | create_presentation.py:94-126 | appends exactly the introduction slide |
| DeckAssembly.AddGoalsSlide | create_presentation.py:129-165 | appends exactly the goals slide; the loop's y position is 2 + 1.1·g inches at goal g |
| DeckAssembly.StatsStep | create_presentation.py:189-190 | one more statistic adds its value and label boxes when it has an x position, and nothing otherwise |
| DeckAssembly.AddStatBoxes | create_presentation.py:190-208 | adds the value box and then the label box of one statistic |
| DeckAssembly.AddStatsSlide | create_presentation.py:168-208 | appends exactly the statistics slide |
| DeckAssembly.AddClosingSlide | create_presentation.py:211-236 | appends exactly the closing slide |
| DeckAssembly.BuildDeck | create_presentation.py:13-236 | for any texts, the builder calls produce exactly DeckOf(texts): six slides in order on a 10 × 7.5 inch page |
| DeckAssembly.CreatePresentation | create_presentation.py:13-242 | the deck handed to the save is the planned deck, whose outline and page fit are the lemmas above |

## Left out

- script.js: the DOM itself is left out. That covers element lookup, event-listener registration, the animation reset with `setTimeout`, the creation and styling of the aria-live element, the page fade-in, the hover transition and the image fetches of `preloadNextSlide`. The model keeps only what the navigation writes. Only the guard of `preloadNextSlide` is modelled.
- Navigation.Progress: an exact real number, whereas the browser computes it in floating point and writes it as a CSS string.
- Navigation.Presentation.constructor: requires at least one slide. With none, the source's updateSlide fails on `slides[0]`.
- All console and `print` output, including the status lines and the "6 slides" message, is not modelled.
- Conversion: processes are inputs. Subprocess execution, `which`, captured output and the real behaviour of LibreOffice and unoconv are not modelled.
- Conversion: the script checks only the exit code. It does not check that the PDF exists afterwards, has no timeout, and never deletes partial output. The model does the same.
- Conversion.RunCli: `main` returns normally on every path, so the process exits with status 0 even when every method failed. The model has no exit status.
- Conversion.CreateInfoPdf: models only the outcome of the guide. Its content and reportlab layout are fixed text pushed through a foreign library.
- Conversion.Lower: ASCII lower-casing only. Non-ASCII letters never lower-case to one of `.pptx`, so acceptance is unaffected.
- Conversion.Stem: follows `pathlib`'s stem as Python 3.8 to 3.13 compute it (the last '.' starts the suffix, unless it is the name's first or last character, in which case there is no suffix). Later releases changed the rule for names made of dots at their ends, such as `..pptx` or `deck.`; the model does not follow those releases.
- Conversion.SplitPath: follows POSIX `os.path.split` on '/' only. Windows separators and `pathlib`'s other normalisations are not modelled.
- DeckAssembly: `prs.save` and the Office Open XML serialisation are not modelled, and neither is the exception handler around `create_presentation`. The model ends with the deck value that would be saved.
- DeckAssembly.DeckBuilder.SetText: splits text into paragraphs at '\n' only. The library also turns a vertical tab into a line break inside a paragraph; no text in the script contains one.
- DeckAssembly: the text setters are modelled for line breaks only. Other control characters are refused by older python-pptx releases and escaped as `_xHHHH_` by newer ones, so the read-back lemmas (SetTextReadsBack, StyledFrameReadsBack, ContentsReadsBack, IntroReadsBack) hold only for texts without them. The script's texts contain none.
- DeckAssembly.AddHeading: requires a one-line heading. All four headings are one line.
- DeckAssembly.AddGoalsSlide: uses exact hundredths of an inch, whereas the script accumulates `y_position += 1.1` in floating point. For the first eight goals, `Inches()` truncates the float lengths to the same integer EMU values, which covers the script's four. From the ninth goal on, the float sum falls just below the exact value (10.799999999999999 inches at goal index 8) and truncates to 1 EMU less than the model.
- DeckAssembly.GoalsStepDown: states the exact position 2 + 1.1·i inches for every goal; for goal index 8 and beyond the script's float positions are 1 EMU lower. The script has four goals.
- DeckAssembly: the model has no error cases for empty decks, unwritable targets or colour or size values outside their ranges. The script has no such checks. `RGBColor` channels are bounded by the `Channel` type.
- DeckAssembly: beyond ScriptContents, the model does not state the fixed texts of the script's slides through `PlannedDeck()`. Stated on the whole deck, such facts make the verifier unfold every literal string and run out of resource. The general lemmas state them for any texts.
