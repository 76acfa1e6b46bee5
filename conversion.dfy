/**
 * The PowerPoint-to-PDF command (convert_ppt_to_pdf.py): input validation,
 * the LibreOffice-then-unoconv dispatch, the fallback guide, and the naming
 * of the output file.
 *
 * Every external process is reduced to what the script reads from it:
 * `subprocess.run` either returns an exit code or raises. The file system
 * is reduced to the set of paths that exist. Paths follow POSIX
 * `os.path` and `pathlib` rules.
 */
module Conversion {
  import opened Wrappers

  // ---------------------------------------------------------------------
  // Extension check (line 338)
  // ---------------------------------------------------------------------

  /** ASCII lower-casing; the only characters whose lower case is '.', 'p', 't' or 'x' are those and 'P', 'T', 'X'. */
  function LowerChar(ch: char): char {
    if 'A' <= ch <= 'Z' then (ch as int - 'A' as int + 'a' as int) as char else ch
  }

  /** str.lower on ASCII: no capital letter is left, and every other character is kept. */
  function Lower(s: string): (r: string)
    ensures |r| == |s|
    ensures forall i :: 0 <= i < |r| ==> !('A' <= r[i] <= 'Z')
    ensures forall i :: 0 <= i < |s| && !('A' <= s[i] <= 'Z') ==> r[i] == s[i]
  {
    seq(|s|, i requires 0 <= i < |s| => LowerChar(s[i]))
  }

  lemma LowerEach(s: string)
    ensures forall i :: 0 <= i < |s| ==> Lower(s)[i] == LowerChar(s[i])
  {
  }

  predicate EndsWith(s: string, suffix: string) {
    |suffix| <= |s| && s[|s| - |suffix|..] == suffix
  }

  /** `name.lower().endswith(('.pptx', '.ppt'))` */
  predicate IsPresentationFile(name: string): (accepted: bool)
    ensures accepted ==> |name| >= 4 && (name[|name| - 4] == '.' || (|name| >= 5 && name[|name| - 5] == '.'))
    ensures accepted ==> LowerChar(name[|name| - 1]) == 't' || LowerChar(name[|name| - 1]) == 'x'
  {
    var l := Lower(name);
    assert forall i :: 0 <= i < |name| ==> l[i] == LowerChar(name[i]);
    EndsWith(l, ".pptx") || EndsWith(l, ".ppt")
  }

  /** Lower-casing twice is lower-casing once. */
  lemma LowerIdempotent(s: string)
    ensures Lower(Lower(s)) == Lower(s)
  {
    assert forall i :: 0 <= i < |s| ==> Lower(Lower(s))[i] == Lower(s)[i];
  }

  lemma LowerAppend(s: string, t: string)
    ensures Lower(s + t) == Lower(s) + Lower(t)
  {
  }

  /** Any capitalisation of either extension is accepted, whatever precedes it. */
  lemma {:induction false} ExtensionAcceptedInAnyCase(stem: string, ext: string)
    requires Lower(ext) == ".pptx" || Lower(ext) == ".ppt"
    ensures IsPresentationFile(stem + ext)
  {
    LowerAppend(stem, ext);
    var l := Lower(stem + ext);
    assert l[|l| - |ext|..] == Lower(ext);
  }

  /** Acceptance depends on the name only up to letter case. */
  lemma CaseInsensitive(s: string, t: string)
    requires |s| == |t|
    requires forall i :: 0 <= i < |s| ==> LowerChar(s[i]) == LowerChar(t[i])
    ensures IsPresentationFile(s) <==> IsPresentationFile(t)
  {
    assert Lower(s) == Lower(t);
  }

  /** A name whose last character is, in any case, neither 't' nor 'x' is rejected. */
  lemma RejectedByLastChar(name: string)
    requires |name| >= 1
    requires LowerChar(name[|name| - 1]) != 't' && LowerChar(name[|name| - 1]) != 'x'
    ensures !IsPresentationFile(name)
  {
    var l := Lower(name);
    assert l[|l| - 1] == LowerChar(name[|name| - 1]);
  }

  lemma UpperCaseAccepted()
    ensures IsPresentationFile("deck.PPTX")
  {
    var ext := ".PPTX";
    var l := Lower(ext);
    LowerEach(ext);
    assert l[0] == '.' && l[1] == 'p' && l[2] == 'p' && l[3] == 't' && l[4] == 'x';
    assert l == ".pptx";
    assert "deck.PPTX" == "deck" + ext;
    ExtensionAcceptedInAnyCase("deck", ext);
  }

  lemma UnknownExtensionRejected()
    ensures !IsPresentationFile("deck.xyz") && !IsPresentationFile("deck.pptm")
  {
    RejectedByLastChar("deck.xyz");
    RejectedByLastChar("deck.pptm");
  }

  // ---------------------------------------------------------------------
  // Paths (os.path on POSIX, pathlib's stem)
  // ---------------------------------------------------------------------

  /** str.rfind for one character: the last index holding `ch`, or -1. */
  function RFind(s: string, ch: char): (i: int)
    ensures -1 <= i < |s|
    ensures i >= 0 ==> s[i] == ch
    ensures forall k :: i < k < |s| ==> s[k] != ch
  {
    if s == [] then -1
    else if s[|s| - 1] == ch then |s| - 1
    else RFind(s[..|s| - 1], ch)
  }

  predicate AllSlashes(s: string) {
    forall i :: 0 <= i < |s| ==> s[i] == '/'
  }

  /** str.rstrip('/') */
  function RStripSlashes(s: string): (r: string)
    ensures |r| <= |s| && r == s[..|r|]
    ensures r == "" || r[|r| - 1] != '/'
    ensures forall k :: |r| <= k < |s| ==> s[k] == '/'
  {
    if s != [] && s[|s| - 1] == '/' then RStripSlashes(s[..|s| - 1]) else s
  }

  /** A directory as dirname returns it: no trailing '/' unless it is nothing but slashes. */
  predicate NormalDir(d: string) {
    d == "" || AllSlashes(d) || d[|d| - 1] != '/'
  }

  /** os.path.split: the head loses its trailing slashes unless it is nothing but slashes. */
  function SplitPath(p: string): (parts: (string, string))
    ensures NormalDir(parts.0)
    ensures '/' !in parts.1
  {
    var i := RFind(p, '/') + 1;
    var head, tail := p[..i], p[i..];
    assert forall k :: 0 <= k < |tail| ==> tail[k] == p[i + k];
    if head != "" && !AllSlashes(head) then (RStripSlashes(head), tail) else (head, tail)
  }

  /** The file part of a path is everything after its last '/'. */
  lemma SplitPathTail(p: string)
    ensures var tail, i := SplitPath(p).1, RFind(p, '/');
            |tail| == |p| - 1 - i && tail == p[|p| - |tail|..]
  {
  }

  /** The directory part is the text up to the last '/', less trailing slashes unless it is all slashes, in which case it is kept whole. */
  lemma SplitPathHead(p: string)
    ensures var head, i := SplitPath(p).0, RFind(p, '/');
            |head| <= i + 1 && head == p[..|head|] &&
            forall k :: |head| <= k <= i ==> p[k] == '/'
    ensures var i := RFind(p, '/'); AllSlashes(p[..i + 1]) ==> SplitPath(p).0 == p[..i + 1]
  {
    var i := RFind(p, '/');
    var head := p[..i + 1];
    if head != "" && !AllSlashes(head) {
      var stripped := RStripSlashes(head);
      assert SplitPath(p).0 == stripped;
      assert forall k :: |stripped| <= k <= i ==> p[k] == head[k];
      assert stripped == head[..|stripped|] == p[..|stripped|];
    }
  }

  /** The directory part is empty exactly when the path has no '/'. */
  lemma SplitPathHeadEmpty(p: string)
    ensures SplitPath(p).0 == "" <==> '/' !in p
  {
    var i := RFind(p, '/');
    var head := p[..i + 1];
    if i >= 0 {
      assert p[i] == '/';
      if head != "" && !AllSlashes(head) {
        var stripped := RStripSlashes(head);
        assert stripped != "";
      }
    } else {
      assert forall k :: 0 <= k < |p| ==> p[k] != '/';
    }
  }

  /** os.path.dirname: empty exactly for a path without a '/'. */
  function DirName(p: string): (d: string)
    ensures d == "" <==> '/' !in p
  {
    SplitPathHeadEmpty(p);
    SplitPath(p).0
  }

  /** `Path(pptx_file).name` inside `.stem` (line 48); it differs from pathlib only for a trailing '/', which no accepted input has. */
  function BaseName(p: string): string {
    SplitPath(p).1
  }

  /** os.path.join of two components. */
  function Join(a: string, b: string): (r: string)
    ensures EndsWith(r, b)
    ensures (b == "" || b[0] != '/') ==> |a| <= |r| && r[..|a|] == a
  {
    if |b| > 0 && b[0] == '/' then b
    else if a == "" || a[|a| - 1] == '/' then a + b
    else a + "/" + b
  }

  /**
   * pathlib's stem as Python 3.8 to 3.13 compute it: the last '.' starts the
   * suffix, unless it is the name's first or last character, in which case
   * there is no suffix and the stem is the whole name.
   */
  function Stem(name: string): (stem: string)
    ensures |stem| <= |name| && stem == name[..|stem|]
    ensures stem != name ==> 0 < |stem| && name[|stem|] == '.' && '.' !in name[|stem| + 1..]
  {
    var i := RFind(name, '.');
    if 0 < i < |name| - 1 then name[..i] else name
  }

  /** Lines 19-20 and 67-68: without an explicit directory, the input's own directory, or "." if it has none. */
  function OutputDir(input: string, outputDir: Option<string>): (d: string)
    ensures outputDir.None? ==> d != "" && NormalDir(d)
    ensures outputDir.None? && '/' !in input ==> d == "."
    ensures outputDir.None? && '/' in input ==> d == DirName(input)
    ensures outputDir.Some? ==> d == outputDir.value
  {
    match outputDir
    case Some(dir) => dir
    case None =>
      var dir := DirName(input);
      assert dir == SplitPath(input).0;
      if dir == "" then "." else dir
  }

  /** Lines 48-49 and 94-95: the stem of the input's file name with ".pdf", in the output directory. */
  function PdfName(input: string): (name: string)
    ensures '/' !in name && EndsWith(name, ".pdf")
  {
    var stem := Stem(BaseName(input));
    assert forall k :: 0 <= k < |stem| ==> stem[k] in BaseName(input);
    stem + ".pdf"
  }

  /** The reported output file: the same for both converters. */
  function PdfPath(input: string, outputDir: Option<string>): (path: string)
    ensures EndsWith(path, PdfName(input)) && EndsWith(path, ".pdf")
  {
    assert PdfName(input)[|PdfName(input)| - 4..] == ".pdf";
    Join(OutputDir(input, outputDir), PdfName(input))
  }

  lemma RFindAt(s: string, ch: char, i: int)
    requires 0 <= i < |s| && s[i] == ch
    requires forall k :: i < k < |s| ==> s[k] != ch
    ensures RFind(s, ch) == i
  {
  }

  /** Splitting a joined path gives back the directory and the file name. */
  lemma {:induction false} SplitJoin(d: string, f: string)
    requires d != "" && NormalDir(d)
    requires f != "" && '/' !in f
    ensures DirName(Join(d, f)) == d
    ensures BaseName(Join(d, f)) == f
  {
    var p := Join(d, f);
    if d[|d| - 1] == '/' {
      assert p == d + f;
      RFindAt(p, '/', |d| - 1);
      assert p[..|d|] == d && p[|d|..] == f;
    } else {
      assert p == d + "/" + f;
      RFindAt(p, '/', |d|);
      assert p[..|d| + 1] == d + "/" && p[|d| + 1..] == f;
      assert (d + "/")[|d| - 1] == d[|d| - 1];
      assert RStripSlashes(d + "/") == RStripSlashes(d) == d;
    }
  }

  /** Without an explicit directory the PDF is named beside the input it came from. */
  lemma PdfBesideInput(input: string)
    ensures DirName(PdfPath(input, None)) == OutputDir(input, None)
    ensures BaseName(PdfPath(input, None)) == PdfName(input)
  {
    SplitJoin(OutputDir(input, None), PdfName(input));
  }

  /** The stem drops exactly the extension: a name with a non-empty base keeps the base. */
  lemma StemDropsExtension(base: string, ext: string)
    requires base != "" && |ext| >= 2 && ext[0] == '.'
    requires '.' !in ext[1..]
    ensures Stem(base + ext) == base
  {
    var name := base + ext;
    forall k | |base| < k < |name| ensures name[k] != '.' {
      assert name[k] == ext[1..][k - |base| - 1];
    }
    RFindAt(name, '.', |base|);
    assert name[..|base|] == base;
  }

  /** A file that is only an extension, such as ".pptx", keeps it: its PDF is ".pptx.pdf". */
  lemma DotFileKeepsItsName()
    ensures Stem(".pptx") == ".pptx"
    ensures PdfPath(".pptx", None) == "./.pptx.pdf"
  {
    RFindAt(".pptx", '.', 0);
    assert RFind(".pptx", '/') == -1;
    assert BaseName(".pptx") == ".pptx";
    assert PdfName(".pptx") == ".pptx.pdf";
    assert OutputDir(".pptx", None) == ".";
  }

  // ---------------------------------------------------------------------
  // One converter: probe, then run, then read the exit code
  // ---------------------------------------------------------------------

  datatype Tool = LibreOffice | Unoconv

  /** What `subprocess.run` did: returned with an exit code, or raised. */
  datatype ProcessResult = Exited(code: int) | Raised

  /** The environment as one converter sees it: the result of its `which` probe and of its command. */
  datatype ToolEnv = ToolEnv(probe: ProcessResult, run: ProcessResult)

  /** One `subprocess.run` the script attempts, with its argument vector (the process may fail to start, as a missing `which` does). */
  datatype Invocation = Invocation(tool: Tool, argv: seq<string>)

  datatype ConvertResult =
    | Converted(pdf: string)
    | NotInstalled
    | CommandFailed(code: int)
    | ErrorRaised

  function ToolName(tool: Tool): string {
    match tool
    case LibreOffice => "libreoffice"
    case Unoconv => "unoconv"
  }

  function ProbeCommand(tool: Tool): seq<string> {
    ["which", ToolName(tool)]
  }

  /** The conversion command: the tool's own name, PDF output, then the output directory and the input last. */
  function ConvertCommand(tool: Tool, outputDir: string, input: string): (argv: seq<string>)
    ensures |argv| >= 4 && argv[0] == ToolName(tool)
    ensures argv[|argv| - 2] == outputDir && argv[|argv| - 1] == input
  {
    match tool
    case LibreOffice => ["libreoffice", "--headless", "--convert-to", "pdf", "--outdir", outputDir, input]
    case Unoconv => ["unoconv", "-f", "pdf", "-o", outputDir, input]
  }

  /** `which <tool>` */
  function ProbeOf(tool: Tool): Invocation {
    Invocation(tool, ProbeCommand(tool))
  }

  function RunOf(tool: Tool, input: string, outputDir: Option<string>): Invocation {
    Invocation(tool, ConvertCommand(tool, OutputDir(input, outputDir), input))
  }

  /** The processes one converter attempts: its `which` probe, then its command if the probe found it. */
  function ToolLog(tool: Tool, input: string, outputDir: Option<string>, env: ToolEnv): (log: seq<Invocation>)
    ensures 1 <= |log| <= 2 && log[0] == ProbeOf(tool)
    ensures |log| == 2 <==> env.probe == Exited(0)
    ensures |log| == 2 ==> log[1] == RunOf(tool, input, outputDir)
    ensures forall i :: 0 <= i < |log| ==> log[i].tool == tool
  {
    if env.probe == Exited(0) then [ProbeOf(tool), RunOf(tool, input, outputDir)] else [ProbeOf(tool)]
  }

  /** The converter succeeds: its probe and its command both exit with status 0. */
  predicate ToolConverts(env: ToolEnv) {
    env.probe == Exited(0) && env.run == Exited(0)
  }

  /** convert_with_libreoffice and convert_with_unoconv; the Python function returns `result.Converted?`. */
  method Convert(tool: Tool, input: string, outputDir: Option<string>, env: ToolEnv)
    returns (result: ConvertResult, log: seq<Invocation>)
    ensures result.Converted? <==> ToolConverts(env)
    ensures result.Converted? ==> result.pdf == PdfPath(input, outputDir)
    ensures result == NotInstalled <==> env.probe.Exited? && env.probe.code != 0
    ensures result == ErrorRaised <==> env.probe == Raised || (env.probe == Exited(0) && env.run == Raised)
    ensures result.CommandFailed? ==> env.run == Exited(result.code) && result.code != 0
    ensures log == ToolLog(tool, input, outputDir, env)
  {
    log := [ProbeOf(tool)];
    match env.probe {
      case Raised =>
        return ErrorRaised, log;
      case Exited(code) =>
        if code != 0 {
          return NotInstalled, log;
        }
    }
    log := log + [RunOf(tool, input, outputDir)];
    match env.run {
      case Raised =>
        result := ErrorRaised;
      case Exited(code) =>
        if code == 0 {
          result := Converted(PdfPath(input, outputDir));
        } else {
          result := CommandFailed(code);
        }
    }
  }

  // ---------------------------------------------------------------------
  // The fallback guide (create_info_pdf, outcome only)
  // ---------------------------------------------------------------------

  /** Whether reportlab imports, and whether building the document then raises. */
  datatype GuideEnv = ReportlabMissing | BuildRaises | BuildSucceeds

  datatype GuideResult = GuideWritten(path: string) | LibraryMissing | GuideError

  const GuidePath: string := "PowerPoint_Guide.pdf"

  function CreateInfoPdf(env: GuideEnv): (r: GuideResult)
    ensures r.GuideWritten? <==> env == BuildSucceeds
    ensures r.GuideWritten? ==> r.path == GuidePath
    ensures r == LibraryMissing <==> env == ReportlabMissing
  {
    match env
    case ReportlabMissing => LibraryMissing
    case BuildRaises => GuideError
    case BuildSucceeds => GuideWritten(GuidePath)
  }

  // ---------------------------------------------------------------------
  // main
  // ---------------------------------------------------------------------

  /** Everything main depends on besides its arguments. */
  datatype World = World(existing: set<string>, libreOffice: ToolEnv, unoconv: ToolEnv, guide: GuideEnv)

  datatype CliOutcome =
    | FileNotFound
    | NotAPresentation
    | ConvertedBy(tool: Tool, pdf: string)
    | AllMethodsFailed
    | Fallback(guide: GuideResult)

  /** The input is one main will hand to the converters. */
  predicate Convertible(argv: seq<string>, world: World) {
    |argv| > 1 && argv[1] in world.existing && IsPresentationFile(argv[1])
  }

  predicate Invokes(log: seq<Invocation>, tool: Tool) {
    exists i :: 0 <= i < |log| && log[i].tool == tool
  }

  /** No LibreOffice process is attempted after an unoconv one. */
  predicate LibreOfficeFirst(log: seq<Invocation>) {
    forall i, j :: 0 <= i < j < |log| && log[j].tool == LibreOffice ==> log[i].tool == LibreOffice
  }

  /** The processes main attempts for a convertible input: LibreOffice's, then unoconv's if LibreOffice failed. */
  function ConversionLog(input: string, world: World): seq<Invocation> {
    ToolLog(LibreOffice, input, None, world.libreOffice)
      + (if ToolConverts(world.libreOffice) then [] else ToolLog(Unoconv, input, None, world.unoconv))
  }

  /** LibreOffice is probed first; unoconv is attempted only after LibreOffice failed, and then is probed too. */
  lemma ConversionOrder(input: string, world: World)
    ensures var log := ConversionLog(input, world);
            |log| >= 1 && log[0] == ProbeOf(LibreOffice) &&
            LibreOfficeFirst(log) &&
            (Invokes(log, Unoconv) <==> !ToolConverts(world.libreOffice)) &&
            (!ToolConverts(world.libreOffice) ==> ProbeOf(Unoconv) in log)
  {
    var first := ToolLog(LibreOffice, input, None, world.libreOffice);
    var log := ConversionLog(input, world);
    assert forall i :: 0 <= i < |first| ==> log[i] == first[i];
    if !ToolConverts(world.libreOffice) {
      var second := ToolLog(Unoconv, input, None, world.unoconv);
      assert forall i :: 0 <= i < |second| ==> log[|first| + i] == second[i];
      assert log[|first|] == ProbeOf(Unoconv);
    } else {
      assert log == first;
    }
  }

  /** main, with argv as sys.argv (argv[0] is the script); `log` lists the processes it attempts. */
  method RunCli(argv: seq<string>, world: World) returns (outcome: CliOutcome, log: seq<Invocation>)
    // no argument: the fallback guide, and no process at all
    ensures |argv| <= 1 ==> outcome == Fallback(CreateInfoPdf(world.guide))
    ensures |argv| > 1 ==> !outcome.Fallback?
    // existence is checked before the extension
    ensures |argv| > 1 && argv[1] !in world.existing ==> outcome == FileNotFound
    ensures (|argv| > 1 && argv[1] in world.existing && !IsPresentationFile(argv[1])) ==> outcome == NotAPresentation
    // LibreOffice first, unoconv only if it failed
    ensures outcome.ConvertedBy? ==> outcome.pdf == PdfPath(argv[1], None)
    ensures (outcome.ConvertedBy? && outcome.tool == LibreOffice)
            <==> (Convertible(argv, world) && ToolConverts(world.libreOffice))
    ensures (outcome.ConvertedBy? && outcome.tool == Unoconv)
            <==> (Convertible(argv, world) && !ToolConverts(world.libreOffice) && ToolConverts(world.unoconv))
    ensures outcome == AllMethodsFailed
            <==> (Convertible(argv, world) && !ToolConverts(world.libreOffice) && !ToolConverts(world.unoconv))
    // the processes: none unless the input is convertible
    ensures log == if Convertible(argv, world) then ConversionLog(argv[1], world) else []
  {
    if |argv| > 1 {
      var input := argv[1];
      if input !in world.existing {
        return FileNotFound, [];
      }
      if !IsPresentationFile(input) {
        return NotAPresentation, [];
      }
      var first, firstLog := Convert(LibreOffice, input, None, world.libreOffice);
      log := firstLog;
      if first.Converted? {
        return ConvertedBy(LibreOffice, first.pdf), log;
      }
      var second, secondLog := Convert(Unoconv, input, None, world.unoconv);
      log := log + secondLog;
      if second.Converted? {
        return ConvertedBy(Unoconv, second.pdf), log;
      }
      outcome := AllMethodsFailed;
    } else {
      outcome := Fallback(CreateInfoPdf(world.guide));
      log := [];
    }
  }
}
