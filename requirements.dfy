/**
 * The system requirements probe of the transcriber application: it asks the
 * Python interpreter for its version, whether the Whisper package imports and
 * whether PyTorch sees a CUDA device, collects the answers in a result object
 * and renders a summary for the user.
 *
 * Each probe starts the interpreter; the model takes what that run gave as a
 * parameter: the lines it wrote to standard output and its exit code, or the
 * failure to start it at all.
 */
module Requirements {
  import opened Wrappers
  import opened Text

  datatype Probe = Ran(lines: seq<string>, exitCode: int) | FailedToStart

  /** The standard output collected by appending each received line to a string builder. */
  function Output(lines: seq<string>): string
  {
    AppendLines(lines, NewLine)
  }

  /** One or more ASCII decimal digits. */
  predicate IsNumber(s: string)
  {
    s != "" && forall k :: 0 <= k < |s| ==> IsDigit(s[k])
  }

  /** A version "X.Y.Z": exactly three numbers separated by dots. */
  predicate IsVersion(v: string)
  {
    var parts := Split(v, '.');
    |parts| == 3 && IsNumber(parts[0]) && IsNumber(parts[1]) && IsNumber(parts[2])
  }

  /** The end of the run of digits that starts at i. */
  function DigitsEnd(s: string, i: nat): (r: nat)
    requires i <= |s|
    ensures i <= r <= |s|
    ensures forall k :: i <= k < r ==> IsDigit(s[k])
    ensures r < |s| ==> !IsDigit(s[r])
    decreases |s| - i
  {
    if i < |s| && IsDigit(s[i]) then DigitsEnd(s, i + 1) else i
  }

  /**
   * Where the group `\d+\.\d+\.\d+` ends when it starts at i, if it matches
   * there. A greedy run of digits never has to give a digit back to match a
   * dot, so the maximal runs decide the match.
   */
  function GroupEnd(s: string, i: nat): (r: Option<nat>)
    requires i <= |s|
    ensures r.Some? ==> i < r.value <= |s|
  {
    var a := DigitsEnd(s, i);
    if a == i || a == |s| || s[a] != '.' then None
    else
      var b := DigitsEnd(s, a + 1);
      if b == a + 1 || b == |s| || s[b] != '.' then None
      else
        var c := DigitsEnd(s, b + 1);
        if c == b + 1 then None else Some(c)
  }

  const Prefix: string := "Python "

  /** The version the pattern `Python (\d+\.\d+\.\d+)` captures when its match starts at i. */
  function VersionAt(s: string, i: nat): (r: Option<string>)
    requires i <= |s|
    ensures r.Some? ==> IsVersion(r.value)
  {
    if i + |Prefix| <= |s| && s[i..i + |Prefix|] == Prefix then
      var g := i + |Prefix|;
      match GroupEnd(s, g)
      case Some(c) => GroupIsVersion(s, g); Some(s[g..c])
      case None => None
    else None
  }

  /** The three digit runs found by the group join, with dots, into a version. */
  lemma GroupIsVersion(s: string, i: nat)
    requires i <= |s| && GroupEnd(s, i).Some?
    ensures IsVersion(s[i..GroupEnd(s, i).value])
  {
    var a := DigitsEnd(s, i);
    var b := DigitsEnd(s, a + 1);
    var c := DigitsEnd(s, b + 1);
    var parts := [s[i..a], s[a + 1..b], s[b + 1..c]];
    forall k | 0 <= k < 3 ensures '.' !in parts[k] && IsNumber(parts[k]) {
      assert forall m :: 0 <= m < |parts[k]| ==> IsDigit(parts[k][m]);
    }
    assert Join(parts, ".") == s[i..c] by {
      assert Join(parts[2..], ".") == s[b + 1..c];
      assert s[a + 1..c] == s[a + 1..b] + "." + s[b + 1..c];
      assert s[i..c] == s[i..a] + "." + s[a + 1..c];
    }
    SplitJoin(parts, '.');
  }

  /** The leftmost position at or after i where the pattern matches. */
  function FirstMatch(s: string, i: nat): (r: Option<nat>)
    requires i <= |s|
    ensures r.Some? ==> i <= r.value <= |s| && VersionAt(s, r.value).Some?
    ensures forall k :: i <= k <= |s| && (r.None? || k < r.value) ==> VersionAt(s, k).None?
    decreases |s| - i
  {
    if VersionAt(s, i).Some? then Some(i)
    else if i == |s| then None
    else FirstMatch(s, i + 1)
  }

  /** `Regex.Match(output, "Python (\d+\.\d+\.\d+)")`: the first group of the leftmost match. */
  function MatchVersion(output: string): (r: Option<string>)
    ensures r.Some? ==> IsVersion(r.value)
    ensures r.None? <==> forall k :: 0 <= k <= |output| ==> VersionAt(output, k).None?
    ensures r.Some? ==> FirstMatch(output, 0).Some? && r == VersionAt(output, FirstMatch(output, 0).value)
  {
    match FirstMatch(output, 0)
    case Some(p) => VersionAt(output, p)
    case None => None
  }

  /** Whatever precedes it, the version of the leftmost match is the one reported. */
  lemma LeftmostMatch(output: string, k: nat)
    requires k <= |output| && VersionAt(output, k).Some?
    requires forall j :: 0 <= j < k ==> VersionAt(output, j).None?
    ensures MatchVersion(output) == VersionAt(output, k)
  {
    var f := FirstMatch(output, 0);
    assert f.Some?;
  }

  /**
   * `CheckPythonAsync`: the version from `python --version`. A run that
   * exits with 0 gives the version it names, or its whole trimmed output
   * when it names none; a failed run or a failure to start gives nothing.
   */
  function CheckPython(p: Probe): (r: Option<string>)
    ensures r.Some? <==> p.Ran? && p.exitCode == 0
    ensures r.Some? && MatchVersion(Trim(Output(p.lines))).Some? ==> IsVersion(r.value)
    ensures r.Some? && MatchVersion(Trim(Output(p.lines))).Some? ==> r == MatchVersion(Trim(Output(p.lines)))
    ensures r.Some? && MatchVersion(Trim(Output(p.lines))).None? ==> r.value == Trim(Output(p.lines))
  {
    match p
    case FailedToStart => None
    case Ran(lines, exitCode) =>
      if exitCode != 0 then None
      else
        var output := Trim(Output(lines));
        match MatchVersion(output)
        case Some(v) => Some(v)
        case None => Some(output)
  }

  /** A single output line is trimmed back to itself when it starts and ends with visible characters. */
  lemma TrimLine(line: string)
    requires line != "" && !IsWhite(line[0]) && !IsWhite(line[|line| - 1])
    ensures Trim(Output([line])) == line
  {
    var s := line + NewLine;
    assert Output([line]) == s by {
      assert [line][..0] == [];
    }
    assert SkipWhite(s, 0, DotNetWhite) == 0;
    var n := |s|;
    assert s[n - 1] == '\n' && s[n - 2] == '\r' && s[n - 3] == line[|line| - 1];
    assert SkipWhiteBack(s, 0, n, DotNetWhite) == SkipWhiteBack(s, 0, n - 2, DotNetWhite);
    assert SkipWhiteBack(s, 0, n - 2, DotNetWhite) == n - 2;
    assert s[..n - 2] == line;
  }

  /** A number at i followed by a non-digit (or the end) is one whole run of digits. */
  lemma RunOf(s: string, i: nat, d: string)
    requires IsNumber(d) && i + |d| <= |s| && s[i..i + |d|] == d
    requires i + |d| == |s| || !IsDigit(s[i + |d|])
    ensures DigitsEnd(s, i) == i + |d|
  {
    forall k | i <= k < i + |d| ensures IsDigit(s[k]) {
      assert s[k] == d[k - i];
    }
  }

  /** The group matches three numbers joined by dots that end the string. */
  lemma GroupOfVersion(s: string, g: nat, x: string, y: string, z: string)
    requires IsNumber(x) && IsNumber(y) && IsNumber(z)
    requires g + |x| + 1 + |y| + 1 + |z| == |s|
    requires s[g..g + |x|] == x && s[g + |x|] == '.'
    requires s[g + |x| + 1..g + |x| + 1 + |y|] == y && s[g + |x| + 1 + |y|] == '.'
    requires s[g + |x| + 1 + |y| + 1..] == z
    ensures GroupEnd(s, g) == Some(|s|)
  {
    var b := g + |x| + 1 + |y|;
    RunOf(s, g, x);
    RunOf(s, g + |x| + 1, y);
    assert s[b + 1..b + 1 + |z|] == z;
    RunOf(s, b + 1, z);
  }

  /** The pieces of "x.y.z": the three numbers and the two dots between them. */
  lemma VersionPieces(x: string, y: string, z: string)
    ensures var v := x + "." + y + "." + z;
      && |v| == |x| + 1 + |y| + 1 + |z|
      && v[..|x|] == x && v[|x|] == '.'
      && v[|x| + 1..|x| + 1 + |y|] == y && v[|x| + 1 + |y|] == '.'
      && v[|x| + 1 + |y| + 1..] == z
  {
  }

  /** After any prefix p, "x.y.z" splits into its three numbers and two dots at the offsets GroupOfVersion expects. */
  lemma PiecesAfter(p: string, x: string, y: string, z: string)
    ensures var s := p + (x + "." + y + "." + z);
      var g := |p|;
      && g + |x| + 1 + |y| + 1 + |z| == |s|
      && s[g..g + |x|] == x && s[g + |x|] == '.'
      && s[g + |x| + 1..g + |x| + 1 + |y|] == y && s[g + |x| + 1 + |y|] == '.'
      && s[g + |x| + 1 + |y| + 1..] == z
      && s[g..] == x + "." + y + "." + z
  {
    var v := x + "." + y + "." + z;
    var s := p + v;
    var g := |p|;
    VersionPieces(x, y, z);
    assert s[g..] == v;
    assert s[g..g + |x|] == v[..|x|];
    assert s[g + |x| + 1..g + |x| + 1 + |y|] == v[|x| + 1..|x| + 1 + |y|];
    assert s[g + |x| + 1 + |y| + 1..] == v[|x| + 1 + |y| + 1..];
  }

  /** In the line "Python x.y.z" the pattern matches at the start and captures "x.y.z". */
  lemma VersionLineMatches(x: string, y: string, z: string)
    requires IsNumber(x) && IsNumber(y) && IsNumber(z)
    ensures VersionAt(Prefix + (x + "." + y + "." + z), 0) == Some(x + "." + y + "." + z)
  {
    var line := Prefix + (x + "." + y + "." + z);
    assert line[0..0 + |Prefix|] == Prefix;
    PiecesAfter(Prefix, x, y, z);
    GroupOfVersion(line, |Prefix|, x, y, z);
    assert line[|Prefix|..|line|] == line[|Prefix|..];
  }

  /** The line "Python x.y.z" starts and ends with a visible character. */
  lemma VersionLineVisible(x: string, y: string, z: string)
    requires IsNumber(z)
    ensures var line := Prefix + (x + "." + y + "." + z);
      line != "" && !IsWhite(line[0]) && !IsWhite(line[|line| - 1])
  {
    var line := Prefix + (x + "." + y + "." + z);
    assert line[0] == Prefix[0] == 'P';
    assert line[|line| - 1] == z[|z| - 1];
  }

  /** The usual answer, one line "Python X.Y.Z", gives the version X.Y.Z. */
  lemma ReportedVersion(x: string, y: string, z: string)
    requires IsNumber(x) && IsNumber(y) && IsNumber(z)
    ensures CheckPython(Ran([Prefix + (x + "." + y + "." + z)], 0)) == Some(x + "." + y + "." + z)
  {
    var line := Prefix + (x + "." + y + "." + z);
    VersionLineVisible(x, y, z);
    TrimLine(line);
    VersionLineMatches(x, y, z);
    var v := x + "." + y + "." + z;
    assert FirstMatch(line, 0) == Some(0);
    assert MatchVersion(line) == Some(v);
    var p := Ran([line], 0);
    assert Trim(Output(p.lines)) == line;
  }

  const WhisperMarker: string := "Whisper installed"
  const CudaMarker: string := "CUDA available: True"

  /** `CheckWhisperInstalledAsync`: the import probe exited with 0 and printed the marker. */
  function CheckWhisper(p: Probe): (r: bool)
    ensures r ==> p.Ran? && p.exitCode == 0
  {
    p.Ran? && p.exitCode == 0 && Contains(Output(p.lines), WhisperMarker)
  }

  /** `CheckPyTorchCudaAsync`: the PyTorch probe exited with 0 and reported CUDA as available. */
  function CheckCuda(p: Probe): (r: bool)
    ensures r ==> p.Ran? && p.exitCode == 0
  {
    p.Ran? && p.exitCode == 0 && Contains(Output(p.lines), CudaMarker)
  }

  lemma ContainsWithin(s: string, mid: string, sub: string)
    requires Contains(s, mid) && Contains(mid, sub)
    ensures Contains(s, sub)
  {
    var i :| 0 <= i <= |s| - |mid| && OccursAt(s, mid, i);
    var j :| 0 <= j <= |mid| - |sub| && OccursAt(mid, sub, j);
    assert s[i..i + |mid|] == mid && mid[j..j + |sub|] == sub;
    forall m | 0 <= m < |sub| ensures s[i + j + m] == sub[m] {
      assert s[i + j + m] == mid[j + m];
    }
    assert s[i + j..i + j + |sub|] == sub;
    assert OccursAt(s, sub, i + j);
  }

  /** A marker on any one output line is found in the collected output. */
  lemma MarkerOnLine(lines: seq<string>, k: nat, marker: string)
    requires k < |lines| && Contains(lines[k], marker)
    ensures Contains(Output(lines), marker)
  {
    AppendLinesContains(lines, NewLine, k);
    ContainsInAppend(lines[k], marker, NewLine);
    ContainsWithin(Output(lines), lines[k] + NewLine, marker);
  }

  /** A probe that exits with 0 and prints its marker on some line is a positive answer. */
  lemma MarkersDetected(lines: seq<string>, k: nat)
    requires k < |lines|
    ensures Contains(lines[k], WhisperMarker) ==> CheckWhisper(Ran(lines, 0))
    ensures Contains(lines[k], CudaMarker) ==> CheckCuda(Ran(lines, 0))
  {
    if Contains(lines[k], WhisperMarker) { MarkerOnLine(lines, k, WhisperMarker); }
    if Contains(lines[k], CudaMarker) { MarkerOnLine(lines, k, CudaMarker); }
  }

  /** The lines of the summary, one constructor per kind of line. */
  datatype SummaryLine =
    | Heading
    | PythonLine(installed: bool)
    | VersionLine(version: string)
    | WhisperLine(installed: bool)
    | CudaLine(available: bool)
    | InstallPython
    | InstallWhisper
    | PipCommand

  function YesNo(b: bool): string
  {
    if b then "Tak" else "Nie"
  }

  function LineText(l: SummaryLine): string
  {
    match l
    case Heading => "Wyniki sprawdzania wymagań systemowych:"
    case PythonLine(b) => "Python zainstalowany: " + YesNo(b)
    case VersionLine(v) => "Wersja Python: " + v
    case WhisperLine(b) => "Whisper zainstalowany: " + YesNo(b)
    case CudaLine(b) => "Dostępne przyspieszenie GPU (CUDA): " + YesNo(b)
    case InstallPython => "\nAby kontynuować, zainstaluj Python: https://www.python.org/downloads/"
    case InstallWhisper => "\nAby kontynuować, zainstaluj Whisper:"
    case PipCommand => "pip install openai-whisper"
  }

  /** The texts of the lines, in order. */
  function Texts(lines: seq<SummaryLine>): (r: seq<string>)
    ensures |r| == |lines| && forall k :: 0 <= k < |lines| ==> r[k] == LineText(lines[k])
  {
    if |lines| == 0 then [] else Texts(lines[..|lines| - 1]) + [LineText(lines[|lines| - 1])]
  }

  /** The summary text: each line appended in turn. */
  function SummaryText(lines: seq<SummaryLine>): string
  {
    AppendLines(Texts(lines), NewLine)
  }

  /**
   * The lines `GetSummary` writes for a result: the heading and the three
   * answers always, the version only for an installed Python that reported
   * one, the Python hint when Python is missing, and the Whisper hint with
   * its pip command when Python is there but Whisper is not.
   */
  function SummaryLines(installed: bool, version: Option<string>, whisper: bool, cuda: bool): seq<SummaryLine>
  {
    PythonPart(installed, version) + [WhisperLine(whisper), CudaLine(cuda)] + HintPart(installed, whisper)
  }

  /** The heading, the Python answer and, for an installed Python that reported one, its version. */
  function PythonPart(installed: bool, version: Option<string>): seq<SummaryLine>
  {
    [Heading, PythonLine(installed)] + (if installed && version.Some? then [VersionLine(version.value)] else [])
  }

  /** The installation hints: for Python when it is missing, for Whisper when only Whisper is. */
  function HintPart(installed: bool, whisper: bool): seq<SummaryLine>
  {
    (if !installed then [InstallPython] else []) + (if installed && !whisper then [InstallWhisper, PipCommand] else [])
  }

  /** Which lines the summary holds, in terms of the answers. */
  lemma SummaryContents(installed: bool, version: Option<string>, whisper: bool, cuda: bool)
    ensures var r := SummaryLines(installed, version, whisper, cuda);
      && 4 <= |r| <= 7 && r[0] == Heading && r[1] == PythonLine(installed)
      && WhisperLine(whisper) in r && CudaLine(cuda) in r
      && (forall v :: VersionLine(v) in r <==> installed && version == Some(v))
      && (InstallPython in r <==> !installed)
      && (InstallWhisper in r <==> installed && !whisper)
      && (PipCommand in r <==> installed && !whisper)
  {
  }

  /** Appending one more line extends the text by that line and a line break. */
  lemma Appended(lines: seq<SummaryLine>, l: SummaryLine)
    ensures SummaryText(lines + [l]) == SummaryText(lines) + LineText(l) + NewLine
  {
    var t := Texts(lines + [l]);
    assert t[..|t| - 1] == Texts(lines);
  }

  /** Every line of the summary can be found, with its line break, in the summary text. */
  lemma LineShown(lines: seq<SummaryLine>, l: SummaryLine)
    requires l in lines
    ensures Contains(SummaryText(lines), LineText(l) + NewLine)
  {
    var k :| 0 <= k < |lines| && lines[k] == l;
    AppendLinesContains(Texts(lines), NewLine, k);
  }

  /** `RequirementsCheckResult`: the answers of the probes, filled in one by one. */
  class RequirementsCheckResult {
    var isPythonInstalled: bool
    var pythonVersion: Option<string>
    var isWhisperInstalled: bool
    var isCudaAvailable: bool

    constructor ()
      ensures !isPythonInstalled && pythonVersion.None? && !isWhisperInstalled && !isCudaAvailable
    {
      isPythonInstalled := false;
      pythonVersion := None;
      isWhisperInstalled := false;
      isCudaAvailable := false;
    }

    function Summary(): seq<SummaryLine>
      reads this
    {
      SummaryLines(isPythonInstalled, pythonVersion, isWhisperInstalled, isCudaAvailable)
    }

    /**
     * `GetSummary`: each line is appended in turn to a string builder, here
     * the sequence of appended lines, whose text is produced at the end.
     */
    method GetSummary() returns (summary: string)
      ensures summary == SummaryText(Summary())
    {
      var builder: seq<SummaryLine> := [];
      builder := builder + [Heading];
      builder := builder + [PythonLine(isPythonInstalled)];
      if isPythonInstalled && pythonVersion.Some? {
        builder := builder + [VersionLine(pythonVersion.value)];
      }
      builder := builder + [WhisperLine(isWhisperInstalled)];
      builder := builder + [CudaLine(isCudaAvailable)];
      if !isPythonInstalled {
        builder := builder + [InstallPython];
      }
      if isPythonInstalled && !isWhisperInstalled {
        builder := builder + [InstallWhisper];
        builder := builder + [PipCommand];
      }
      assert builder == Summary();
      summary := SummaryText(builder);
    }
  }

  /**
   * `CheckAllRequirementsAsync`: Python first; Whisper and CUDA are asked
   * about only when Python answered, and stay false otherwise.
   */
  method CheckAllRequirements(python: Probe, whisper: Probe, torch: Probe) returns (result: RequirementsCheckResult)
    ensures fresh(result)
    ensures result.pythonVersion == CheckPython(python)
    ensures result.isPythonInstalled <==> python.Ran? && python.exitCode == 0
    ensures result.isWhisperInstalled <==> result.isPythonInstalled && CheckWhisper(whisper)
    ensures result.isCudaAvailable <==> result.isPythonInstalled && CheckCuda(torch)
  {
    result := new RequirementsCheckResult();
    var version := CheckPython(python);
    assert version.Some? <==> python.Ran? && python.exitCode == 0;
    result.pythonVersion := version;
    result.isPythonInstalled := version.Some?;
    if version.Some? {
      var whisperFound := CheckWhisper(whisper);
      result.isWhisperInstalled := whisperFound;
      var cudaFound := CheckCuda(torch);
      result.isCudaAvailable := cudaFound;
    }
  }

  /** `MeetsMinimumRequirements`: transcription needs Python and Whisper; CUDA is optional. */
  predicate MeetsMinimumRequirements(result: RequirementsCheckResult)
    reads result
  {
    result.isPythonInstalled && result.isWhisperInstalled
  }

  /** The summary shows an installation hint exactly when the minimum requirements are not met. */
  lemma HintIffUnmet(result: RequirementsCheckResult)
    ensures (InstallPython in result.Summary() || InstallWhisper in result.Summary())
            <==> !MeetsMinimumRequirements(result)
  {
    SummaryContents(result.isPythonInstalled, result.pythonVersion, result.isWhisperInstalled, result.isCudaAvailable);
  }

  /** After a full check, the summary names a version exactly when Python answered. */
  lemma CheckedVersionShown(python: Probe, result: RequirementsCheckResult)
    requires result.pythonVersion == CheckPython(python)
    requires result.isPythonInstalled <==> python.Ran? && python.exitCode == 0
    ensures CheckPython(python).Some? ==> VersionLine(CheckPython(python).value) in result.Summary()
    ensures CheckPython(python).None? ==> forall v :: VersionLine(v) !in result.Summary()
  {
    SummaryContents(result.isPythonInstalled, result.pythonVersion, result.isWhisperInstalled, result.isCudaAvailable);
  }
}
