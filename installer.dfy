// The runtime package installer (python/utils/runtime_installer.py): the
// map of packages known to be installed, the decision of
// ensure_package_installed, the parser of the runtime requirements file and
// the bulk install. pip runs and import tests are outcomes given as
// parameters.
module Installer {
  import opened Wrappers
  import opened Text

  // ---------------------------------------------------------------- requirements file

  /** `sub` occurs in `s` at offset j. */
  predicate OccursAt(s: string, sub: string, j: nat) {
    j + |sub| <= |s| && s[j..j + |sub|] == sub
  }

  lemma OccursShift(s: string, sub: string, j: nat)
    requires |s| > 0
    ensures OccursAt(s, sub, j + 1) <==> OccursAt(s[1..], sub, j)
  {
    if j + 1 + |sub| <= |s| {
      assert s[j + 1..j + 1 + |sub|] == s[1..][j..j + |sub|];
    }
  }

  /** Python's `sub in s` with the offset of the first occurrence, which
      `str.split(sub, 1)` cuts at. */
  function Find(s: string, sub: string): (r: Option<nat>)
    ensures r.Some? ==> r.value + |sub| <= |s|
    decreases |s|
  {
    if |s| < |sub| then None
    else if s[..|sub|] == sub then Some(0)
    else match Find(s[1..], sub)
      case None => None
      case Some(i) => Some(i + 1)
  }

  /** `Find` gives the first occurrence, and None exactly when there is
      none. */
  lemma {:induction false} FindFirst(s: string, sub: string)
    ensures Find(s, sub).Some? ==> OccursAt(s, sub, Find(s, sub).value)
    ensures Find(s, sub).Some? ==> forall j: nat :: j < Find(s, sub).value ==> !OccursAt(s, sub, j)
    ensures Find(s, sub).None? ==> forall j: nat :: !OccursAt(s, sub, j)
    decreases |s|
  {
    if |s| < |sub| {
    } else if s[..|sub|] == sub {
      assert OccursAt(s, sub, 0);
    } else {
      FindFirst(s[1..], sub);
      assert !OccursAt(s, sub, 0);
      forall j: nat
        ensures OccursAt(s, sub, j + 1) <==> OccursAt(s[1..], sub, j)
      {
        OccursShift(s, sub, j);
      }
      forall j: nat | OccursAt(s, sub, j)
        ensures j > 0 && OccursAt(s[1..], sub, j - 1)
      {
        assert j != 0;
        assert OccursAt(s, sub, (j - 1) + 1);
      }
    }
  }

  /** One requirements line: blank and '#' lines give nothing; a line with
      ">=" (tested first) or "==" is split at its first occurrence into a
      stripped name and version joined back by the operator; any other
      line maps to itself. */
  function ParseLine(line: string): (r: Option<(string, string)>)
    ensures r.None? <==> Strip(line) == [] || Strip(line)[0] == '#'
  {
    var l := Strip(line);
    if l == [] || l[0] == '#' then None
    else match Find(l, ">=")
      case Some(i) =>
        var name := Strip(l[..i]);
        Some((name, name + ">=" + Strip(l[i + 2..])))
      case None =>
        match Find(l, "==")
        case Some(i) =>
          var name := Strip(l[..i]);
          Some((name, name + "==" + Strip(l[i + 2..])))
        case None => Some((l, l))
  }

  /** The map after one more line. */
  function AddLine(specs: map<string, string>, line: string): map<string, string> {
    match ParseLine(line)
    case None => specs
    case Some(entry) => specs[entry.0 := entry.1]
  }

  /** The specification map of a file: later lines override earlier ones. */
  function SpecsOf(lines: seq<string>): map<string, string>
    decreases |lines|
  {
    if lines == [] then map[] else AddLine(SpecsOf(lines[..|lines| - 1]), lines[|lines| - 1])
  }

  /** A line without an operator maps its stripped text to itself. */
  lemma PlainLineMapsToItself(line: string)
    requires Strip(line) != [] && Strip(line)[0] != '#'
    requires Find(Strip(line), ">=").None? && Find(Strip(line), "==").None?
    ensures ParseLine(line) == Some((Strip(line), Strip(line)))
  {
  }

  /** Names and specifications come out stripped of white space. */
  lemma {:induction false} SpecsStripped(lines: seq<string>)
    ensures forall n :: n in SpecsOf(lines) ==> Stripped(n)
    decreases |lines|
  {
    if lines != [] {
      SpecsStripped(lines[..|lines| - 1]);
    }
  }

  /** The last line that mentions a name decides its specification, and
      a line that parses to nothing changes nothing. */
  lemma LastLineWins(lines: seq<string>, line: string)
    ensures ParseLine(line).Some? ==> (var e := ParseLine(line).value;
      e.0 in SpecsOf(lines + [line]) && SpecsOf(lines + [line])[e.0] == e.1)
    ensures ParseLine(line).None? ==> SpecsOf(lines + [line]) == SpecsOf(lines)
  {
    SpecsSnoc(lines, line);
    AddLineSets(SpecsOf(lines), line);
  }

  lemma SpecsSnoc(lines: seq<string>, line: string)
    ensures SpecsOf(lines + [line]) == AddLine(SpecsOf(lines), line)
  {
    var all := lines + [line];
    assert all[..|all| - 1] == lines && all[|all| - 1] == line;
  }

  lemma AddLineSets(m: map<string, string>, line: string)
    ensures ParseLine(line).Some? ==> (var e := ParseLine(line).value;
      e.0 in AddLine(m, line) && AddLine(m, line)[e.0] == e.1)
    ensures ParseLine(line).None? ==> AddLine(m, line) == m
  {
  }

  /** _get_package_specs: the line loop over the requirements file; an
      absent file gives an empty map. */
  method GetPackageSpecs(file: Option<seq<string>>) returns (specs: map<string, string>)
    ensures file.None? ==> specs == map[]
    ensures file.Some? ==> specs == SpecsOf(file.value)
  {
    specs := map[];
    if file.None? {
      return;
    }
    var lines := file.value;
    var i := 0;
    while i < |lines|
      invariant 0 <= i <= |lines|
      invariant specs == SpecsOf(lines[..i])
    {
      assert lines[..i + 1] == lines[..i] + [lines[i]];
      SpecsSnoc(lines[..i], lines[i]);
      specs := ApplyLine(specs, lines[i]);
      i := i + 1;
    }
    assert lines[..i] == lines;
  }

  /** The loop body: a parsed line sets its name's specification. */
  method ApplyLine(specs: map<string, string>, line: string) returns (next: map<string, string>)
    ensures next == AddLine(specs, line)
  {
    next := specs;
    var parsed := ParseLine(line);
    if parsed.Some? {
      next := next[parsed.value.0 := parsed.value.1];
    }
  }

  /** The spec _install_package passes to pip: the file's specification of
      the package, or its bare name when there is none (or it is empty). */
  function SpecFor(specs: map<string, string>, name: string): (spec: string)
    ensures name in specs && specs[name] != "" ==> spec == specs[name]
    ensures !(name in specs && specs[name] != "") ==> spec == name
  {
    if name in specs && specs[name] != "" then specs[name] else name
  }

  /** The pip command line; "python" stands for `sys.executable`, the
      interpreter running the backend. */
  function PipInstall(spec: string): seq<string> {
    ["python", "-m", "pip", "install", spec]
  }

  // ---------------------------------------------------------------- installer state

  /** What calling an import test does: succeeds, raises ImportError, or
      raises some other exception. */
  datatype ImportOutcome = Imports | ImportError | OtherError

  /** An import test's outcome before and after the install. */
  datatype ImportTest = ImportTest(before: ImportOutcome, after: ImportOutcome)

  /** When ensure_package_installed succeeds for a package not yet marked:
      the test imports at once, or pip succeeds and then the test imports,
      or pip succeeds and there is no test. */
  predicate EnsureSucceeds(test: Option<ImportTest>, pipOk: bool) {
    (test.Some? && test.value.before.Imports?)
    || (test.Some? && test.value.before.ImportError? && pipOk && test.value.after.Imports?)
    || (test.None? && pipOk)
  }

  const AiPackages: set<string> := {"faster-whisper", "sentence-transformers", "kokoro", "torch", "soundfile", "librosa", "transformers"}

  class RuntimeInstaller {
    var installed: map<string, bool>

    /** Marks are only ever set to True. */
    predicate Valid()
      reads this
    {
      forall p :: p in installed ==> installed[p]
    }

    /** installed_packages starts empty. */
    constructor ()
      ensures installed == map[] && Valid()
    {
      installed := map[];
    }

    /** is_package_installed: the mark, False when absent. */
    predicate IsPackageInstalled(name: string)
      reads this
    {
      name in installed && installed[name]
    }

    /** ensure_package_installed, with the import test, the requirements
        file and pip's success as parameters. A marked package returns True
        at once. A test that imports marks it without an install. Otherwise
        pip runs, and the package is marked exactly when pip succeeds and
        either there is no test or the re-test imports. Any exception other
        than ImportError from a test gives False. */
    method EnsurePackageInstalled(name: string, test: Option<ImportTest>, file: Option<seq<string>>, pipOk: bool)
      returns (ok: bool, pip: Option<seq<string>>)
      requires Valid()
      modifies this
      ensures Valid()
      ensures old(IsPackageInstalled(name)) ==> ok && installed == old(installed) && pip.None?
      ensures !old(IsPackageInstalled(name)) ==> (ok <==> EnsureSucceeds(test, pipOk))
      ensures !old(IsPackageInstalled(name)) ==>
        installed == (if ok then old(installed)[name := true] else old(installed))
      ensures pip.Some? <==> !old(IsPackageInstalled(name)) && (test.None? || test.value.before.ImportError?)
      ensures pip.Some? ==> pip.value == PipInstall(SpecFor(SpecsOf(if file.Some? then file.value else []), name))
    {
      if IsPackageInstalled(name) {
        return true, None;
      }
      if test.Some? {
        match test.value.before {
          case Imports =>
            installed := installed[name := true];
            return true, None;
          case ImportError =>
          case OtherError =>
            return false, None;
        }
      }
      var specs := GetPackageSpecs(file);
      pip := Some(PipInstall(SpecFor(specs, name)));
      var success := pipOk;
      if success && test.Some? {
        match test.value.after {
          case Imports =>
            installed := installed[name := true];
            return true, pip;
          case ImportError =>
            return false, pip;
          case OtherError =>
            return false, pip;
        }
      } else if success {
        installed := installed[name := true];
        return true, pip;
      } else {
        return false, pip;
      }
    }

    /** install_ai_dependencies: on pip's success the seven AI packages are
        marked; on failure nothing changes. */
    method InstallAiDependencies(pipOk: bool) returns (ok: bool)
      requires Valid()
      modifies this
      ensures Valid() && ok == pipOk
      ensures pipOk ==> installed == old(installed) + map p | p in AiPackages :: true
      ensures !pipOk ==> installed == old(installed)
    {
      if pipOk {
        installed := installed + map p | p in AiPackages :: true;
        return true;
      }
      return false;
    }
  }

  /** Marks are monotone: ensure_package_installed marks at most its one
      package ({name} or nothing) and install_ai_dependencies marks the
      seven AI packages or nothing. Either way no mark is removed, and a
      package is installed afterwards iff it was before or it is one of
      those just marked. */
  lemma MarksAreMonotone(before: map<string, bool>, after: map<string, bool>, marked: set<string>)
    requires forall p :: p in before ==> before[p]
    requires after == before + map p | p in marked :: true
    ensures forall p :: p in before && before[p] ==> p in after && after[p]
    ensures forall p :: p in after && after[p] <==> (p in before && before[p]) || p in marked
  {
  }
}
