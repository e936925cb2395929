/** The pre-generation hook: before any file is written, the module name and
    the package (repository) name chosen for the new project are checked
    against two regular expressions, module name first; the first failure
    prints a diagnostic and exits with status 1. */
module PreGen {
  import opened PyText

  datatype NameKind = ModuleName | PackageName

  /** The class after the first letter: `[_a-zA-Z0-9]` in MODULE_REGEX,
      `[-a-zA-Z0-9]` in PACKAGE_REGEX. */
  predicate InTailClass(kind: NameKind, c: char) {
    IsAsciiLetter(c) || IsAsciiDigit(c) || c == (if kind == ModuleName then '_' else '-')
  }

  /** Where the greedy run of tail-class characters that starts at `i` stops. */
  function RunEnd(kind: NameKind, s: string, i: nat): (j: nat)
    requires i <= |s|
    ensures i <= j <= |s|
    ensures forall k :: i <= k < j ==> InTailClass(kind, s[k])
    ensures j < |s| ==> !InTailClass(kind, s[j])
    decreases |s| - i
  {
    if i < |s| && InTailClass(kind, s[i]) then RunEnd(kind, s, i + 1) else i
  }

  /** `re.match(REGEX, s)` succeeds, REGEX being `^[a-zA-Z][<tail>]+$`: a
      letter, a greedy run of at least one tail-class character, then `$`.
      Giving back characters of the run cannot help `$`, since no tail-class
      character is a newline, so the greedy end is the only place to try. */
  predicate Matches(kind: NameKind, s: string) {
    |s| >= 2 && IsAsciiLetter(s[0]) && RunEnd(kind, s, 1) >= 2 && DollarAt(s, RunEnd(kind, s, 1))
  }

  /** The naming rule the regular expression expresses: a letter, then at
      least one more character, every later one from the tail class. */
  predicate WellFormed(kind: NameKind, name: string) {
    |name| >= 2 && IsAsciiLetter(name[0])
    && forall i :: 1 <= i < |name| ==> InTailClass(kind, name[i])
  }

  /** A name is accepted iff it is well formed, or it is a well-formed name
      followed by one newline (what Python's `$` lets through). */
  lemma MatchesIffWellFormed(kind: NameKind, s: string)
    ensures Matches(kind, s) <==>
      WellFormed(kind, s) || (|s| >= 1 && s[|s| - 1] == '\n' && WellFormed(kind, s[..|s| - 1]))
  {
    if |s| >= 2 && IsAsciiLetter(s[0]) {
      var j := RunEnd(kind, s, 1);
      if WellFormed(kind, s) {
        assert j == |s|;
      } else if |s| >= 1 && s[|s| - 1] == '\n' && WellFormed(kind, s[..|s| - 1]) {
        var name := s[..|s| - 1];
        assert forall k :: 1 <= k < |s| - 1 ==> InTailClass(kind, name[k]);
        assert j == |s| - 1;
      }
    }
  }

  /** A one-character name is rejected by both checks: `+` needs a second
      character. */
  lemma SingleCharacterRejected(kind: NameKind, c: char)
    ensures !Matches(kind, [c])
  {
  }

  /** An underscore is refused in a package name and a hyphen in a module
      name, wherever it stands. */
  lemma WrongSeparatorRejected(name: string, i: nat)
    requires i < |name|
    ensures name[i] == '_' ==> !WellFormed(PackageName, name)
    ensures name[i] == '-' ==> !WellFormed(ModuleName, name)
  {
  }

  function ModuleError(name: string): string {
    "ERROR: " + name + " is not a valid Python module name!"
  }

  function PackageError(name: string): string {
    "ERROR: " + name + " is not a valid Python package name!"
    + " Note: we require package names to use hyphens instead of underscores"
  }

  /** What the hook did: which checks it evaluated, in order, what it printed,
      and the status it forced with `sys.exit` (None: it ran to its end). */
  datatype Report = Report(checked: seq<NameKind>, printed: seq<string>, exit: Option<nat>)

  /** The hook on the rendered module and package names. */
  function Validate(moduleName: string, packageName: string): (r: Report)
    ensures |r.checked| >= 1 && r.checked[0] == ModuleName
    ensures PackageName in r.checked <==> Matches(ModuleName, moduleName)
    ensures r.exit == None <==> Matches(ModuleName, moduleName) && Matches(PackageName, packageName)
    ensures r.exit == None <==> r.printed == []
    ensures r.exit != None ==> r.exit == Some(1) && |r.printed| == 1
    ensures !Matches(ModuleName, moduleName) ==> r.printed == [ModuleError(moduleName)]
    ensures Matches(ModuleName, moduleName) && !Matches(PackageName, packageName) ==>
      r.printed == [PackageError(packageName)]
  {
    if !Matches(ModuleName, moduleName) then
      Report([ModuleName], [ModuleError(moduleName)], Some(1))
    else if !Matches(PackageName, packageName) then
      Report([ModuleName, PackageName], [PackageError(packageName)], Some(1))
    else
      Report([ModuleName, PackageName], [], None)
  }

  /** The hook passes, silently, exactly when both names follow their rule
      (each possibly followed by a single newline). */
  lemma ValidatePassesIffWellFormed(moduleName: string, packageName: string)
    ensures Validate(moduleName, packageName) == Report([ModuleName, PackageName], [], None) <==>
      (WellFormed(ModuleName, moduleName)
       || (|moduleName| >= 1 && moduleName[|moduleName| - 1] == '\n'
           && WellFormed(ModuleName, moduleName[..|moduleName| - 1])))
      && (WellFormed(PackageName, packageName)
       || (|packageName| >= 1 && packageName[|packageName| - 1] == '\n'
           && WellFormed(PackageName, packageName[..|packageName| - 1])))
  {
    MatchesIffWellFormed(ModuleName, moduleName);
    MatchesIffWellFormed(PackageName, packageName);
  }

  /** Worked cases: `my_app` and `my-app` pass; `my_pkg` is not a package
      name; `my-app` is not a module name; a leading digit is refused. */
  lemma Examples()
    ensures Validate("my_app", "my-app") == Report([ModuleName, PackageName], [], None)
    ensures Validate("my_app", "my_pkg") ==
      Report([ModuleName, PackageName], [PackageError("my_pkg")], Some(1))
    ensures Validate("my-app", "my-app") == Report([ModuleName], [ModuleError("my-app")], Some(1))
    ensures Validate("1app", "app").exit == Some(1)
  {
    assert Matches(ModuleName, "my_app") by { MatchesIffWellFormed(ModuleName, "my_app"); }
    assert Matches(PackageName, "my-app") by { MatchesIffWellFormed(PackageName, "my-app"); }
    assert !Matches(PackageName, "my_pkg") by {
      MatchesIffWellFormed(PackageName, "my_pkg");
      WrongSeparatorRejected("my_pkg", 2);
    }
    assert !Matches(ModuleName, "my-app") by {
      MatchesIffWellFormed(ModuleName, "my-app");
      WrongSeparatorRejected("my-app", 2);
    }
  }
}
