/**
 * Starting the Obsidian note-taking application: finding its executable
 * among the usual install locations and then the PATH directories, and
 * waiting a bounded time for its process to appear after launching it.
 *
 * The file system is the set of files that exist, the special folders and
 * the PATH variable are parameters, and the process table is a sequence of
 * observations: `running(k)` is what the k-th look for a process named
 * "Obsidian" saw.
 */
module Obsidian {
  import opened Wrappers
  import opened Text
  import opened Paths

  const ExecutableName: string := "Obsidian.exe"

  /** Windows' path list separator. */
  const PathSeparator: char := ';'

  /** The maximal number of 100 ms waits for the process after launching it. */
  const MaxAttempts: nat := 20

  /** The special folders the install locations are built from. */
  datatype SpecialFolders = SpecialFolders(
    localAppData: string, appData: string, userProfile: string, programFiles: string, programFilesX86: string)

  /** `Path.Combine(dir, parts...)`: the parts joined onto `dir` one after another. */
  function Under(dir: string, parts: seq<string>): string
    decreases |parts|
  {
    if |parts| == 0 then dir else Under(Combine(dir, parts[0]), parts[1..])
  }

  /** `PossibleObsidianPaths`, in the order they are tried. */
  function PossiblePaths(f: SpecialFolders): (r: seq<string>)
    ensures |r| == 8
  {
    [ Under(f.localAppData, ["Obsidian", ExecutableName]),
      Under(f.appData, ["Obsidian", ExecutableName]),
      Under(f.userProfile, ["AppData", "Local", "Obsidian", ExecutableName]),
      Under(f.userProfile, ["AppData", "Roaming", "Obsidian", ExecutableName]),
      Under(f.programFiles, ["Obsidian", ExecutableName]),
      Under(f.programFilesX86, ["Obsidian", ExecutableName]),
      "C:\\Program Files\\Obsidian\\Obsidian.exe",
      "C:\\Program Files (x86)\\Obsidian\\Obsidian.exe" ]
  }

  /** A name that joins as one path component: non-empty, no separator, no drive colon. */
  predicate PlainName(s: string)
  {
    s != "" && forall k :: 0 <= k < |s| ==> !IsSeparator(s[k]) && s[k] != ':'
  }

  lemma PlainNames()
    ensures PlainName("Obsidian") && PlainName(ExecutableName)
    ensures PlainName("AppData") && PlainName("Local") && PlainName("Roaming")
  {
  }

  /** One plain name joined onto a folder is the file name of the result, which ends with it. */
  lemma CombinePlain(dir: string, p: string)
    requires PlainName(p)
    ensures FileName(Combine(dir, p)) == p
  {
    assert !IsSeparator(p[0]);
    assert |p| >= 2 ==> p[1] != ':';
    assert !HasSeparator(p);
    CombineSplits(dir, p);
  }

  /** Joining plain names onto a folder ends with the last name as the file name. */
  lemma {:induction false} UnderNames(dir: string, parts: seq<string>)
    requires |parts| > 0 && forall k :: 0 <= k < |parts| ==> PlainName(parts[k])
    ensures FileName(Under(dir, parts)) == parts[|parts| - 1]
    decreases |parts|
  {
    CombinePlain(dir, parts[0]);
    if |parts| > 1 {
      var rest := parts[1..];
      assert forall k :: 0 <= k < |rest| ==> rest[k] == parts[k + 1];
      UnderNames(Combine(dir, parts[0]), rest);
      assert rest[|rest| - 1] == parts[|parts| - 1];
    }
  }

  /** `folder\Obsidian\Obsidian.exe` names the executable. */
  lemma InstallFolderNamesExecutable(dir: string)
    ensures FileName(Under(dir, ["Obsidian", ExecutableName])) == ExecutableName
  {
    PlainNames();
    UnderNames(dir, ["Obsidian", ExecutableName]);
  }

  /** `profile\AppData\<sub>\Obsidian\Obsidian.exe` names the executable. */
  lemma ProfileFolderNamesExecutable(dir: string, sub: string)
    requires PlainName(sub)
    ensures FileName(Under(dir, ["AppData", sub, "Obsidian", ExecutableName])) == ExecutableName
  {
    PlainNames();
    UnderNames(dir, ["AppData", sub, "Obsidian", ExecutableName]);
  }

  /** `File.Exists`: false for the empty path, otherwise whether the file is there. */
  predicate Exists(p: string, files: set<string>)
  {
    p != "" && p in files
  }

  /** The executable in each PATH directory, in order; an empty PATH is not searched. */
  function PathCandidates(pathVariable: string): (r: seq<string>)
    ensures pathVariable == "" ==> r == []
    ensures pathVariable != "" ==> |r| == |Split(pathVariable, PathSeparator)|
  {
    if pathVariable == "" then []
    else
      var dirs := Split(pathVariable, PathSeparator);
      seq(|dirs|, k requires 0 <= k < |dirs| => Combine(dirs[k], ExecutableName))
  }

  /** The first index at or after i whose path exists. */
  function FirstExisting(paths: seq<string>, files: set<string>, i: nat): (r: Option<nat>)
    requires i <= |paths|
    ensures r.Some? ==> i <= r.value < |paths| && Exists(paths[r.value], files)
    ensures forall k :: i <= k < |paths| && (r.None? || k < r.value) ==> !Exists(paths[k], files)
    decreases |paths| - i
  {
    if i == |paths| then None
    else if Exists(paths[i], files) then Some(i)
    else FirstExisting(paths, files, i + 1)
  }

  /** Where the executable is looked for, in order: the install locations, then the PATH candidates. */
  function SearchOrder(candidates: seq<string>, pathVariable: string): seq<string>
  {
    candidates + PathCandidates(pathVariable)
  }

  /** What the search finds: the first existing path in the search order, or "" when none exists. */
  function Located(candidates: seq<string>, pathVariable: string, files: set<string>): (r: string)
    ensures var all := SearchOrder(candidates, pathVariable);
      && (r == "" <==> forall k :: 0 <= k < |all| ==> !Exists(all[k], files))
      && (r != "" ==> Exists(r, files))
  {
    var all := SearchOrder(candidates, pathVariable);
    match FirstExisting(all, files, 0)
    case Some(i) => all[i]
    case None => ""
  }

  /** The path at index i of the search order is found when it exists and nothing before it does. */
  lemma LocatedAt(candidates: seq<string>, pathVariable: string, files: set<string>, i: nat)
    requires var all := SearchOrder(candidates, pathVariable);
      i < |all| && Exists(all[i], files) && forall j :: 0 <= j < i ==> !Exists(all[j], files)
    ensures Located(candidates, pathVariable, files) == SearchOrder(candidates, pathVariable)[i]
  {
    var all := SearchOrder(candidates, pathVariable);
    var r := FirstExisting(all, files, 0);
    assert r.Some? && r.value == i;
  }

  /** An existing install location wins over every PATH directory and every later location. */
  lemma KnownLocationFirst(candidates: seq<string>, pathVariable: string, files: set<string>, i: nat)
    requires i < |candidates| && Exists(candidates[i], files)
    requires forall j :: 0 <= j < i ==> !Exists(candidates[j], files)
    ensures Located(candidates, pathVariable, files) == candidates[i]
  {
    var all := SearchOrder(candidates, pathVariable);
    assert forall j :: 0 <= j <= i ==> all[j] == candidates[j];
    LocatedAt(candidates, pathVariable, files, i);
  }

  /** When no install location exists, the first existing PATH candidate is found. */
  lemma PathAfterLocations(candidates: seq<string>, pathVariable: string, files: set<string>, i: nat)
    requires forall j :: 0 <= j < |candidates| ==> !Exists(candidates[j], files)
    requires var found := PathCandidates(pathVariable);
      i < |found| && Exists(found[i], files) && forall j :: 0 <= j < i ==> !Exists(found[j], files)
    ensures Located(candidates, pathVariable, files) == PathCandidates(pathVariable)[i]
  {
    var all := SearchOrder(candidates, pathVariable);
    var found := PathCandidates(pathVariable);
    var n := |candidates|;
    assert forall j :: 0 <= j < n ==> all[j] == candidates[j];
    assert forall j :: n <= j <= n + i ==> all[j] == found[j - n];
    LocatedAt(candidates, pathVariable, files, n + i);
  }

  /** With no install location and no PATH candidate present, nothing is found. */
  lemma NothingLocated(candidates: seq<string>, pathVariable: string, files: set<string>)
    requires forall j :: 0 <= j < |candidates| ==> !Exists(candidates[j], files)
    requires var found := PathCandidates(pathVariable);
      forall j :: 0 <= j < |found| ==> !Exists(found[j], files)
    ensures Located(candidates, pathVariable, files) == ""
  {
    var all := SearchOrder(candidates, pathVariable);
    var found := PathCandidates(pathVariable);
    var n := |candidates|;
    forall k | 0 <= k < |all| ensures !Exists(all[k], files) {
      if k < n { assert all[k] == candidates[k]; } else { assert all[k] == found[k - n]; }
    }
  }

  /**
   * `FindObsidianExecutable`: the install locations in order, then, when
   * PATH is not empty, `Obsidian.exe` in each of its directories in order;
   * the first that exists is returned, and "" when none does.
   */
  method FindObsidianExecutable(candidates: seq<string>, pathVariable: string, files: set<string>)
    returns (path: string)
    ensures path == Located(candidates, pathVariable, files)
  {
    for i := 0 to |candidates|
      invariant forall j :: 0 <= j < i ==> !Exists(candidates[j], files)
    {
      if Exists(candidates[i], files) {
        KnownLocationFirst(candidates, pathVariable, files, i);
        return candidates[i];
      }
    }
    ghost var found := PathCandidates(pathVariable);
    if pathVariable != "" {
      var dirs := Split(pathVariable, PathSeparator);
      for i := 0 to |dirs|
        invariant forall j :: 0 <= j < i ==> !Exists(found[j], files)
      {
        var fullPath := Combine(dirs[i], ExecutableName);
        assert fullPath == found[i];
        if Exists(fullPath, files) {
          PathAfterLocations(candidates, pathVariable, files, i);
          return fullPath;
        }
      }
    }
    NothingLocated(candidates, pathVariable, files);
    path := "";
  }

  /**
   * The index of the look after the waiting loop, when the loop's look
   * number `call` comes after `attempts` waits: the loop stops at the first
   * look that sees the process or after the last allowed wait.
   */
  function PollEnd(running: nat -> bool, call: nat, attempts: nat): (r: nat)
    requires attempts <= MaxAttempts
    ensures call < r <= call + MaxAttempts - attempts + 1
    ensures running(r - 1) || r - 1 == call + MaxAttempts - attempts
    ensures forall k :: call <= k < r - 1 ==> !running(k)
    decreases MaxAttempts - attempts
  {
    if running(call) || attempts == MaxAttempts then call + 1
    else PollEnd(running, call + 1, attempts + 1)
  }

  /** The outcome of `StartAppAsync`, with what it did on the way. */
  datatype Start = Start(ok: bool, launched: bool, waitedMs: nat)

  /**
   * `StartAppAsync`: true at once when Obsidian already runs; false without
   * launching when no executable is found or when starting it fails;
   * otherwise it launches, looks again every 100 ms at most `MaxAttempts`
   * times, and reports whether the process is there at the final look
   * (after which it waits another 500 ms).
   */
  method StartApp(running: nat -> bool, folders: SpecialFolders, pathVariable: string, files: set<string>, startFails: bool)
    returns (s: Start)
    ensures running(0) ==> s == Start(true, false, 0)
    ensures !running(0) && Located(PossiblePaths(folders), pathVariable, files) == "" ==> s == Start(false, false, 0)
    ensures s.launched <==> !running(0) && Located(PossiblePaths(folders), pathVariable, files) != "" && !startFails
    ensures !running(0) && !s.launched ==> !s.ok && s.waitedMs == 0
    ensures s.launched ==> s.ok == running(PollEnd(running, 1, 0))
    ensures s.launched ==> s.waitedMs == 100 * (PollEnd(running, 1, 0) - 2) + (if s.ok then 500 else 0)
    ensures s.waitedMs <= 100 * MaxAttempts + 500
  {
    if running(0) {
      return Start(true, false, 0);
    }
    var path := FindObsidianExecutable(PossiblePaths(folders), pathVariable, files);
    if path == "" {
      return Start(false, false, 0);
    }
    if startFails {
      return Start(false, false, 0);
    }
    var attempts := 0;
    var call := 1;
    var up := running(call);
    call := call + 1;
    while !up && attempts < MaxAttempts
      invariant 0 <= attempts <= MaxAttempts && call == attempts + 2
      invariant up == running(call - 1)
      invariant PollEnd(running, call - 1, attempts) == PollEnd(running, 1, 0)
      decreases MaxAttempts - attempts
    {
      attempts := attempts + 1;
      up := running(call);
      call := call + 1;
    }
    var ok := running(call);
    s := Start(ok, true, 100 * attempts + (if ok then 500 else 0));
  }

  /** A process that stays up once it is up. */
  ghost predicate StaysUp(running: nat -> bool)
  {
    forall i: nat :: running(i) ==> running(i + 1)
  }

  /**
   * If Obsidian comes up at any look within the waiting window and stays
   * up, the final look sees it.
   */
  lemma ComesUpInTime(running: nat -> bool, j: nat)
    requires StaysUp(running) && 1 <= j <= MaxAttempts + 1 && running(j)
    ensures running(PollEnd(running, 1, 0))
  {
    var e := PollEnd(running, 1, 0) - 1;
    assert running(e);
  }

  /** If Obsidian never shows up during the window, launching it is reported as a failure. */
  lemma NeverUpFails(running: nat -> bool)
    requires forall k :: 1 <= k <= MaxAttempts + 2 ==> !running(k)
    ensures !running(PollEnd(running, 1, 0))
  {
  }
}
