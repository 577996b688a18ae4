/**
 * Windows path helpers as .NET's `System.IO.Path` applies them to the
 * paths this application builds: both '\' and '/' separate directories,
 * a path may start with a root ("X:\", "X:" or a separator), and joining
 * inserts '\'.
 */
module Paths {

  predicate IsSeparator(c: char)
  {
    c == '\\' || c == '/'
  }

  predicate IsDriveLetter(c: char)
  {
    'A' <= c <= 'Z' || 'a' <= c <= 'z'
  }

  /** The index of the last character of `s` in `chars`, or -1 when there is none. */
  function LastIndexOfAny(s: string, chars: set<char>): (r: int)
    ensures -1 <= r < |s|
    ensures r >= 0 ==> s[r] in chars
    ensures forall k :: r < k < |s| ==> s[k] !in chars
  {
    if |s| == 0 then -1
    else if s[|s| - 1] in chars then |s| - 1
    else LastIndexOfAny(s[..|s| - 1], chars)
  }

  const Separators: set<char> := {'\\', '/'}

  predicate HasSeparator(s: string)
  {
    exists k | 0 <= k < |s| :: IsSeparator(s[k])
  }

  /** `Path.IsPathRooted`: the path starts with a separator or with a drive letter and ':'. */
  predicate IsRooted(p: string)
  {
    (|p| >= 1 && IsSeparator(p[0])) || (|p| >= 2 && IsDriveLetter(p[0]) && p[1] == ':')
  }

  /** The length of the root `p` starts with: 3 for "X:\", 2 for "X:", 1 for "\", else 0. */
  function RootLength(p: string): (n: nat)
    ensures n <= |p| && n <= 3
    ensures n > 0 <==> IsRooted(p)
    ensures n >= 2 ==> IsDriveLetter(p[0]) && p[1] == ':'
    ensures n == 1 || n == 3 ==> IsSeparator(p[n - 1])
  {
    if |p| >= 2 && IsDriveLetter(p[0]) && p[1] == ':' then
      (if |p| >= 3 && IsSeparator(p[2]) then 3 else 2)
    else if |p| >= 1 && IsSeparator(p[0]) then 1
    else 0
  }

  /** A root is decided by the first three characters, so a prefix that holds it has the same root. */
  lemma RootOfPrefix(p: string, n: nat)
    requires RootLength(p) <= n <= |p|
    ensures RootLength(p[..n]) == RootLength(p)
  {
  }

  /** A separator at index k ends the root at the latest. */
  lemma RootBeforeSeparator(p: string, k: int)
    requires 0 <= k < |p| && IsSeparator(p[k])
    ensures RootLength(p) <= k + 1
  {
  }

  /** `Path.GetFileName`: what follows the last separator, or the root when that comes later. */
  function FileName(p: string): (r: string)
    ensures !HasSeparator(r)
    ensures |r| <= |p| - RootLength(p) && r == p[|p| - |r|..]
  {
    var i := LastIndexOfAny(p, Separators);
    var j := if i < RootLength(p) - 1 then RootLength(p) - 1 else i;
    p[j + 1..]
  }

  /** The end of `p[..end]` once the separators before `end` are dropped, but not below `root`. */
  function TrimSeparators(p: string, root: nat, end: nat): (e: nat)
    requires root <= end <= |p|
    ensures root <= e <= end
    ensures e > root ==> !IsSeparator(p[e - 1])
    ensures forall k :: e <= k < end ==> IsSeparator(p[k])
    decreases end
  {
    if end > root && IsSeparator(p[end - 1]) then TrimSeparators(p, root, end - 1) else end
  }

  /**
   * `Path.GetDirectoryName`: `p` up to its last separator, without the
   * separators that precede it, and never shorter than its root; "" when
   * `p` is no more than a root.
   */
  function DirectoryName(p: string): (r: string)
    ensures |r| < |p| || (r == "" && p == "")
    ensures r == p[..|r|]
    ensures |p| > RootLength(p) ==> RootLength(p) <= |r|
    ensures |p| <= RootLength(p) ==> r == ""
  {
    var root := RootLength(p);
    if |p| <= root then ""
    else
      var i := LastIndexOfAny(p, Separators);
      p[..TrimSeparators(p, root, if i < root then root else i)]
  }

  /** What `DirectoryName` returns: empty, a bare root, or a path that does not end in a separator. */
  predicate DirectoryForm(d: string)
  {
    d == "" || RootLength(d) == |d| || !IsSeparator(d[|d| - 1])
  }

  lemma DirectoryNameForm(p: string)
    ensures DirectoryForm(DirectoryName(p))
  {
  }

  /** The directory of a file directly under a drive root is that root, separator included. */
  lemma DriveRootKept(drive: char, name: string)
    requires IsDriveLetter(drive) && name != "" && !HasSeparator(name)
    ensures DirectoryName([drive, ':', '\\'] + name) == [drive, ':', '\\']
    ensures FileName([drive, ':', '\\'] + name) == name
  {
    var p := [drive, ':', '\\'] + name;
    assert RootLength(p) == 3;
    assert forall k :: 3 <= k < |p| ==> p[k] == name[k - 3];
    assert LastIndexOfAny(p, Separators) == 2;
  }

  /** `Path.GetFileNameWithoutExtension`: the file name up to its last '.', if it has one. */
  function FileNameWithoutExtension(p: string): (r: string)
    ensures !HasSeparator(r)
  {
    var name := FileName(p);
    var d := LastIndexOfAny(name, {'.'});
    if d < 0 then name else name[..d]
  }

  /**
   * `os.path.splitext(name)[0]` for a file name: the name up to its last
   * '.', except that dots leading the name do not start an extension.
   */
  function SplitExtStem(name: string): (r: string)
    ensures |r| <= |name| && r == name[..|r|]
  {
    var d := LastIndexOfAny(name, {'.'});
    if d < 0 || (forall k :: 0 <= k < d ==> name[k] == '.') then name else name[..d]
  }

  /** The stem of a name without separators has none either. */
  lemma StemOfName(name: string)
    requires !HasSeparator(name)
    ensures !HasSeparator(SplitExtStem(name))
  {
    var stem := SplitExtStem(name);
    forall k | 0 <= k < |stem| ensures !IsSeparator(stem[k]) {
      assert stem[k] == name[k];
    }
  }

  /**
   * `Path.Combine(a, b)` for two parts: an empty part yields the other, a
   * rooted `b` replaces `a`, and otherwise '\' goes between them unless `a`
   * already ends in a separator.
   */
  function Combine(a: string, b: string): (r: string)
    ensures IsRooted(b) || a == "" ==> r == b
    ensures b == "" ==> r == a
  {
    if a == "" then b
    else if b == "" then a
    else if IsRooted(b) then b
    else if IsSeparator(a[|a| - 1]) then a + b
    else a + "\\" + b
  }

  /** A drive without a separator, "X:": a name joined onto it lands in the drive's root. */
  predicate IsDriveOnly(d: string)
  {
    |d| == 2 && RootLength(d) == 2
  }

  /** The directory a name joined onto `d` lies in, as `DirectoryName` reports it. */
  function JoinedDirectory(d: string): (r: string)
    ensures IsDriveOnly(d) ==> RootLength(r) == 3
  {
    if IsDriveOnly(d) then d + "\\" else d
  }

  /** A name that is neither rooted nor holds a separator ends a path it is joined to. */
  lemma CombineEnds(a: string, b: string)
    requires b != "" && !IsRooted(b) && !HasSeparator(b)
    ensures var r := Combine(a, b); |r| >= |b| && r[|r| - 1] == b[|b| - 1]
  {
    var r := Combine(a, b);
    assert !IsSeparator(b[|b| - 1]);
    if a != "" && !IsSeparator(a[|a| - 1]) {
      assert r == (a + "\\") + b;
    }
  }

  /**
   * A name without separators joined to a directory is the file name of the
   * result, and the directory (as `DirectoryName` would give it) is the
   * result's directory name, a bare drive "X:" becoming its root "X:\".
   */
  lemma CombineSplits(dir: string, name: string)
    requires name != "" && !HasSeparator(name) && !IsRooted(name)
    ensures FileName(Combine(dir, name)) == name
    ensures DirectoryForm(dir) ==> DirectoryName(Combine(dir, name)) == JoinedDirectory(dir)
  {
    if dir == "" {
      var i := LastIndexOfAny(name, Separators);
      assert i == -1;
    } else if IsSeparator(dir[|dir| - 1]) {
      JoinedAfterSeparator(dir, name);
    } else {
      JoinedWithSeparator(dir, name);
    }
  }

  /** The case of `CombineSplits` where `dir` ends in a separator, so the parts are concatenated. */
  lemma JoinedAfterSeparator(dir: string, name: string)
    requires dir != "" && IsSeparator(dir[|dir| - 1])
    requires name != "" && !HasSeparator(name) && !IsRooted(name)
    ensures FileName(dir + name) == name
    ensures DirectoryForm(dir) ==> DirectoryName(dir + name) == dir
  {
    var p := dir + name;
    var i := LastIndexOfAny(p, Separators);
    assert forall k :: |dir| <= k < |p| ==> p[k] == name[k - |dir|];
    assert p[|dir| - 1] in Separators;
    assert i == |dir| - 1;
    RootBeforeSeparator(p, i);
    assert p[i + 1..] == name;
    assert p[..|dir|] == dir;
    RootOfPrefix(p, |dir|);
  }

  /** The case of `CombineSplits` where '\' is inserted between `dir` and `name`. */
  lemma JoinedWithSeparator(dir: string, name: string)
    requires dir != "" && !IsSeparator(dir[|dir| - 1])
    requires name != "" && !HasSeparator(name) && !IsRooted(name)
    ensures FileName(dir + "\\" + name) == name
    ensures DirectoryForm(dir) ==> DirectoryName(dir + "\\" + name) == JoinedDirectory(dir)
  {
    var p := dir + "\\" + name;
    InsertedSeparatorIsLast(dir, name);
    assert p[|dir| + 1..] == name;
    if DirectoryForm(dir) {
      assert p[..|dir|] == dir;
      if RootLength(dir) == |dir| {
        assert RootLength(p) == 3;
        assert p[..3] == dir + "\\";
      } else {
        assert RootLength(p) <= |dir|;
        RootOfPrefix(p, |dir|);
      }
    }
  }

  /** The separator put between `dir` and `name` is the last one, and no root extends past it. */
  lemma InsertedSeparatorIsLast(dir: string, name: string)
    requires !HasSeparator(name)
    ensures LastIndexOfAny(dir + "\\" + name, Separators) == |dir|
    ensures RootLength(dir + "\\" + name) <= |dir| + 1
  {
    var p := dir + "\\" + name;
    assert p[|dir|] in Separators;
    forall k | |dir| < k < |p|
      ensures p[k] !in Separators
    {
      assert p[k] == name[k - |dir| - 1];
    }
    LastIndexIs(p, Separators, |dir|);
    RootBeforeSeparator(p, |dir|);
  }

  /** The index of a character in `chars` that none after it is in is the last index. */
  lemma LastIndexIs(s: string, chars: set<char>, i: int)
    requires 0 <= i < |s| && s[i] in chars
    requires forall k :: i < k < |s| ==> s[k] !in chars
    ensures LastIndexOfAny(s, chars) == i
  {
  }

  /**
   * `stem.ext` joined to a directory is the file name of the result, and its
   * name without extension is `stem`, whatever dots `stem` holds.
   */
  lemma StemOfCombined(dir: string, stem: string, ext: string)
    requires !HasSeparator(stem) && !IsRooted(stem + "." + ext)
    requires !HasSeparator(ext) && '.' !in ext
    ensures FileName(Combine(dir, stem + "." + ext)) == stem + "." + ext
    ensures DirectoryForm(dir) ==> DirectoryName(Combine(dir, stem + "." + ext)) == JoinedDirectory(dir)
    ensures FileNameWithoutExtension(Combine(dir, stem + "." + ext)) == stem
  {
    var name := stem + "." + ext;
    NameWithExtension(stem, ext);
    CombineSplits(dir, name);
    LastDot(stem, ext);
  }

  /** The last '.' of `stem.ext` is the one before `ext`. */
  lemma LastDot(stem: string, ext: string)
    requires '.' !in ext
    ensures LastIndexOfAny(stem + "." + ext, {'.'}) == |stem|
    ensures (stem + "." + ext)[..|stem|] == stem
  {
    LastIndexAt(stem, '.', ext, {'.'});
    assert stem + "." + ext == stem + ['.'] + ext;
  }

  /** The last of `chars` in `s + [c] + t` is `c` when `t` holds none of them. */
  lemma {:induction false} LastIndexAt(s: string, c: char, t: string, chars: set<char>)
    requires c in chars && forall k :: 0 <= k < |t| ==> t[k] !in chars
    ensures LastIndexOfAny(s + [c] + t, chars) == |s|
    decreases |t|
  {
    var u := s + [c] + t;
    if t == [] {
      assert u == s + [c] && u[|u| - 1] == c;
    } else {
      assert u[|u| - 1] == t[|t| - 1];
      assert u[..|u| - 1] == s + [c] + t[..|t| - 1];
      LastIndexAt(s, c, t[..|t| - 1], chars);
    }
  }

  /** `stem.ext` holds no separator when neither part does. */
  lemma NameWithExtension(stem: string, ext: string)
    requires !HasSeparator(stem) && !HasSeparator(ext)
    ensures !HasSeparator(stem + "." + ext)
  {
    var name := stem + "." + ext;
    forall k | 0 <= k < |name|
      ensures !IsSeparator(name[k])
    {
      if k < |stem| { assert name[k] == stem[k]; }
      else if k > |stem| { assert name[k] == ext[k - |stem| - 1]; }
    }
  }
}
