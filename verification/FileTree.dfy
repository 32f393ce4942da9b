/**
 * File trees, and what mkdir and cp -r do to them. Patterns expand as in section 2.13.3 of the
 * POSIX.1-2017 Shell Command Language: a leading period is matched only by a period.
 */
module FileTree {
  import opened Text
  import opened Programs

  type Path = seq<string>
  datatype Node = File(content: string) | Dir
  type Files = map<Path, Node>

  /** The root is a directory, and whatever exists lies in a directory that exists. */
  predicate WellFormed(t: Files) {
    && [] in t && t[[]] == Dir
    && forall p {:trigger Placed(t, p)} | p in t :: Placed(t, p)
  }

  predicate Placed(t: Files, p: Path) {
    p == [] || IsDir(t, p[..|p| - 1])
  }

  type Tree = t: Files | WellFormed(t) witness map[[] := Dir]

  predicate IsDir(t: Files, p: Path) {
    p in t && t[p] == Dir
  }

  function NonEmpty(parts: seq<string>): seq<string> {
    if parts == [] then []
    else (if parts[0] == "" then [] else [parts[0]]) + NonEmpty(parts[1..])
  }

  /** Pathname resolution: extra slashes count for nothing. */
  function Components(path: string): Path {
    NonEmpty(Split(path, '/'))
  }

  predicate Glob(pattern: string, name: string)
    decreases |pattern| + |name|
  {
    if pattern == "" then name == ""
    else if pattern[0] == '*' then Glob(pattern[1..], name) || (name != "" && Glob(pattern, name[1..]))
    else name != "" && name[0] == pattern[0] && Glob(pattern[1..], name[1..])
  }

  predicate Hidden(name: string) {
    name != "" && name[0] == '.'
  }

  predicate Matches(pattern: string, name: string) {
    name != "" && Glob(pattern, name) && (Hidden(name) ==> Hidden(pattern))
  }

  /** p is one of the paths the word expands to, or lies below one. */
  predicate Selected(word: Path, p: Path)
    requires word != []
  {
    var n := |word| - 1;
    |p| > n && word[..n] <= p && Matches(word[n], p[n])
  }

  /** x is where the copy of a chosen path goes. */
  predicate Hit(from: Path, chosen: set<Path>, to: Path, x: Path) {
    to <= x && from + x[|to|..] in chosen
  }

  /** t with the chosen paths, which lie below from, copied to the same place below to. */
  function Graft(t: Files, from: Path, chosen: set<Path>, to: Path): (r: Files)
    requires forall p | p in chosen :: p in t && from <= p
    ensures forall x {:trigger x in r} :: x in r <==> x in t || Hit(from, chosen, to, x)
    ensures forall x {:trigger r[x]} | x in r :: r[x] == if Hit(from, chosen, to, x) then t[from + x[|to|..]] else t[x]
  {
    var targets := set p | p in chosen :: to + p[|from|..];
    assert forall p | from <= p :: from + (to + p[|from|..])[|to|..] == p by {
      forall p | from <= p ensures from + (to + p[|from|..])[|to|..] == p { Rebased(from, to, p); }
    }
    assert forall x | to <= x && from + x[|to|..] in chosen :: x in targets by {
      forall x | to <= x && from + x[|to|..] in chosen ensures x in targets {
        var p := from + x[|to|..];
        Rebased(to, from, x);
        assert to + p[|from|..] in targets;
      }
    }
    t + map x | x in targets && from + x[|to|..] in t :: t[from + x[|to|..]]
  }

  /** Whatever a graft adds came from a chosen path. */
  lemma GraftOrigin(t: Files, from: Path, chosen: set<Path>, to: Path, x: Path)
    requires forall p | p in chosen :: p in t && from <= p
    requires x in Graft(t, from, chosen, to) && x !in t
    ensures to <= x && from + x[|to|..] in chosen && x == to + (from + x[|to|..])[|from|..]
  {
  }

  lemma Rebased(from: Path, to: Path, p: Path)
    requires from <= p
    ensures from + (to + p[|from|..])[|to|..] == p
  {
    assert (to + p[|from|..])[|to|..] == p[|from|..];
  }

  function Below(t: Files, word: Path): set<Path>
    requires word != []
  {
    set p | p in t && Selected(word, p)
  }

  /** A directory is not copied over a file, nor a file over a directory. */
  ghost predicate NoClash(t: Files, word: Path, dst: Path)
    requires word != []
  {
    forall p | p in Below(t, word) && dst + p[|word| - 1..] in t :: t[dst + p[|word| - 1..]].Dir? <==> t[p].Dir?
  }

  /** cp -r word dst, where dst is a directory and the word expands to something. */
  ghost predicate CopiedInto(t: Tree, t': Tree, word: Path, dst: Path)
    requires word != []
  {
    var from := word[..|word| - 1];
    && Below(t, word) != {} && !Selected(word, dst) && NoClash(t, word, dst)
    && t' == Graft(t, from, Below(t, word), dst)
  }

  /** cp -r word dst, where dst is no directory and the word expands to one path only, ending in name. */
  ghost predicate CopiedAs(t: Tree, t': Tree, word: Path, name: string, dst: Path)
    requires word != []
  {
    var src := word[..|word| - 1] + [name];
    && src in t && Selected(word, src) && !Selected(word, dst)
    && (forall p | p in Below(t, word) :: src <= p)
    && dst != [] && IsDir(t, dst[..|dst| - 1])
    && (dst in t ==> t[dst].File? && t[src].File?)
    && t' == Graft(t, src, Below(t, word), dst)
  }

  ghost predicate Copied(t: Tree, t': Tree, from: string, to: string) {
    var word, dst := Components(from), Components(to);
    word != [] &&
    if IsDir(t, dst) then CopiedInto(t, t', word, dst) else exists name :: CopiedAs(t, t', word, name, dst)
  }

  /** Nothing outside dst has changed, and dst has not stopped being a directory. */
  ghost predicate OnlyWithin(t: Files, t': Files, dst: Path) {
    && (forall p | !(dst <= p) :: (p in t <==> p in t') && (p in t ==> t[p] == t'[p]))
    && (IsDir(t, dst) ==> IsDir(t', dst))
  }

  /**
   * What a command may do to the tree, given how it was reported. A command reported as failed may
   * have done its work, or part of it, all the same.
   */
  ghost predicate Performs(cmd: Command, ok: bool, t: Tree, t': Tree) {
    match cmd
    case Script(_) => OnlyWithin(t, t', HOME)
    case Mkdir(dir) =>
      var d := Components(dir);
      var made := d !in t && d != [] && IsDir(t, d[..|d| - 1]) && t' == t[d := Dir];
      made || (!ok && t' == t)
    case Copy(from, to) =>
      if ok then Copied(t, t', from, to) else OnlyWithin(t, t', Components(to))
  }

  /** The copy of a path that is copied. */
  lemma CopyIsThere(t: Tree, word: Path, dst: Path, p: Path)
    requires word != [] && p in Below(t, word)
    ensures var t', x := Graft(t, word[..|word| - 1], Below(t, word), dst), dst + p[|word| - 1..];
            x in t' && t'[x] == t[p]
  {
    var from, x := word[..|word| - 1], dst + p[|word| - 1..];
    assert x[|dst|..] == p[|word| - 1..] && from + p[|word| - 1..] == p;
    assert Hit(from, Below(t, word), dst, x);
  }

  /** The directory copied into stays one. */
  lemma TargetStays(t: Tree, word: Path, dst: Path)
    requires word != [] && IsDir(t, dst)
    ensures IsDir(Graft(t, word[..|word| - 1], Below(t, word), dst), dst)
  {
    var from := word[..|word| - 1];
    assert from + dst[|dst|..] == from && !Selected(word, from);
    assert !Hit(from, Below(t, word), dst, dst);
  }

  lemma ParentOfSelected(t: Tree, word: Path, p: Path)
    requires word != [] && p in Below(t, word) && |p| > |word|
    ensures p[..|p| - 1] in Below(t, word) && IsDir(t, p[..|p| - 1])
  {
    assert Placed(t, p);
    assert p[..|p| - 1][..|word| - 1] == p[..|word| - 1];
  }

  /** The directory that will hold the copy of a path exists after the copy. */
  lemma CopyHasParent(t: Tree, word: Path, dst: Path, p: Path)
    requires word != [] && IsDir(t, dst) && p in Below(t, word)
    ensures var x := dst + p[|word| - 1..];
            x != [] && IsDir(Graft(t, word[..|word| - 1], Below(t, word), dst), x[..|x| - 1])
  {
    var n := |word| - 1;
    var x := dst + p[n..];
    if |p| == n + 1 {
      TargetStays(t, word, dst);
      assert x[..|x| - 1] == dst;
    } else {
      ParentOfSelected(t, word, p);
      CopyIsThere(t, word, dst, p[..|p| - 1]);
      assert x[..|x| - 1] == dst + p[..|p| - 1][n..];
    }
  }

  /** A directory stays one: files are never put in a directory's place. */
  lemma CopyKeepsDirs(t: Tree, word: Path, dst: Path, y: Path)
    requires word != [] && IsDir(t, dst) && IsDir(t, y) && NoClash(t, word, dst)
    ensures IsDir(Graft(t, word[..|word| - 1], Below(t, word), dst), y)
  {
    var n := |word| - 1;
    var from := word[..n];
    if dst <= y && from + y[|dst|..] in Below(t, word) {
      var q := from + y[|dst|..];
      assert dst + q[n..] == y;
    }
  }

  lemma CopyKeepsPlaces(t: Tree, word: Path, dst: Path, x: Path)
    requires word != [] && IsDir(t, dst) && NoClash(t, word, dst)
    requires x in Graft(t, word[..|word| - 1], Below(t, word), dst)
    ensures Placed(Graft(t, word[..|word| - 1], Below(t, word), dst), x)
  {
    if x !in t {
      NewHasPlace(t, word, dst, x);
    } else if x != [] {
      assert Placed(t, x);
      CopyKeepsDirs(t, word, dst, x[..|x| - 1]);
    }
  }

  lemma NewIsCopy(t: Tree, word: Path, dst: Path, x: Path) returns (p: Path)
    requires word != [] && x in Graft(t, word[..|word| - 1], Below(t, word), dst) && x !in t
    ensures p in Below(t, word) && x == dst + p[|word| - 1..]
  {
    var from := word[..|word| - 1];
    GraftOrigin(t, from, Below(t, word), dst, x);
    p := from + x[|dst|..];
    assert p[|from|..] == x[|dst|..];
  }

  lemma NewHasPlace(t: Tree, word: Path, dst: Path, x: Path)
    requires word != [] && IsDir(t, dst)
    requires x in Graft(t, word[..|word| - 1], Below(t, word), dst) && x !in t
    ensures Placed(Graft(t, word[..|word| - 1], Below(t, word), dst), x)
  {
    var p := NewIsCopy(t, word, dst, x);
    CopyHasParent(t, word, dst, p);
  }

  /** A successful copy keeps the tree a tree, so CopiedInto can be met whenever its tests pass. */
  lemma CopyKeepsTrees(t: Tree, word: Path, dst: Path)
    requires word != [] && IsDir(t, dst) && NoClash(t, word, dst)
    ensures WellFormed(Graft(t, word[..|word| - 1], Below(t, word), dst))
  {
    var t' := Graft(t, word[..|word| - 1], Below(t, word), dst);
    forall x | x in t' ensures Placed(t', x) {
      CopyKeepsPlaces(t, word, dst, x);
    }
    CopyKeepsDirs(t, word, dst, []);
  }

  lemma {:induction false} InsideDirs(t: Tree, d: Path, p: Path)
    requires p in t && d < p
    ensures IsDir(t, d)
    decreases |p|
  {
    assert Placed(t, p);
    if |p| > |d| + 1 {
      InsideDirs(t, d, p[..|p| - 1]);
    } else {
      assert p[..|p| - 1] == d;
    }
  }

  lemma AsKeepsDirs(t: Tree, word: Path, src: Path, dst: Path, y: Path)
    requires word != [] && !IsDir(t, dst) && IsDir(t, y)
    requires forall p | p in Below(t, word) :: src <= p
    ensures IsDir(Graft(t, src, Below(t, word), dst), y)
  {
    assert dst <= y && |y| == |dst| ==> y == dst;
    if dst < y {
      InsideDirs(t, dst, y);
    }
  }

  lemma AsKeepsPlaces(t: Tree, word: Path, name: string, dst: Path, x: Path)
    requires word != [] && !IsDir(t, dst) && dst != [] && IsDir(t, dst[..|dst| - 1])
    requires Selected(word, word[..|word| - 1] + [name])
    requires forall p | p in Below(t, word) :: word[..|word| - 1] + [name] <= p
    requires x in Graft(t, word[..|word| - 1] + [name], Below(t, word), dst)
    ensures Placed(Graft(t, word[..|word| - 1] + [name], Below(t, word), dst), x)
  {
    var src := word[..|word| - 1] + [name];
    if Hit(src, Below(t, word), dst, x) {
      if x == dst {
        AsKeepsDirs(t, word, src, dst, dst[..|dst| - 1]);
      } else {
        CopyHasPlace(t, word, name, dst, x[|dst|..]);
        assert dst + x[|dst|..] == x;
      }
    } else if x != [] {
      assert Placed(t, x);
      AsKeepsDirs(t, word, src, dst, x[..|x| - 1]);
    }
  }

  lemma GraftIsThere(t: Files, src: Path, chosen: set<Path>, dst: Path, rest: Path)
    requires forall p | p in chosen :: p in t && src <= p
    requires src + rest in chosen
    ensures var t' := Graft(t, src, chosen, dst); dst + rest in t' && t'[dst + rest] == t[src + rest]
  {
    assert (dst + rest)[|dst|..] == rest;
    assert Hit(src, chosen, dst, dst + rest);
  }

  lemma ParentIsSelected(t: Tree, word: Path, src: Path, rest: Path)
    requires word != [] && rest != [] && |src| == |word| && Selected(word, src) && src + rest in Below(t, word)
    ensures src + rest[..|rest| - 1] in Below(t, word) && IsDir(t, src + rest[..|rest| - 1])
  {
    var up := rest[..|rest| - 1];
    assert Placed(t, src + rest);
    assert (src + rest)[..|src + rest| - 1] == src + up;
    assert (src + up)[..|word| - 1] == src[..|word| - 1];
  }

  lemma CopyHasPlace(t: Tree, word: Path, name: string, dst: Path, rest: Path)
    requires word != [] && rest != []
    requires Selected(word, word[..|word| - 1] + [name])
    requires forall p | p in Below(t, word) :: word[..|word| - 1] + [name] <= p
    requires word[..|word| - 1] + [name] + rest in Below(t, word)
    ensures Placed(Graft(t, word[..|word| - 1] + [name], Below(t, word), dst), dst + rest)
  {
    var src := word[..|word| - 1] + [name];
    ParentIsSelected(t, word, src, rest);
    GraftIsThere(t, src, Below(t, word), dst, rest[..|rest| - 1]);
    assert (dst + rest)[..|dst + rest| - 1] == dst + rest[..|rest| - 1];
  }

  /** The same for a copy to a name that is no directory: CopiedAs, too, can be met whenever its tests pass. */
  lemma CopyAsKeepsTrees(t: Tree, word: Path, name: string, dst: Path)
    requires word != [] && !IsDir(t, dst) && dst != [] && IsDir(t, dst[..|dst| - 1])
    requires Selected(word, word[..|word| - 1] + [name])
    requires forall p | p in Below(t, word) :: word[..|word| - 1] + [name] <= p
    ensures WellFormed(Graft(t, word[..|word| - 1] + [name], Below(t, word), dst))
  {
    var src := word[..|word| - 1] + [name];
    var t' := Graft(t, src, Below(t, word), dst);
    forall x | x in t' ensures Placed(t', x) {
      AsKeepsPlaces(t, word, name, dst, x);
    }
    AsKeepsDirs(t, word, src, dst, []);
  }

  // ---- the words the controllers use ------------------------------------------------------

  lemma {:induction false} GlobLiteral(pattern: string, name: string)
    requires '*' !in pattern
    ensures Glob(pattern, name) <==> name == pattern
    decreases |pattern|
  {
    if pattern != "" && name != "" {
      GlobLiteral(pattern[1..], name[1..]);
      assert name == [name[0]] + name[1..] && pattern == [pattern[0]] + pattern[1..];
    }
  }

  lemma {:induction false} GlobStar(rest: string, name: string)
    requires '*' !in rest
    ensures Glob("*" + rest, name) <==> HasSuffix(name, rest)
    decreases |name|
  {
    assert ("*" + rest)[1..] == rest;
    GlobLiteral(rest, name);
    if name != "" {
      GlobStar(rest, name[1..]);
      if |rest| < |name| {
        assert name[1..][|name| - 1 - |rest|..] == name[|name| - |rest|..];
      }
    }
  }

  /** "*.xml" stands for the visible names that end in .xml, "*" for the visible names. */
  lemma StarMatches(rest: string, name: string)
    requires '*' !in rest
    ensures Matches("*" + rest, name) <==> name != "" && HasSuffix(name, rest) && !Hidden(name)
  {
    GlobStar(rest, name);
  }

  /** A name that reaches the shell and the file system as one literal component. */
  predicate Plain(name: string) {
    && name != "" && name != "." && name != ".."
    && forall i | 0 <= i < |name| ::
         'a' <= name[i] <= 'z' || '0' <= name[i] <= '9' || name[i] == '-' || name[i] == '.'
  }

  const HOME: Path := ["var", "lib", "jenkins"]

  function DirOf(volume: string, name: string): Path {
    ["jenkins-backups", volume, name]
  }

  predicate Proper(p: Path) {
    forall i | 0 <= i < |p| :: p[i] != "" && '/' !in p[i]
  }

  lemma {:induction false} NonEmptyProper(p: Path, tail: Path)
    requires Proper(p) && (tail == [] || tail == [""])
    ensures NonEmpty(p + tail) == p
  {
    if p == [] {
      assert p + tail == tail;
      assert NonEmpty([""][1..]) == [];
    } else {
      assert (p + tail)[1..] == p[1..] + tail;
      NonEmptyProper(p[1..], tail);
      assert [p[0]] + p[1..] == p;
    }
  }

  /** An absolute path resolves to its components, with or without a trailing slash. */
  lemma AbsoluteComponents(p: Path)
    requires p != [] && Proper(p)
    ensures Components("/" + Join(p, '/')) == p
    ensures Components("/" + Join(p, '/') + "/") == p
  {
    AbsoluteSplit(p);
    AbsoluteSplit(p + [""]);
    JoinSnoc(p, "");
    assert "/" + Join(p, '/') + "/" == "/" + Join(p + [""], '/');
    NonEmptyProper(p, []);
    NonEmptyProper(p, [""]);
    assert p + [] == p;
  }

  lemma AbsoluteSplit(words: seq<string>)
    requires words != [] && Free(words, '/')
    ensures Components("/" + Join(words, '/')) == NonEmpty(words)
  {
    SplitJoin(words, '/');
    assert ("/" + Join(words, '/'))[1..] == Join(words, '/');
    assert ([""] + words)[1..] == words;
  }

  lemma HomeIs()
    ensures JENKINS_HOME == "/" + Join(HOME, '/')
  {
    assert HOME[1..] == ["lib", "jenkins"] && ["lib", "jenkins"][1..] == ["jenkins"];
    assert Join(["lib", "jenkins"], '/') == "lib/jenkins";
    assert Join(HOME, '/') == "var" + "/" + "lib/jenkins";
  }

  lemma DirIs(volume: string, name: string)
    ensures BackupDir(volume, name) == "/" + Join(DirOf(volume, name), '/')
  {
    assert DirOf(volume, name)[1..] == [volume, name] && [volume, name][1..] == [name];
    assert Join([volume, name], '/') == volume + "/" + name;
    assert BACKUPS == "/" + "jenkins-backups";
  }

  lemma WordComponents(base: string, p: Path, location: string)
    requires p != [] && Proper(p) && base == "/" + Join(p, '/')
    requires '/' !in location && location != ""
    ensures Components(base) == Components(base + "/") == p
    ensures Components(base + "/" + location) == p + [location]
    ensures Components(base + "/" + (location + "/*")) == p + [location, "*"]
  {
    AbsoluteComponents(p);
    JoinSnoc(p, location);
    AbsoluteComponents(p + [location]);
    assert "/" + Join(p + [location], '/') == base + "/" + location;
    JoinSnoc(p + [location], "*");
    AbsoluteComponents(p + [location] + ["*"]);
    assert p + [location] + ["*"] == p + [location, "*"];
    assert "/" + Join(p + [location] + ["*"], '/') == base + "/" + (location + "/*");
  }

  lemma HomeComponents(home: string, location: string)
    requires home == JENKINS_HOME && '/' !in location && location != ""
    ensures Components(home + "/") == HOME
    ensures Components(home + "/" + location) == HOME + [location]
  {
    HomeIs();
    WordComponents(home, HOME, location);
  }

  lemma DirComponents(volume: string, name: string, location: string)
    requires Plain(volume) && Plain(name) && '/' !in location && location != ""
    ensures var d := BackupDir(volume, name);
            && Components(d + "/") == DirOf(volume, name)
            && Components(d + "/" + location) == DirOf(volume, name) + [location]
            && Components(d + "/" + (location + "/*")) == DirOf(volume, name) + [location, "*"]
  {
    DirIs(volume, name);
    WordComponents(BackupDir(volume, name), DirOf(volume, name), location);
  }

  lemma {:induction false} JoinSnoc(words: seq<string>, last: string)
    requires words != []
    ensures Join(words + [last], '/') == Join(words, '/') + "/" + last
  {
    if |words| > 1 {
      assert (words + [last])[1..] == words[1..] + [last];
      JoinSnoc(words[1..], last);
    } else {
      assert (words + [last])[1..] == [last];
    }
  }
}
