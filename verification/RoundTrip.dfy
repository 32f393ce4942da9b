/** A restore puts back what the backup took: nothing more, nothing less, and nowhere else. */
module RoundTrip {
  import opened Text
  import opened Programs
  import opened Grammar
  import opened BackupOutcome
  import opened FileTree

  /** What lies below d, by its path from d. */
  function Sub(t: Files, d: Path): (r: Files)
    ensures forall q {:trigger q in r} :: q in r <==> q != [] && d + q in t
    ensures forall q {:trigger r[q]} | q in r :: r[q] == t[d + q]
  {
    var below := set p | p in t && d <= p && p != d :: p[|d|..];
    assert forall q | q != [] && d + q in t :: (d + q)[|d|..] == q;
    assert forall p | d <= p :: d + p[|d|..] == p;
    map q | q in below && d + q in t :: t[d + q]
  }

  predicate Laid(d: Path, files: Files, p: Path) {
    d <= p && p[|d|..] in files
  }

  /** t with files laid over it below d. */
  function Lay(t: Files, d: Path, files: Files): (r: Files)
    ensures forall p {:trigger p in r} :: p in r <==> p in t || Laid(d, files, p)
    ensures forall p {:trigger r[p]} | p in r :: r[p] == if Laid(d, files, p) then files[p[|d|..]] else t[p]
  {
    var targets := set q | q in files :: d + q;
    assert forall q | q in files :: (d + q)[|d|..] == q;
    assert forall p | d <= p && p[|d|..] in files :: p in targets by {
      forall p | d <= p && p[|d|..] in files ensures p in targets { assert d + p[|d|..] == p; }
    }
    t + map p | p in targets && p[|d|..] in files :: files[p[|d|..]]
  }

  predicate SameDir(t: Files, t': Files, d: Path) {
    IsDir(t, d) && IsDir(t', d) && Sub(t, d) == Sub(t', d)
  }

  /** What the backup of one location takes from the home directory. */
  function Take(t: Files, location: string): Files {
    Picked(Sub(t, HOME), location)
  }

  function Picked(files: Files, location: string): Files {
    map q | q in files && q != [] && Matches(location, q[0]) :: files[q]
  }

  /** What the restore of one location puts back: hidden names at the pattern's level stay behind. */
  predicate Visible(location: string, q: Path) {
    if location == XML then |q| >= 1 && Matches(XML, q[0])
    else |q| >= 2 && q[0] == location && Matches("*", q[1])
  }

  function View(files: Files, locations: seq<string>): Files {
    map q | q in files && exists i | 0 <= i < |locations| :: Visible(locations[i], q) :: files[q]
  }

  predicate Location(location: string) {
    location in {XML, "jobs", "plugins"}
  }

  /** One command of a run, with the trees before and after it. */
  datatype FileStep = FileStep(cmd: Command, ok: bool, before: Tree, after: Tree)

  ghost predicate Real(s: FileStep) {
    Performs(s.cmd, s.ok, s.before, s.after)
  }

  /** Between step i and the next, the directory is left alone. */
  ghost predicate LeftAlone(steps: seq<FileStep>, i: nat, d: Path)
    requires i + 1 < |steps|
  {
    SameDir(steps[i].after, steps[i + 1].before, d)
  }

  /** Between step i and the next, nothing happens. */
  ghost predicate Continues(steps: seq<FileStep>, i: nat)
    requires i + 1 < |steps|
  {
    steps[i].after == steps[i + 1].before
  }

  // ---- backup -----------------------------------------------------------------------------

  lemma GraftKeepsTarget(t: Files, home: Path, chosen: set<Path>, d: Path)
    requires IsDir(t, d) && home !in chosen
    requires forall p | p in chosen :: p in t && home <= p
    ensures IsDir(Graft(t, home, chosen, d), d)
  {
    assert home + d[|d|..] == home;
  }

  lemma GraftAdds(t: Files, home: Path, chosen: set<Path>, d: Path, took: Files)
    requires forall p | p in chosen :: p in t && home <= p
    requires forall q {:trigger q in took} | q != [] :: home + q in chosen <==> q in took
    requires [] !in took && forall q {:trigger took[q]} | q in took :: took[q] == t[home + q]
    ensures Sub(Graft(t, home, chosen, d), d) == Sub(t, d) + took
  {
    var was, now := Sub(t, d), Sub(Graft(t, home, chosen, d), d);
    forall q ensures q in now <==> q in was || q in took
             ensures q in now ==> now[q] == if q in took then took[q] else was[q]
    {
      if q != [] {
        GraftAddsAt(t, home, chosen, d, q);
      }
    }
    SumIs(now, was, took);
  }

  lemma SumIs(now: Files, was: Files, took: Files)
    requires forall q {:trigger q in now} :: q in now <==> q in was || q in took
    requires forall q {:trigger now[q]} | q in now :: now[q] == if q in took then took[q] else was[q]
    ensures now == was + took
  {
  }

  lemma GraftAddsAt(t: Files, home: Path, chosen: set<Path>, d: Path, q: Path)
    requires forall p | p in chosen :: p in t && home <= p
    ensures var t' := Graft(t, home, chosen, d);
            && (d + q in t' <==> d + q in t || home + q in chosen)
            && (d + q in t' ==> t'[d + q] == if home + q in chosen then t[home + q] else t[d + q])
  {
    assert (d + q)[|d|..] == q;
    assert Hit(home, chosen, d, d + q) <==> home + q in chosen;
  }

  lemma BelowHome(t: Files, home: Path, location: string, q: Path)
    requires q != []
    ensures home + q in Below(t, home + [location]) <==> home + q in t && Matches(location, q[0])
  {
    assert (home + [location])[..|home|] == home;
    assert (home + q)[|home|] == q[0] && (home + q)[..|home|] == home;
  }

  /** A copy of home/location into d adds to d what the location takes. */
  lemma GraftTakes(t: Tree, home: Path, location: string, d: Path)
    requires IsDir(t, d)
    ensures var t' := Graft(t, home, Below(t, home + [location]), d);
            && IsDir(t', d)
            && Sub(t', d) == Sub(t, d) + Picked(Sub(t, home), location)
  {
    assert (home + [location])[..|home|] == home;
    forall q | q != []
      ensures home + q in Below(t, home + [location]) <==> q in Picked(Sub(t, home), location)
    {
      BelowHome(t, home, location, q);
    }
    GraftKeepsTarget(t, home, Below(t, home + [location]), d);
    GraftAdds(t, home, Below(t, home + [location]), d, Picked(Sub(t, home), location));
  }

  lemma BackupWords(volume: string, name: string, location: string)
    requires Plain(volume) && Plain(name) && Location(location)
    ensures var c := BackupCopy(volume, name, location);
            && c.Copy?
            && Components(c.from) == HOME + [location] && Components(c.to) == DirOf(volume, name)
            && HOME == (HOME + [location])[..|HOME + [location]| - 1]
  {
    HomeComponents(JENKINS_HOME, location);
    DirComponents(volume, name, location);
  }

  lemma BackupCopyTakes(t: Tree, t': Tree, volume: string, name: string, location: string)
    requires Plain(volume) && Plain(name) && Location(location)
    requires Performs(BackupCopy(volume, name, location), true, t, t') && IsDir(t, DirOf(volume, name))
    ensures IsDir(t', DirOf(volume, name))
    ensures Sub(t', DirOf(volume, name)) == Sub(t, DirOf(volume, name)) + Take(t, location)
  {
    var c, d := BackupCopy(volume, name, location), DirOf(volume, name);
    BackupWords(volume, name, location);
    CopiedIntoWords(t, t', c.from, c.to, HOME, HOME + [location], d);
    GraftTakes(t, HOME, location, d);
  }

  /** All that copies 0..n took, each from the home directory as it was when that copy ran. */
  function Captured(locations: seq<string>, steps: seq<FileStep>, n: nat): Files
    requires n <= |locations| && n <= |steps|
  {
    if n == 0 then map[] else Captured(locations, steps, n - 1) + Take(steps[n - 1].before, locations[n - 1])
  }

  ghost predicate BackupRan(volume: string, name: string, locations: seq<string>, steps: seq<FileStep>) {
    && |steps| == |locations|
    && (forall i | 0 <= i < |steps| ::
          steps[i].ok && steps[i].cmd == BackupCopy(volume, name, locations[i]) && Location(locations[i]))
    && (forall i {:trigger Real(steps[i])} | 0 <= i < |steps| :: Real(steps[i]))
    && (forall i: nat | i + 1 < |steps| :: LeftAlone(steps, i, DirOf(volume, name)))
  }

  lemma {:induction false} BackupHolds(volume: string, name: string, locations: seq<string>, steps: seq<FileStep>, n: nat)
    requires Plain(volume) && Plain(name) && BackupRan(volume, name, locations, steps) && 0 < n <= |steps|
    requires IsDir(steps[0].before, DirOf(volume, name)) && Sub(steps[0].before, DirOf(volume, name)) == map[]
    ensures IsDir(steps[n - 1].after, DirOf(volume, name))
    ensures Sub(steps[n - 1].after, DirOf(volume, name)) == Captured(locations, steps, n)
  {
    if n > 1 {
      BackupHolds(volume, name, locations, steps, n - 1);
      assert LeftAlone(steps, n - 2, DirOf(volume, name));
    }
    var s := steps[n - 1];
    assert Real(s) && s.ok;
    BackupCopyTakes(s.before, s.after, volume, name, locations[n - 1]);
    assert n == 1 ==> Captured(locations, steps, 0) == map[];
  }

  /** Nothing can lie below a path that does not exist. */
  lemma {:induction false} NothingBelow(t: Tree, d: Path, p: Path)
    requires d !in t && d <= p
    ensures p !in t
    decreases |p|
  {
    if p != d {
      NothingBelow(t, d, p[..|p| - 1]);
      assert p in t ==> Placed(t, p);
    }
  }

  lemma MkdirMakesEmpty(t: Tree, t': Tree, volume: string, name: string)
    requires Plain(volume) && Plain(name)
    requires Performs(Mkdir(BackupDir(volume, name) + "/"), true, t, t')
    ensures IsDir(t', DirOf(volume, name)) && Sub(t', DirOf(volume, name)) == map[]
    ensures DirOf(volume, name) !in t
  {
    DirComponents(volume, name, "jobs");
    var d := DirOf(volume, name);
    forall q | q in Sub(t', d) ensures false {
      NothingBelow(t, d, d + q);
    }
  }

  // ---- restore ----------------------------------------------------------------------------

  // The words of a restore copy: what it reads, from where, and where it writes.

  function WordOf(d: Path, location: string): Path {
    if location == XML then d + [XML] else d + [location, "*"]
  }

  function BaseOf(d: Path, location: string): Path {
    if location == XML then d else d + [location]
  }

  function TargetOf(home: Path, location: string): Path {
    if location == XML then home else home + [location]
  }

  lemma RestoreWords(volume: string, name: string, location: string)
    requires Plain(volume) && Plain(name) && Location(location)
    ensures var c := RestoreCopy(volume, name, location);
            var d := DirOf(volume, name);
            && c.Copy?
            && Components(c.from) == WordOf(d, location) && Components(c.to) == TargetOf(HOME, location)
            && BaseOf(d, location) == WordOf(d, location)[..|WordOf(d, location)| - 1]
  {
    var home := JENKINS_HOME;
    HomeComponents(home, location);
    DirComponents(volume, name, location);
    if location == XML {
      assert RestoreCopy(volume, name, location).to == home + "/";
    }
  }

  lemma CopiedIntoWords(t: Tree, t': Tree, from: string, to: string, base: Path, word: Path, dst: Path)
    requires Copied(t, t', from, to) && Components(from) == word && Components(to) == dst && IsDir(t, dst)
    requires word != [] && base == word[..|word| - 1]
    ensures t' == Graft(t, base, Below(t, word), dst)
  {
  }

  /** A restore copy into a directory that is there, as one graft. */
  lemma RestoreGrafts(t: Tree, t': Tree, volume: string, name: string, location: string)
    requires Plain(volume) && Plain(name) && Location(location)
    requires IsDir(t, TargetOf(HOME, location))
    requires Performs(RestoreCopy(volume, name, location), true, t, t')
    ensures var d := DirOf(volume, name);
            t' == Graft(t, BaseOf(d, location), Below(t, WordOf(d, location)), TargetOf(HOME, location))
  {
    var c, d := RestoreCopy(volume, name, location), DirOf(volume, name);
    RestoreWords(volume, name, location);
    CopiedIntoWords(t, t', c.from, c.to, BaseOf(d, location), WordOf(d, location), TargetOf(HOME, location));
  }

  function Seen(files: Files, location: string): Files {
    map q | q in files && Visible(location, q) :: files[q]
  }

  lemma GraftIsLay(t: Files, from: Path, chosen: set<Path>, to: Path, home: Path, files: Files)
    requires forall p | p in chosen :: p in t && from <= p
    requires forall p {:trigger Hit(from, chosen, to, p)} {:trigger Laid(home, files, p)} ::
               Hit(from, chosen, to, p) <==> Laid(home, files, p)
    requires forall p {:trigger Laid(home, files, p)} | Laid(home, files, p) && Hit(from, chosen, to, p) ::
               files[p[|home|..]] == t[from + p[|to|..]]
    ensures Graft(t, from, chosen, to) == Lay(t, home, files)
  {
    var a, b := Graft(t, from, chosen, to), Lay(t, home, files);
    forall p ensures p in a <==> p in b {
    }
    forall p | p in a ensures a[p] == b[p] {
    }
    assert a == b;
  }

  lemma GraftLaysTop(t: Tree, d: Path, home: Path)
    ensures Graft(t, d, Below(t, d + [XML]), home) == Lay(t, home, Seen(Sub(t, d), XML))
  {
    assert (d + [XML])[..|d|] == d;
    forall p
      ensures Hit(d, Below(t, d + [XML]), home, p) <==> Laid(home, Seen(Sub(t, d), XML), p)
    {
      TopWrittenAt(t, d, home, p);
    }
    GraftIsLay(t, d, Below(t, d + [XML]), home, home, Seen(Sub(t, d), XML));
  }

  lemma TopWrittenAt(t: Tree, d: Path, home: Path, p: Path)
    ensures (home <= p && d + p[|home|..] in Below(t, d + [XML])) <==> (home <= p && p[|home|..] in Seen(Sub(t, d), XML))
  {
    assert (d + [XML])[..|d|] == d;
    if home <= p && p[|home|..] != [] {
      var q := p[|home|..];
      assert (d + q)[|d|] == q[0] && (d + q)[..|d|] == d;
    }
  }

  lemma GraftLays(t: Tree, d: Path, location: string, home: Path)
    requires location != XML
    ensures Graft(t, d + [location], Below(t, d + [location, "*"]), home + [location])
            == Lay(t, home, Seen(Sub(t, d), location))
  {
    var word, from, dst, seen := d + [location, "*"], d + [location], home + [location], Seen(Sub(t, d), location);
    assert word[..|from|] == from;
    forall p
      ensures Hit(from, Below(t, word), dst, p) <==> Laid(home, seen, p)
      ensures Laid(home, seen, p) ==> from + p[|dst|..] == d + p[|home|..]
    {
      WrittenAt(t, d, location, home, p);
    }
    GraftIsLay(t, from, Below(t, word), dst, home, seen);
  }

  lemma WrittenAt(t: Tree, d: Path, location: string, home: Path, p: Path)
    requires location != XML
    ensures var (word, from, dst, seen) := (d + [location, "*"], d + [location], home + [location], Seen(Sub(t, d), location));
            && (dst <= p && from + p[|dst|..] in Below(t, word) <==> home <= p && p[|home|..] in seen)
            && (home <= p && p[|home|..] in seen ==> from + p[|dst|..] == d + p[|home|..])
  {
    if home <= p {
      var q := p[|home|..];
      assert p == home + q;
      assert home + [location] <= p <==> q != [] && q[0] == location;
      if q != [] && q[0] == location {
        assert d + [location] + p[|home| + 1..] == d + q;
        assert (d + [location, "*"])[..|d| + 1] == d + [location];
        assert |q| >= 2 ==> (d + q)[|d| + 1] == q[1];
        assert (d + q)[..|d| + 1] == d + [location];
      }
    } else {
      assert home <= home + [location];
    }
  }

  lemma GraftsLay(t: Tree, d: Path, location: string, home: Path)
    ensures Lay(t, home, Seen(Sub(t, d), location)) ==
              Graft(t, BaseOf(d, location), Below(t, WordOf(d, location)), TargetOf(home, location))
  {
    if location == XML {
      GraftLaysTop(t, d, home);
    } else {
      GraftLays(t, d, location, home);
    }
  }

  ghost predicate RestoreRan(volume: string, name: string, locations: seq<string>, steps: seq<FileStep>) {
    && |steps| == |locations|
    && (forall i | 0 <= i < |steps| ::
          steps[i].ok && steps[i].cmd == RestoreCopy(volume, name, locations[i]) && Location(locations[i]))
    && (forall i {:trigger Real(steps[i])} | 0 <= i < |steps| :: Real(steps[i]))
    && (forall i: nat | i + 1 < |steps| :: Continues(steps, i))
  }

  /** The home directory, and the directories that restores copy into, are there. */
  predicate Ready(t: Files, locations: seq<string>) {
    IsDir(t, HOME) && forall i | 0 <= i < |locations| && locations[i] != XML :: IsDir(t, HOME + [locations[i]])
  }

  lemma LayKeepsApart(t: Files, home: Path, files: Files, d: Path)
    requires d != [] && home != [] && d[0] != home[0]
    ensures Sub(Lay(t, home, files), d) == Sub(t, d)
  {
    var t' := Lay(t, home, files);
    forall q ensures d + q in t' <==> d + q in t
             ensures d + q in t ==> t'[d + q] == t[d + q]
    {
      assert (d + q)[0] != home[0];
    }
    forall q | q in Sub(t, d) ensures Sub(t', d)[q] == Sub(t, d)[q] {
    }
    assert Sub(t', d) == Sub(t, d);
  }

  lemma VisibleAvoids(location: string, q: Path)
    requires Location(location) && Visible(location, q)
    ensures q != [] && q != ["jobs"] && q != ["plugins"]
  {
    StarMatches(".xml", q[0]);
    assert XML == "*" + ".xml";
  }

  lemma LayKeepsReady(t: Tree, files: Files, locations: seq<string>)
    requires forall i | 0 <= i < |locations| :: Location(locations[i])
    requires Ready(t, locations)
    requires [] !in files && ["jobs"] !in files && ["plugins"] !in files
    ensures Ready(Lay(t, HOME, files), locations)
  {
    forall i | 0 <= i < |locations| && locations[i] != XML ensures IsDir(Lay(t, HOME, files), HOME + [locations[i]]) {
      assert (HOME + [locations[i]])[3..] == [locations[i]];
    }
    assert HOME[3..] == [];
  }

  lemma ViewAvoids(files: Files, locations: seq<string>)
    requires forall i | 0 <= i < |locations| :: Location(locations[i])
    ensures [] !in View(files, locations) && ["jobs"] !in View(files, locations) && ["plugins"] !in View(files, locations)
  {
    forall q, i | 0 <= i < |locations| && Visible(locations[i], q) ensures q != [] && q != ["jobs"] && q != ["plugins"] {
      VisibleAvoids(locations[i], q);
    }
  }

  lemma RestoreStep(d: Path, locations: seq<string>, n: nat, t0: Files, t: Files)
    requires n < |locations| && d != [] && d[0] != HOME[0]
    requires t == Lay(t0, HOME, View(Sub(t0, d), locations[..n]))
    ensures Lay(t, HOME, Seen(Sub(t, d), locations[n])) == Lay(t0, HOME, View(Sub(t0, d), locations[..n + 1]))
  {
    var files := Sub(t0, d);
    LayKeepsApart(t0, HOME, View(files, locations[..n]), d);
    ViewSnoc(files, locations[..n], locations[n]);
    assert locations[..n] + [locations[n]] == locations[..n + 1];
    LayTwice(t0, HOME, View(files, locations[..n]), Seen(files, locations[n]));
  }

  lemma {:induction false} RestoreHolds(volume: string, name: string, locations: seq<string>, steps: seq<FileStep>, n: nat)
    requires Plain(volume) && Plain(name) && RestoreRan(volume, name, locations, steps) && 0 < n <= |steps|
    requires Ready(steps[0].before, locations)
    ensures steps[n - 1].after == Lay(steps[0].before, HOME, View(Sub(steps[0].before, DirOf(volume, name)), locations[..n]))
  {
    var s := steps[n - 1];
    assert Real(s);
    if n > 1 {
      RestoreHolds(volume, name, locations, steps, n - 1);
      assert Continues(steps, n - 2);
    } else {
      assert View(Sub(s.before, DirOf(volume, name)), locations[..0]) == map[];
      assert Lay(s.before, HOME, map[]) == s.before;
    }
    var d := DirOf(volume, name);
    ViewAvoids(Sub(steps[0].before, d), locations[..n - 1]);
    LayKeepsReady(steps[0].before, View(Sub(steps[0].before, d), locations[..n - 1]), locations);
    RestoreGrafts(s.before, s.after, volume, name, locations[n - 1]);
    GraftsLay(s.before, d, locations[n - 1], HOME);
    RestoreStep(d, locations, n - 1, steps[0].before, s.before);
  }

  lemma ViewSnoc(files: Files, locations: seq<string>, last: string)
    ensures View(files, locations + [last]) == View(files, locations) + Seen(files, last)
  {
    var all := locations + [last];
    forall q | q in files
      ensures (exists i | 0 <= i < |all| :: Visible(all[i], q)) <==>
              (exists i | 0 <= i < |locations| :: Visible(locations[i], q)) || Visible(last, q)
    {
      assert all[|locations|] == last;
      assert forall i | 0 <= i < |locations| :: all[i] == locations[i];
    }
  }

  lemma LayTwice(t: Files, d: Path, f: Files, g: Files)
    ensures Lay(Lay(t, d, f), d, g) == Lay(t, d, f + g)
  {
    var a, b := Lay(Lay(t, d, f), d, g), Lay(t, d, f + g);
    forall p
      ensures p in a <==> p in b
      ensures p in a ==> a[p] == b[p]
    {
      LayTwiceAt(t, d, f, g, p);
    }
    assert a == b;
  }

  lemma LayTwiceAt(t: Files, d: Path, f: Files, g: Files, p: Path)
    ensures var a, b := Lay(Lay(t, d, f), d, g), Lay(t, d, f + g); (p in a <==> p in b) && (p in a ==> a[p] == b[p])
  {
    assert Laid(d, f + g, p) <==> Laid(d, f, p) || Laid(d, g, p);
  }

  // ---- the round trip ---------------------------------------------------------------------

  lemma LocationsAre(options: Options)
    ensures forall i | 0 <= i < |Locations(options)| :: Location(Locations(options)[i])
  {
  }

  /** The steps on the file tree that go with what a run tried. */
  ghost predicate Shows(steps: seq<FileStep>, tried: seq<Attempt>) {
    && |steps| == |tried|
    && (forall i | 0 <= i < |steps| :: Attempt(steps[i].cmd, steps[i].ok) == tried[i])
    && (forall i {:trigger Real(steps[i])} | 0 <= i < |steps| :: Real(steps[i]))
  }

  /** A backup run as it went: all it tried, nobody else in its directory once made, BackupCompleted stored, no mkdir or cp failed. */
  ghost predicate BackedUp(volume: string, name: string, strategy: Strategy, events: seq<Event>, at: Progress, steps: seq<FileStep>) {
    && Reaches(BackupJob(volume, name, strategy), events, at) && StoresDone(events) && FilesSucceed(events)
    && Shows(steps, Tried(events))
    && (forall i: nat | MkdirAt(strategy) <= i && i + 1 < |steps| :: LeftAlone(steps, i, DirOf(volume, name)))
  }

  /** A restore run as it went: the copies it tried, the tree at rest between them, RestoreCompleted True stored by event n. */
  ghost predicate RestoredTo(volume: string, name: string, strategy: Strategy, events: seq<Event>, at: Progress, n: nat,
                             steps: seq<FileStep>) {
    && Reaches(RestoreJob(volume, name, strategy), events, at)
    && n < |events| && events[n].Updated? && RestoreCompleted in events[n].conditions && events[n].conditions[RestoreCompleted]
    && Shows(steps, Attempts(events))
    && (forall i: nat | i + 1 < |steps| :: Continues(steps, i))
  }

  /** The steps of the copies among those of a backup run. */
  function CopiesOf(strategy: Strategy, steps: seq<FileStep>): seq<FileStep>
    requires |steps| >= MkdirAt(strategy) + 1 + |Locations(strategy.options)|
  {
    steps[MkdirAt(strategy) + 1..][..|Locations(strategy.options)|]
  }

  /** The steps of a complete backup: k scripts, mkdir, the copies, k scripts, and from mkdir on nobody else in the directory. */
  ghost predicate BackupSteps(volume: string, name: string, locations: seq<string>, k: nat, steps: seq<FileStep>) {
    && |steps| == k + 1 + |locations| + k
    && (forall i {:trigger Real(steps[i])} | 0 <= i < |steps| :: Real(steps[i]))
    && (forall i | k <= i < |steps| :: BackupStep(volume, name, locations, i - k, steps[i]))
    && (forall i: nat | k <= i && i + 1 < |steps| :: LeftAlone(steps, i, DirOf(volume, name)))
  }

  /** The i-th step from mkdir on. */
  predicate BackupStep(volume: string, name: string, locations: seq<string>, i: nat, s: FileStep) {
    if i == 0 then s.ok && s.cmd == Mkdir(BackupDir(volume, name) + "/")
    else if i <= |locations| then s.ok && s.cmd == BackupCopy(volume, name, locations[i - 1])
    else s.cmd.Script?
  }

  lemma BackedUpSteps(volume: string, name: string, strategy: Strategy, events: seq<Event>, at: Progress, steps: seq<FileStep>)
    requires BackedUp(volume, name, strategy, events, at, steps)
    ensures BackupSteps(volume, name, Locations(strategy.options), MkdirAt(strategy), steps)
  {
    CompleteBackup(volume, name, strategy, events, at);
    var k, locations, tried := MkdirAt(strategy), Locations(strategy.options), Tried(events);
    forall i | k <= i < |steps| ensures BackupStep(volume, name, locations, i - k, steps[i]) {
      assert Attempt(steps[i].cmd, steps[i].ok) == tried[i];
      if k < i <= k + |locations| {
        assert tried[k + 1 + (i - k - 1)] == Attempt(BackupCopy(volume, name, locations[i - k - 1]), true);
      }
    }
  }

  lemma CopiesRan(volume: string, name: string, locations: seq<string>, k: nat, steps: seq<FileStep>)
    requires BackupSteps(volume, name, locations, k, steps)
    requires forall i | 0 <= i < |locations| :: Location(locations[i])
    ensures BackupRan(volume, name, locations, steps[k + 1..][..|locations|])
  {
    var copies := steps[k + 1..][..|locations|];
    forall i | 0 <= i < |copies|
      ensures copies[i].ok && copies[i].cmd == BackupCopy(volume, name, locations[i]) && Real(copies[i])
    {
      assert copies[i] == steps[k + 1 + i] && Real(steps[k + 1 + i]);
      assert BackupStep(volume, name, locations, i + 1, steps[k + 1 + i]);
    }
    forall i: nat | i + 1 < |copies| ensures LeftAlone(copies, i, DirOf(volume, name)) {
      assert LeftAlone(steps, k + 1 + i, DirOf(volume, name));
    }
  }

  lemma Apart(d: Path, e: Path, q: Path)
    requires !(d <= e) && !(e <= d)
    ensures !(d <= e + q)
  {
    if |d| <= |e| {
      assert (e + q)[..|d|] == e[..|d|];
    } else if |d| <= |e| + |q| {
      assert (e + q)[..|d|][..|e|] == e;
    }
  }

  /** A change within one directory leaves a directory elsewhere as it was. */
  lemma ElsewhereIsKept(t: Files, t': Files, d: Path, e: Path)
    requires OnlyWithin(t, t', d) && !(d <= e) && !(e <= d) && IsDir(t, e)
    ensures SameDir(t, t', e)
  {
    forall q ensures !(d <= e + q) {
      Apart(d, e, q);
    }
    forall q ensures q in Sub(t, e) <==> q in Sub(t', e)
             ensures q in Sub(t, e) ==> Sub(t, e)[q] == Sub(t', e)[q] {
    }
    assert Sub(t, e) == Sub(t', e);
    assert e + [] == e;
  }

  lemma ScriptSparesBackups(s: FileStep, volume: string, name: string)
    requires Real(s) && s.cmd.Script? && IsDir(s.before, DirOf(volume, name))
    ensures SameDir(s.before, s.after, DirOf(volume, name))
  {
    assert HOME[0] != DirOf(volume, name)[0];
    ElsewhereIsKept(s.before, s.after, HOME, DirOf(volume, name));
  }

  ghost predicate Holds(t: Tree, d: Path, files: Files) {
    IsDir(t, d) && Sub(t, d) == files
  }

  /** A backup that made its directory and all its copies leaves there exactly what the copies took. */
  lemma {:induction false} BackupKeeps(volume: string, name: string, locations: seq<string>, made: FileStep, copies: seq<FileStep>)
    requires Plain(volume) && Plain(name) && locations != []
    requires Real(made) && BackupStep(volume, name, locations, 0, made)
    requires BackupRan(volume, name, locations, copies)
    requires SameDir(made.after, copies[0].before, DirOf(volume, name))
    ensures Holds(copies[|locations| - 1].after, DirOf(volume, name), Captured(locations, copies, |locations|))
  {
    MkdirMakesEmpty(made.before, made.after, volume, name);
    BackupHolds(volume, name, locations, copies, |locations|);
  }

  lemma {:induction false} CopiesKeep(volume: string, name: string, locations: seq<string>, k: nat, steps: seq<FileStep>)
    requires Plain(volume) && Plain(name) && locations != []
    requires BackupSteps(volume, name, locations, k, steps)
    requires forall i | 0 <= i < |locations| :: Location(locations[i])
    ensures Holds(steps[k + |locations|].after, DirOf(volume, name),
                  Captured(locations, steps[k + 1..][..|locations|], |locations|))
  {
    var n := |locations|;
    var copies := steps[k + 1..][..n];
    CopiesRan(volume, name, locations, k, steps);
    assert BackupStep(volume, name, locations, 0, steps[k]);
    assert copies[0] == steps[k + 1] && copies[n - 1] == steps[k + n];
    assert LeftAlone(steps, k, DirOf(volume, name));
    BackupKeeps(volume, name, locations, steps[k], copies);
  }

  lemma ScriptStepKeeps(s: FileStep, before: Tree, volume: string, name: string, files: Files)
    requires Real(s) && s.cmd.Script? && SameDir(before, s.before, DirOf(volume, name))
    requires Holds(before, DirOf(volume, name), files)
    ensures Holds(s.after, DirOf(volume, name), files)
  {
    ScriptSparesBackups(s, volume, name);
  }

  lemma LastScriptKeeps(volume: string, name: string, locations: seq<string>, k: nat, steps: seq<FileStep>, files: Files)
    requires BackupSteps(volume, name, locations, k, steps) && k <= 1
    requires Holds(steps[k + |locations|].after, DirOf(volume, name), files)
    ensures Holds(steps[|steps| - 1].after, DirOf(volume, name), files)
  {
    var n := |locations|;
    if k == 1 {
      assert LeftAlone(steps, n + 1, DirOf(volume, name));
      assert BackupStep(volume, name, locations, n + 1, steps[n + 2]);
      ScriptStepKeeps(steps[n + 2], steps[n + 1].after, volume, name, files);
    }
  }

  /** What a complete backup run leaves in its directory: exactly what its copies took. */
  lemma BackedUpIs(volume: string, name: string, strategy: Strategy, events: seq<Event>, at: Progress, steps: seq<FileStep>)
    requires Plain(volume) && Plain(name) && BackedUp(volume, name, strategy, events, at, steps)
    requires Locations(strategy.options) != []
    ensures var locations, d := Locations(strategy.options), DirOf(volume, name);
            && |steps| > MkdirAt(strategy) + |locations|
            && var last := steps[|steps| - 1].after;
               IsDir(last, d) && Sub(last, d) == Captured(locations, CopiesOf(strategy, steps), |locations|)
  {
    BackedUpSteps(volume, name, strategy, events, at, steps);
    LocationsAre(strategy.options);
    var locations, k := Locations(strategy.options), MkdirAt(strategy);
    CopiesKeep(volume, name, locations, k, steps);
    LastScriptKeeps(volume, name, locations, k, steps, Captured(locations, CopiesOf(strategy, steps), |locations|));
  }

  /** What a stored RestoreCompleted = True says of the steps of that run's copies. */
  lemma RestoredSteps(volume: string, name: string, strategy: Strategy, restore: seq<Event>, at: Progress, n: nat,
                      steps: seq<FileStep>)
    requires RestoredTo(volume, name, strategy, restore, at, n, steps)
    ensures |steps| > 0 && RestoreRan(volume, name, Locations(strategy.options), steps)
  {
    RestoreCompletedIsHonest(volume, name, strategy, restore, at, n);
    var locations := Locations(strategy.options);
    LocationsAre(strategy.options);
    assert Attempts(restore) == Successes(volume, name, locations) != [];
    forall i | 0 <= i < |steps| ensures steps[i].ok && steps[i].cmd == RestoreCopy(volume, name, locations[i]) {
      SuccessesAt(volume, name, locations, i);
    }
  }

  /**
   * A complete backup run and a restore run that stored RestoreCompleted True: Jenkins is free to change
   * its home between the copies of the backup, the backup directory stays untouched from the one run to the
   * other, and the directories restored into are there when the restore starts.
   */
  ghost predicate BothRan(volume: string, name: string, taken: Strategy, backup: seq<Event>, done: Progress,
                          saved: seq<FileStep>, wanted: Strategy, restore: seq<Event>, at: Progress, n: nat, steps: seq<FileStep>) {
    && Plain(volume) && Plain(name) && Locations(taken.options) != []
    && BackedUp(volume, name, taken, backup, done, saved)
    && RestoredTo(volume, name, wanted, restore, at, n, steps)
    && (saved != [] && steps != [] ==>
          && SameDir(saved[|saved| - 1].after, steps[0].before, DirOf(volume, name))
          && Ready(steps[0].before, Locations(wanted.options)))
  }

  ghost predicate LaidOver(before: Tree, after: Tree, d: Path, locations: seq<string>) {
    after == Lay(before, HOME, View(Sub(before, d), locations))
  }

  lemma AllTaken(before: Tree, after: Tree, d: Path, locations: seq<string>, n: nat)
    requires n == |locations| && LaidOver(before, after, d, locations[..n])
    ensures LaidOver(before, after, d, locations)
  {
    assert locations[..n] == locations;
  }

  lemma {:induction false} RestoredFrom(volume: string, name: string, locations: seq<string>, steps: seq<FileStep>, n: nat)
    requires Plain(volume) && Plain(name) && RestoreRan(volume, name, locations, steps) && 0 < n == |locations|
    requires Ready(steps[0].before, locations)
    ensures LaidOver(steps[0].before, steps[n - 1].after, DirOf(volume, name), locations)
  {
    RestoreHolds(volume, name, locations, steps, n);
    AllTaken(steps[0].before, steps[n - 1].after, DirOf(volume, name), locations, n);
  }

  /**
   * The round trip of two runs: the restore turned the tree it found into that tree with the captured,
   * visible paths laid over the home directory.
   */
  lemma RestoreLaysTheBackup(volume: string, name: string, taken: Strategy, backup: seq<Event>, done: Progress,
                             saved: seq<FileStep>, wanted: Strategy, restore: seq<Event>, at: Progress, n: nat,
                             steps: seq<FileStep>)
    requires BothRan(volume, name, taken, backup, done, saved, wanted, restore, at, n, steps)
    ensures |steps| > 0 && |saved| >= MkdirAt(taken) + 1 + |Locations(taken.options)|
    ensures var captured := Captured(Locations(taken.options), CopiesOf(taken, saved), |Locations(taken.options)|);
            steps[|steps| - 1].after == Lay(steps[0].before, HOME, View(captured, Locations(wanted.options)))
  {
    BackedUpIs(volume, name, taken, backup, done, saved);
    RestoredSteps(volume, name, wanted, restore, at, n, steps);
    RestoredFrom(volume, name, Locations(wanted.options), steps, |steps|);
  }

  predicate Takes(locations: seq<string>, q: Path) {
    q != [] && exists i | 0 <= i < |locations| :: Matches(locations[i], q[0])
  }

  predicate Shown(locations: seq<string>, q: Path) {
    exists i | 0 <= i < |locations| :: Visible(locations[i], q)
  }

  /** A path of the home directory that the backup takes and the restore brings back. */
  predicate Comes(home: Files, taken: seq<string>, wanted: seq<string>, q: Path) {
    q in home && Takes(taken, q) && Shown(wanted, q)
  }

  /** The home directory is at rest while the backup copies it. */
  ghost predicate AtRest(home: Files, taken: Strategy, saved: seq<FileStep>) {
    forall i | MkdirAt(taken) < i < |saved| && i <= MkdirAt(taken) + |Locations(taken.options)| :: Sub(saved[i].before, HOME) == home
  }

  /**
   * The round trip, path by path, with the home directory at rest during the backup: after the restore
   * every path that was taken and is visible has its backup-time content, and every other path is as it
   * was when the restore started.
   */
  lemma BackupThenRestore(volume: string, name: string, taken: Strategy, backup: seq<Event>, done: Progress,
                          saved: seq<FileStep>, home: Files, wanted: Strategy, restore: seq<Event>, at: Progress, n: nat,
                          steps: seq<FileStep>, p: Path)
    requires BothRan(volume, name, taken, backup, done, saved, wanted, restore, at, n, steps)
    requires AtRest(home, taken, saved)
    ensures |steps| > 0
    ensures var before, after := steps[0].before, steps[|steps| - 1].after;
            if HOME <= p && Comes(home, Locations(taken.options), Locations(wanted.options), p[|HOME|..])
            then p in after && after[p] == home[p[|HOME|..]]
            else (p in after <==> p in before) && (p in after ==> after[p] == before[p])
  {
    RestoreLaysTheBackup(volume, name, taken, backup, done, saved, wanted, restore, at, n, steps);
    CopiesAtRest(home, taken, saved);
    CameBack(steps[0].before, home, Locations(taken.options), Locations(wanted.options), CopiesOf(taken, saved), p);
  }

  lemma CopiesAtRest(home: Files, taken: Strategy, saved: seq<FileStep>)
    requires |saved| >= MkdirAt(taken) + 1 + |Locations(taken.options)| && AtRest(home, taken, saved)
    ensures |CopiesOf(taken, saved)| == |Locations(taken.options)|
    ensures forall i | 0 <= i < |CopiesOf(taken, saved)| :: Sub(CopiesOf(taken, saved)[i].before, HOME) == home
  {
    var copies := CopiesOf(taken, saved);
    assert forall i | 0 <= i < |copies| :: copies[i] == saved[MkdirAt(taken) + 1 + i];
  }

  lemma CameBack(before: Files, home: Files, taken: seq<string>, wanted: seq<string>, copies: seq<FileStep>, p: Path)
    requires |copies| == |taken| && forall i | 0 <= i < |copies| :: Sub(copies[i].before, HOME) == home
    ensures var after := Lay(before, HOME, View(Captured(taken, copies, |copies|), wanted));
            if HOME <= p && Comes(home, taken, wanted, p[|HOME|..])
            then p in after && after[p] == home[p[|HOME|..]]
            else (p in after <==> p in before) && (p in after ==> after[p] == before[p])
  {
    var view := View(Captured(taken, copies, |copies|), wanted);
    if HOME <= p {
      ComesIsCaptured(home, taken, wanted, copies, p[|HOME|..]);
    }
    LaidAt(before, view, p);
  }

  lemma LaidAt(before: Files, view: Files, p: Path)
    ensures var after := Lay(before, HOME, view);
            if HOME <= p && p[|HOME|..] in view then p in after && after[p] == view[p[|HOME|..]]
            else (p in after <==> p in before) && (p in after ==> after[p] == before[p])
  {
    assert Laid(HOME, view, p) <==> HOME <= p && p[|HOME|..] in view;
  }

  lemma {:induction false} ComesIsCaptured(home: Files, taken: seq<string>, wanted: seq<string>, copies: seq<FileStep>, q: Path)
    requires |copies| == |taken| && forall i | 0 <= i < |copies| :: Sub(copies[i].before, HOME) == home
    ensures var view := View(Captured(taken, copies, |copies|), wanted);
            (q in view <==> Comes(home, taken, wanted, q)) && (q in view ==> view[q] == home[q])
  {
    var captured := Captured(taken, copies, |copies|);
    InView(captured, wanted, q);
    if q == [] {
      NoRootCaptured(taken, copies, |copies|);
    } else {
      CapturedTakes(home, taken, copies, q);
    }
  }

  lemma InView(files: Files, locations: seq<string>, q: Path)
    ensures q in View(files, locations) <==> q in files && Shown(locations, q)
    ensures q in View(files, locations) ==> View(files, locations)[q] == files[q]
  {
  }

  lemma {:induction false} CapturedTakes(home: Files, taken: seq<string>, copies: seq<FileStep>, q: Path)
    requires |copies| == |taken| && q != [] && forall i | 0 <= i < |copies| :: Sub(copies[i].before, HOME) == home
    ensures var captured := Captured(taken, copies, |copies|);
            (q in captured <==> q in home && Takes(taken, q)) && (q in captured ==> captured[q] == home[q])
  {
    CapturedIs(taken, copies, |copies|, home, q);
  }

  lemma {:induction false} NoRootCaptured(locations: seq<string>, steps: seq<FileStep>, n: nat)
    requires n <= |locations| && n <= |steps|
    ensures [] !in Captured(locations, steps, n)
  {
    if n > 0 {
      NoRootCaptured(locations, steps, n - 1);
    }
  }

  /** With the home directory at rest during the backup, each captured path has the content it had there. */
  lemma {:induction false} CapturedIs(locations: seq<string>, steps: seq<FileStep>, n: nat, home: Files, q: Path)
    requires n <= |locations| && n <= |steps| && q != []
    requires forall i | 0 <= i < n :: Sub(steps[i].before, HOME) == home
    ensures q in Captured(locations, steps, n) <==>
              q in home && exists i | 0 <= i < n :: Matches(locations[i], q[0])
    ensures q in Captured(locations, steps, n) ==> Captured(locations, steps, n)[q] == home[q]
  {
    if n > 0 {
      CapturedIs(locations, steps, n - 1, home, q);
      assert Take(steps[n - 1].before, locations[n - 1]) == Picked(home, locations[n - 1]);
    }
  }

  // ---- when a directory to restore into is missing ----------------------------------------

  function Repeat(name: string, n: nat): Path {
    if n == 0 then [] else [name] + Repeat(name, n - 1)
  }

  ghost function Longest(paths: set<Path>): (n: nat)
    ensures forall p | p in paths :: |p| <= n
  {
    if paths == {} then 0
    else
      var p :| p in paths;
      var rest := Longest(paths - {p});
      if |p| > rest then |p| else rest
  }

  lemma AsGraft(t: Tree, t': Tree, d: Path, location: string, name: string, dst: Path)
    requires CopiedAs(t, t', d + [location, "*"], name, dst)
    ensures t' == Graft(t, d + [location] + [name], Below(t, d + [location, "*"]), dst)
    ensures forall p | p in Below(t, d + [location, "*"]) :: d + [location] + [name] <= p
  {
    var word := d + [location, "*"];
    assert word[..|word| - 1] == d + [location];
  }

  lemma RepeatOnce(base: Path, name: string, n: nat)
    ensures base + [name] + Repeat(name, n) == base + Repeat(name, n + 1)
  {
    assert Repeat(name, n + 1) == [name] + Repeat(name, n);
  }

  /** If cp made dst a copy of base/name and base/name^n came back below it, base/name^(n+1) is there. */
  lemma OneDeeper(t: Tree, base: Path, name: string, chosen: set<Path>, dst: Path, n: nat)
    requires forall p | p in chosen :: p in t && base + [name] <= p
    requires !IsDir(t, dst) && n > 0 && dst + Repeat(name, n) in Graft(t, base + [name], chosen, dst)
    ensures base + Repeat(name, n + 1) in t
  {
    GraftedFrom(t, base + [name], chosen, dst, Repeat(name, n));
    RepeatOnce(base, name, n);
  }

  /** What is found below a copy that was no directory before came from below its source. */
  lemma GraftedFrom(t: Tree, src: Path, chosen: set<Path>, dst: Path, more: Path)
    requires forall p | p in chosen :: p in t && src <= p
    requires !IsDir(t, dst) && more != [] && dst + more in Graft(t, src, chosen, dst)
    ensures src + more in t
  {
    if dst + more in t {
      InsideDirs(t, dst, dst + more);
    }
    GraftOrigin(t, src, chosen, dst, dst + more);
    assert (dst + more)[|dst|..] == more;
  }

  lemma RepeatIsSeen(t: Tree, d: Path, location: string, name: string, n: nat)
    requires location != XML && n > 0 && Matches("*", name)
    requires d + [location] + Repeat(name, n) in t
    ensures [location] + Repeat(name, n) in Seen(Sub(t, d), location)
  {
    var q := [location] + Repeat(name, n);
    assert d + q == d + [location] + Repeat(name, n);
    assert q[1] == name;
  }

  lemma EntryIsThere(t: Tree, t': Tree, d: Path, location: string, name: string, home: Path)
    requires CopiedAs(t, t', d + [location, "*"], name, home + [location])
    ensures d + [location] + Repeat(name, 1) in t && Matches("*", name)
  {
    var word := d + [location, "*"];
    assert word[..|word| - 1] == d + [location];
    assert Repeat(name, 1) == [name];
    assert (d + [location] + [name])[|word| - 1] == name;
  }

  lemma {:induction false} EverDeeper(t: Tree, t': Tree, d: Path, location: string, name: string, home: Path, n: nat)
    requires location != XML && n > 0 && Matches("*", name)
    requires d + [location] + Repeat(name, 1) in t
    requires forall m: nat | m > 0 && home + [location] + Repeat(name, m) in t' :: d + [location] + Repeat(name, m + 1) in t
    requires forall q | q in Seen(Sub(t, d), location) :: home + q in t'
    ensures d + [location] + Repeat(name, n) in t
  {
    if n > 1 {
      EverDeeper(t, t', d, location, name, home, n - 1);
      RepeatIsSeen(t, d, location, name, n - 1);
      assert home + ([location] + Repeat(name, n - 1)) == home + [location] + Repeat(name, n - 1);
    }
  }

  lemma {:induction false} RepeatLength(name: string, n: nat)
    ensures |Repeat(name, n)| == n
  {
    if n > 0 {
      RepeatLength(name, n - 1);
    }
  }

  lemma NotAllComesBack(t: Tree, t': Tree, d: Path, location: string, name: string, home: Path)
    requires location != XML
    requires CopiedAs(t, t', d + [location, "*"], name, home + [location]) && !IsDir(t, home + [location])
    ensures exists q :: q in Seen(Sub(t, d), location) && home + q !in t'
  {
    if forall q | q in Seen(Sub(t, d), location) :: home + q in t' {
      var n := Longest(t.Keys) + 1;
      EntryIsThere(t, t', d, location, name, home);
      AsGraft(t, t', d, location, name, home + [location]);
      forall m: nat | m > 0 && home + [location] + Repeat(name, m) in t' ensures d + [location] + Repeat(name, m + 1) in t {
        OneDeeper(t, d + [location], name, Below(t, d + [location, "*"]), home + [location], m);
      }
      EverDeeper(t, t', d, location, name, home, n);
      RepeatLength(name, n);
      assert false;
    }
  }

  lemma LaidIsThere(t: Files, d: Path, files: Files)
    ensures forall q | q in files :: d + q in Lay(t, d, files) && Lay(t, d, files)[d + q] == files[q]
  {
    forall q | q in files ensures d + q in Lay(t, d, files) && Lay(t, d, files)[d + q] == files[q] {
      assert (d + q)[|d|..] == q;
    }
  }

  /**
   * A restore copy that succeeds puts jobs (or plugins) back if and only if the directory was there
   * before: where it is missing, cp makes it a copy of the one entry of the backup.
   */
  lemma RestoreNeedsItsDirectory(t: Tree, t': Tree, volume: string, name: string, location: string)
    requires Plain(volume) && Plain(name) && location in {"jobs", "plugins"}
    requires Performs(RestoreCopy(volume, name, location), true, t, t')
    ensures var saved := Seen(Sub(t, DirOf(volume, name)), location);
            (forall q | q in saved :: HOME + q in t' && t'[HOME + q] == saved[q]) <==> IsDir(t, HOME + [location])
  {
    var d := DirOf(volume, name);
    if IsDir(t, HOME + [location]) {
      RestoreGrafts(t, t', volume, name, location);
      GraftsLay(t, d, location, HOME);
      LaidIsThere(t, HOME, Seen(Sub(t, d), location));
    } else {
      RestoreWords(volume, name, location);
      var entry :| CopiedAs(t, t', d + [location, "*"], entry, HOME + [location]);
      NotAllComesBack(t, t', d, location, entry, HOME);
    }
  }

  function Prefixes(p: Path): set<Path> {
    set i | 0 <= i <= |p| :: p[..i]
  }

  /** A tree of directories with one file in it. */
  function OneFile(dir: Path, other: Path, entry: string, content: string): Files {
    (map p | p in Prefixes(dir) + Prefixes(other) :: Dir)[dir + [entry] := File(content)]
  }

  lemma OneFileIsTree(dir: Path, other: Path, entry: string, content: string)
    requires dir + [entry] !in Prefixes(dir) + Prefixes(other)
    ensures WellFormed(OneFile(dir, other, entry, content))
  {
    var t := OneFile(dir, other, entry, content);
    assert dir[..0] == [] && [] in Prefixes(dir);
    assert dir[..|dir|] == dir && dir in Prefixes(dir);
    forall p | p in t ensures Placed(t, p) {
      if p == dir + [entry] {
        assert p[..|p| - 1] == dir;
      } else if p != [] {
        var whole := if p in Prefixes(dir) then dir else other;
        var i :| 0 <= i <= |whole| && p == whole[..i];
        assert p[..|p| - 1] == whole[..i - 1];
        assert p[..|p| - 1] in Prefixes(whole);
      }
    }
  }

  lemma ShortPaths(d: Path, location: string, home: Path, p: Path)
    requires d != [] && home != [] && d[0] != home[0] && |home| <= |d|
    requires p in Prefixes(d + [location]) + Prefixes(home)
    ensures |p| <= |d| + 1 && p != home + [location]
  {
    if p in Prefixes(d + [location]) {
      var i :| 0 <= i <= |d| + 1 && p == (d + [location])[..i];
      assert i > 0 ==> p[0] == d[0];
    }
  }

  lemma OneFileBelow(d: Path, location: string, home: Path, entry: string, content: string)
    requires d != [] && home != [] && d[0] != home[0] && |home| <= |d| && Matches("*", entry)
    ensures var t, leaf := OneFile(d + [location], home, entry, content), d + [location] + [entry];
            && WellFormed(t) && Below(t, d + [location, "*"]) == {leaf} && t[leaf] == File(content)
            && IsDir(t, home) && home + [location] !in t
            && forall p | p in t && |p| > |d| + 1 :: p == leaf
  {
    var t, leaf, word := OneFile(d + [location], home, entry, content), d + [location] + [entry], d + [location, "*"];
    forall p | p in Prefixes(d + [location]) + Prefixes(home) ensures |p| <= |d| + 1 && p != home + [location] {
      ShortPaths(d, location, home, p);
    }
    OneFileIsTree(d + [location], home, entry, content);
    assert home[..|home|] == home && home in Prefixes(home);
    assert |home + [location]| < |leaf|;
    assert word[..|d| + 1] == d + [location] && leaf[..|d| + 1] == d + [location];
    forall p ensures p in Below(t, word) <==> p == leaf {
    }
  }

  lemma OneFileCopied(d: Path, location: string, home: Path, entry: string, content: string) returns (t: Tree, t': Tree)
    requires d != [] && home != [] && d[0] != home[0] && |home| <= |d| && Matches("*", entry)
    ensures t == OneFile(d + [location], home, entry, content) && !IsDir(t, home + [location])
    ensures CopiedAs(t, t', d + [location, "*"], entry, home + [location])
    ensures home + [location] in t' && t'[home + [location]] == File(content)
  {
    var leaf, word, dst := d + [location] + [entry], d + [location, "*"], home + [location];
    OneFileBelow(d, location, home, entry, content);
    t := OneFile(d + [location], home, entry, content);
    assert word[..|word| - 1] + [entry] == leaf && dst[..|dst| - 1] == home;
    assert leaf in Below(t, word);
    CopyAsKeepsTrees(t, word, entry, dst);
    t' := Graft(t, leaf, Below(t, word), dst);
    assert leaf + dst[|dst|..] == leaf && Hit(leaf, Below(t, word), dst, dst);
    assert !Selected(word, dst) by {
      assert |dst| <= |d| + 1;
    }
  }

  /**
   * And this happens: with one file in the backup's jobs (or plugins) and no such directory at home, cp
   * succeeds and puts that file in the directory's place.
   */
  lemma MissingDirectoryHappens(volume: string, name: string, location: string, entry: string, content: string)
    returns (t: Tree, t': Tree)
    requires Plain(volume) && Plain(name) && location in {"jobs", "plugins"}
    requires entry != "" && !Hidden(entry)
    ensures Performs(RestoreCopy(volume, name, location), true, t, t') && !IsDir(t, HOME + [location])
    ensures Seen(Sub(t, DirOf(volume, name)), location) == map[[location, entry] := File(content)]
    ensures HOME + [location] in t' && t'[HOME + [location]] == File(content)
  {
    var d := DirOf(volume, name);
    StarMatches("", entry);
    assert "*" + "" == "*" && entry[|entry|..] == "";
    OneFileBelow(d, location, HOME, entry, content);
    t, t' := OneFileCopied(d, location, HOME, entry, content);
    RestoreWords(volume, name, location);
    OneEntrySeen(t, d, location, entry, content);
  }

  lemma OneEntrySeen(t: Files, d: Path, location: string, entry: string, content: string)
    requires location != XML && d + [location] + [entry] in t && t[d + [location] + [entry]] == File(content)
    requires Matches("*", entry)
    requires forall p | p in t && |p| > |d| + 1 :: p == d + [location] + [entry]
    ensures Seen(Sub(t, d), location) == map[[location, entry] := File(content)]
  {
    var q0 := [location, entry];
    assert d + q0 == d + [location] + [entry];
    var seen := Seen(Sub(t, d), location);
    forall q ensures q in seen <==> q == q0 {
      if q in seen {
        assert d + q == d + q0 && (d + q)[|d|..] == q && (d + q0)[|d|..] == q0;
      }
    }
    assert seen[q0] == File(content);
  }

  lemma SelectedIsSeen(t: Files, d: Path, location: string, p: Path)
    requires p in Below(t, WordOf(d, location))
    ensures p[|d|..] in Seen(Sub(t, d), location)
  {
    var word := WordOf(d, location);
    assert word[..|d|] == d && p == d + p[|d|..];
    if location != XML {
      assert word[..|d| + 1] == d + [location];
      assert p[|d|] == location;
    }
  }

  lemma CopiedHasSource(t: Tree, t': Tree, from: string, to: string, word: Path)
    requires Copied(t, t', from, to) && word == Components(from) != []
    ensures Below(t, word) != {}
  {
    if !IsDir(t, Components(to)) {
      var name :| CopiedAs(t, t', word, name, Components(to));
      assert word[..|word| - 1] + [name] in Below(t, word);
    }
  }

  /** A successful restore copy had something visible to copy; an empty jobs or plugins directory does not come back. */
  lemma RestoreNeedsEntries(t: Tree, t': Tree, volume: string, name: string, location: string)
    requires Plain(volume) && Plain(name) && Location(location)
    requires Performs(RestoreCopy(volume, name, location), true, t, t')
    ensures Seen(Sub(t, DirOf(volume, name)), location) != map[]
  {
    var c, d := RestoreCopy(volume, name, location), DirOf(volume, name);
    RestoreWords(volume, name, location);
    CopiedHasSource(t, t', c.from, c.to, Components(c.from));
    var p :| p in Below(t, Components(c.from));
    SelectedIsSeen(t, d, location, p);
  }

  // ---- a backup that happens --------------------------------------------------------------

  lemma OnlyEntry(t: Files, d: Path, entry: string, content: string)
    requires d + [entry] in t && t[d + [entry]] == File(content)
    requires forall p | p in t && d < p :: p == d + [entry]
    ensures Sub(t, d) == map[[entry] := File(content)]
  {
    forall q ensures q in Sub(t, d) <==> q == [entry] {
      if q != [] && d + q in t {
        assert d < d + q && (d + q)[|d|..] == q && (d + [entry])[|d|..] == [entry];
      }
    }
    assert Sub(t, d)[[entry]] == File(content);
  }

  lemma NothingIn(t: Files, d: Path)
    requires forall p | p in t :: !(d < p)
    ensures Sub(t, d) == map[]
  {
    forall q ensures q !in Sub(t, d) {
      assert q != [] ==> d < d + q;
    }
  }

  lemma MatchingTaken(t: Tree, home: Path, d: Path, pattern: string, entry: string, content: string)
    requires IsDir(t, d) && Matches(pattern, entry)
    requires home + [entry] in t && t[home + [entry]] == File(content)
    requires forall p | p in t && home < p :: p == home + [entry]
    requires forall p | p in t :: !(d < p)
    ensures Sub(Graft(t, home, Below(t, home + [pattern]), d), d) == map[[entry] := File(content)]
  {
    OnlyEntry(t, home, entry, content);
    NothingIn(t, d);
    GraftTakes(t, home, pattern, d);
    assert Picked(Sub(t, home), pattern) == Sub(t, home);
  }

  lemma CopyMatching(t: Tree, home: Path, d: Path, pattern: string, entry: string, content: string) returns (t': Tree)
    requires IsDir(t, d) && d != [] && home != [] && d[0] != home[0] && Matches(pattern, entry)
    requires home + [entry] in t && t[home + [entry]] == File(content)
    requires forall p | p in t && home < p :: p == home + [entry]
    requires forall p | p in t :: !(d < p)
    ensures CopiedInto(t, t', home + [pattern], d) && IsDir(t', d)
    ensures Sub(t', d) == map[[entry] := File(content)]
  {
    MatchingTaken(t, home, d, pattern, entry, content);
    var word, leaf := home + [pattern], home + [entry];
    assert word[..|home|] == home && leaf[..|home|] == home && leaf[|home|] == entry;
    assert leaf in Below(t, word);
    forall p | p in Below(t, word) ensures p == leaf && d + p[|home|..] !in t {
      assert home < p;
      assert leaf[|home|..] == [entry] && d < d + [entry];
    }
    CopyKeepsTrees(t, word, d);
    CopyKeepsDirs(t, word, d, d);
    t' := Graft(t, home, Below(t, word), d);
  }

  lemma FileBeside(home: Path, base: Path, entry: string, content: string)
    requires home != [] && base != [] && home[0] != base[0]
    ensures var t, leaf := OneFile(home, base, entry, content), home + [entry];
            && WellFormed(t) && IsDir(t, base) && t[leaf] == File(content)
            && (forall p | p in t && home < p :: p == leaf)
            && (forall p | p in t :: !(base < p))
  {
    var t, leaf := OneFile(home, base, entry, content), home + [entry];
    forall p | p in Prefixes(home) + Prefixes(base) ensures !(home < p) && !(base < p) && p != leaf {
      if p in Prefixes(home) && p != [] {
        assert p[0] == home[0];
      } else if p != [] {
        assert p[0] == base[0];
      }
    }
    OneFileIsTree(home, base, entry, content);
    assert base[..|base|] == base && base in Prefixes(base);
    assert !(base < leaf) by {
      assert leaf[0] == home[0];
    }
  }

  /** A tree with one file at home, a volume, and a directory just made in it. */
  lemma MadeIn(volume: string, name: string, entry: string, content: string) returns (t: Tree, t': Tree)
    requires Plain(volume) && Plain(name)
    ensures Performs(Mkdir(BackupDir(volume, name) + "/"), true, t, t') && IsDir(t', DirOf(volume, name))
    ensures HOME + [entry] in t' && t'[HOME + [entry]] == File(content)
    ensures forall p | p in t' && HOME < p :: p == HOME + [entry]
    ensures forall p | p in t' :: !(DirOf(volume, name) < p)
  {
    var base := ["jenkins-backups", volume];
    assert DirOf(volume, name) == base + [name];
    FileBeside(HOME, base, entry, content);
    t := OneFile(HOME, base, entry, content);
    t' := OneMore(t, base, name, HOME);
    DirComponents(volume, name, "jobs");
  }

  /** A directory just made below an empty one; elsewhere nothing changes. */
  lemma OneMore(t: Tree, base: Path, name: string, home: Path) returns (t': Tree)
    requires base != [] && home != [] && base[0] != home[0] && IsDir(t, base) && forall p | p in t :: !(base < p)
    ensures var d := base + [name];
            && d !in t && IsDir(t, d[..|d| - 1]) && t' == t[d := Dir]
            && (forall p | p in t' && home <= p :: p in t)
            && (forall p | p in t' :: !(d < p))
  {
    var d := base + [name];
    assert base < d && d[..|d| - 1] == base && d[0] == base[0];
    MkdirKeepsTree(t, d);
    t' := t[d := Dir];
    forall p | p in t' ensures !(d < p) {
      Longer(base, d, p);
    }
  }

  lemma Longer(base: Path, d: Path, p: Path)
    requires base <= d
    ensures d < p ==> base < p && p != d
  {
  }

  lemma MkdirKeepsTree(t: Tree, d: Path)
    requires d !in t && d != [] && IsDir(t, d[..|d| - 1])
    ensures WellFormed(t[d := Dir])
  {
    var t' := t[d := Dir];
    forall p | p in t' ensures Placed(t', p) {
      if p != d {
        assert Placed(t, p);
      }
    }
  }

  /** mkdir and the copy of the configuration files of a home that has one such file. */
  lemma MadeAndCopied(volume: string, name: string, base: string, content: string) returns (made: FileStep, copied: FileStep)
    requires Plain(volume) && Plain(name) && base != "" && !Hidden(base)
    ensures Real(made) && made.ok && made.cmd == Mkdir(BackupDir(volume, name) + "/")
    ensures Real(copied) && copied.ok && copied.cmd == BackupCopy(volume, name, XML)
    ensures made.after == copied.before && IsDir(made.after, DirOf(volume, name)) && IsDir(copied.after, DirOf(volume, name))
    ensures Sub(copied.before, HOME) == Sub(copied.after, DirOf(volume, name)) == map[[base + ".xml"] := File(content)]
  {
    var d := DirOf(volume, name);
    StarMatches(".xml", base + ".xml");
    assert (base + ".xml")[|base|..] == ".xml" && "*" + ".xml" == XML;
    var t, t' := MadeIn(volume, name, base + ".xml", content);
    var t'' := CopyMatching(t', HOME, d, XML, base + ".xml", content);
    OnlyEntry(t', HOME, base + ".xml", content);
    BackupWords(volume, name, XML);
    made := FileStep(Mkdir(BackupDir(volume, name) + "/"), true, t, t');
    copied := FileStep(BackupCopy(volume, name, XML), true, t', t'');
  }

  lemma Idle(cmd: Command, ok: bool, t: Tree) returns (s: FileStep)
    requires cmd.Script?
    ensures Real(s) && s == FileStep(cmd, ok, t, t)
  {
    s := FileStep(cmd, ok, t, t);
  }

  lemma MadeAndCopiedShow(made: FileStep, copied: FileStep, tried: seq<Attempt>, k: nat, d: Path) returns (steps: seq<FileStep>)
    requires Real(made) && Real(copied) && made.after == copied.before && IsDir(made.after, d) && IsDir(copied.after, d)
    requires k <= 1 && |tried| == 2 + k + k
    requires tried[k] == Attempt(made.cmd, made.ok) && tried[k + 1] == Attempt(copied.cmd, copied.ok)
    requires k == 1 ==> tried[0].cmd.Script? && tried[3].cmd.Script?
    ensures Shows(steps, tried) && forall i: nat | k <= i && i + 1 < |steps| :: LeftAlone(steps, i, d)
    ensures |steps| == 2 + k + k && steps[k + 1] == copied && steps[|steps| - 1].after == copied.after
  {
    if k == 1 {
      var first := Idle(tried[0].cmd, tried[0].ok, made.before);
      var last := Idle(tried[3].cmd, tried[3].ok, copied.after);
      steps := [first, made, copied, last];
    } else {
      steps := [made, copied];
    }
    ShowsAll(steps, tried);
  }

  /** There are complete backups, with and without quiet-down: here of a home with one configuration file. */
  lemma BackedUpHappens(volume: string, name: string, strategy: Strategy, base: string, content: string)
    returns (events: seq<Event>, at: Progress, steps: seq<FileStep>)
    requires Plain(volume) && Plain(name) && base != "" && !Hidden(base)
    requires strategy.options == Options(true, false, false)
    ensures BackedUp(volume, name, strategy, events, at, steps)
    ensures AtRest(map[[base + ".xml"] := File(content)], strategy, steps)
    ensures |steps| > 0 && Holds(steps[|steps| - 1].after, DirOf(volume, name), map[[base + ".xml"] := File(content)])
  {
    events, at := ConfigBackedUp(volume, name, strategy);
    steps := ConfigSteps(volume, name, base, content, Tried(events), MkdirAt(strategy));
    OnlyCopyAtRest(map[[base + ".xml"] := File(content)], strategy, steps);
  }

  /** The steps that go with such a run, in a home with one configuration file. */
  lemma ConfigSteps(volume: string, name: string, base: string, content: string, tried: seq<Attempt>, k: nat)
    returns (steps: seq<FileStep>)
    requires Plain(volume) && Plain(name) && base != "" && !Hidden(base)
    requires ConfigTried(volume, name, tried, k)
    ensures Shows(steps, tried) && |steps| == 2 + k + k
    ensures forall i: nat | k <= i && i + 1 < |steps| :: LeftAlone(steps, i, DirOf(volume, name))
    ensures Sub(steps[k + 1].before, HOME) == map[[base + ".xml"] := File(content)]
    ensures Holds(steps[|steps| - 1].after, DirOf(volume, name), map[[base + ".xml"] := File(content)])
  {
    var made, copied := MadeAndCopied(volume, name, base, content);
    steps := MadeAndCopiedShow(made, copied, tried, k, DirOf(volume, name));
  }

  /** What a backup of the configuration files tries: mkdir and one copy, between k scripts and k scripts. */
  predicate ConfigTried(volume: string, name: string, tried: seq<Attempt>, k: nat) {
    && k <= 1 && |tried| == 2 + k + k
    && tried[k] == Attempt(Mkdir(BackupDir(volume, name) + "/"), true)
    && tried[k + 1] == Attempt(BackupCopy(volume, name, XML), true)
    && (k == 1 ==> tried[0].cmd.Script? && tried[3].cmd.Script?)
  }

  lemma ConfigLocations(options: Options)
    requires options == Options(true, false, false)
    ensures Locations(options) == [XML] && |Locations(options)| == 1
  {
    assert Locations(options) == [XML] + [] + [];
  }

  lemma OnlyCopyAtRest(home: Files, strategy: Strategy, steps: seq<FileStep>)
    requires strategy.options == Options(true, false, false)
    requires MkdirAt(strategy) + 1 < |steps| && Sub(steps[MkdirAt(strategy) + 1].before, HOME) == home
    ensures AtRest(home, strategy, steps)
  {
    ConfigLocations(strategy.options);
  }

  /** The run of a backup of the configuration files, everything going well. */
  lemma ConfigBackedUp(volume: string, name: string, strategy: Strategy) returns (events: seq<Event>, at: Progress)
    requires strategy.options == Options(true, false, false)
    ensures Reaches(BackupJob(volume, name, strategy), events, at) && StoresDone(events) && FilesSucceed(events)
    ensures ConfigTried(volume, name, Tried(events), MkdirAt(strategy))
  {
    events, at := CompletePath(ProgramOf(BackupJob(volume, name, strategy)), map[], (c: Command) => true);
    BackupCompletedIff(volume, name, strategy, events, at);
    CompleteBackup(volume, name, strategy, events, at);
    ConfigLocations(strategy.options);
  }

  /** A tree that has lost the file from its home but still has the backup of it, and the restore of that. */
  lemma LostAndRestored(volume: string, name: string, base: string, content: string) returns (s: FileStep)
    requires Plain(volume) && Plain(name) && base != "" && !Hidden(base)
    ensures Real(s) && s.ok && s.cmd == RestoreCopy(volume, name, XML)
    ensures IsDir(s.before, HOME) && IsDir(s.before, DirOf(volume, name))
    ensures Sub(s.before, DirOf(volume, name)) == map[[base + ".xml"] := File(content)] && Sub(s.before, HOME) == map[]
    ensures Sub(s.after, HOME) == map[[base + ".xml"] := File(content)]
  {
    var d, entry := DirOf(volume, name), base + ".xml";
    StarMatches(".xml", entry);
    assert entry[|base|..] == ".xml" && "*" + ".xml" == XML;
    FileBeside(d, HOME, entry, content);
    var t: Tree := OneFile(d, HOME, entry, content);
    assert d[..|d|] == d && d in Prefixes(d);
    OnlyEntry(t, d, entry, content);
    NothingIn(t, HOME);
    var t' := CopyMatching(t, d, HOME, XML, entry, content);
    RestoreWords(volume, name, XML);
    s := FileStep(RestoreCopy(volume, name, XML), true, t, t');
  }

  /** The run of a restore of the configuration files without a restart, everything going well. */
  lemma ConfigRestored(volume: string, name: string, strategy: Strategy) returns (events: seq<Event>, at: Progress)
    requires strategy.options == Options(true, false, false) && !strategy.restart
    ensures Reaches(RestoreJob(volume, name, strategy), events, at) && at.rest.Halt? && WritesSucceed(events)
    ensures |events| == 5 && events[3].Updated?
    ensures RestoreCompleted in events[3].conditions && events[3].conditions[RestoreCompleted]
    ensures Attempts(events) == [Attempt(RestoreCopy(volume, name, XML), true)]
  {
    var copy := RestoreCopy(volume, name, XML);
    ConfigLocations(strategy.options);
    assert [XML][1..] == [];
    var p := RestoreProgram(volume, name, strategy);
    assert p.inited.next.next == RestoreCopiesThen(volume, name, [XML], Update(Halt));
    assert RestoreCopiesThen(volume, name, [], Update(Halt)) == Set(RestoreCompleted, true, Update(Update(Halt)));
    events, at := OneCopyPath(p, copy);
    OneCopyAttempt(events, copy);
  }

  const STARTED: Conditions := map[RestoreInitialized := true]
  const RESTORED: Conditions := map[RestoreInitialized := true, RestoreCompleted := true]

  function OneCopyEvents(copy: Command): seq<Event> {
    [Inited(true), Updated(STARTED, true), Ran(copy, true), Updated(RESTORED, true), Updated(RESTORED, true)]
  }

  lemma OneCopyPath(p: Program, copy: Command) returns (events: seq<Event>, at: Progress)
    requires p.InitClient? && p.inited.Set? && p.inited.condition == RestoreInitialized && p.inited.status && p.inited.next.Update?
    requires var q := p.inited.next.next;
             q.Exec? && q.cmd == copy && q.ok == Set(RestoreCompleted, true, Update(Update(Halt)))
    ensures Follow(Progress(p, map[]), events) == Some(at) && at.rest.Halt? && events == OneCopyEvents(copy)
  {
    var start: Conditions := map[];
    var q := p.inited.next.next;
    assert start[RestoreInitialized := true] == STARTED && STARTED[RestoreCompleted := true] == RESTORED;
    events, at := [], Progress(Halt, RESTORED);
    events, at := Onward(Update(Halt), RESTORED, Updated(RESTORED, true), Halt, events, at);
    events, at := Onward(Update(Update(Halt)), RESTORED, Updated(RESTORED, true), Update(Halt), events, at);
    assert Settle(Progress(q.ok, STARTED)) == Progress(Update(Update(Halt)), RESTORED);
    FollowSettled(Progress(q.ok, STARTED), events);
    events, at := Onward(q, STARTED, Ran(copy, true), q.ok, events, at);
    events, at := Onward(p.inited.next, STARTED, Updated(STARTED, true), q, events, at);
    assert Settle(Progress(p.inited, start)) == Progress(p.inited.next, STARTED);
    FollowSettled(Progress(p.inited, start), events);
    events, at := Onward(p, start, Inited(true), p.inited, events, at);
  }

  lemma OneCopyAttempt(events: seq<Event>, copy: Command)
    requires events == OneCopyEvents(copy) && copy.Copy?
    ensures Attempts(events) == [Attempt(copy, true)] && WritesSucceed(events)
  {
    var end := events[3..];
    var written := Updated(RESTORED, true);
    assert end == [written, written] && end[1..] == [written] && [written][1..] == [];
    assert Attempts([written]) == [] && Attempts(end) == Attempts(end[1..]);
    var ran := events[2..];
    assert ran == [Ran(copy, true)] + end && ran[1..] == end;
    assert Attempts(ran) == [Attempt(ran[0].cmd, ran[0].ok)] + Attempts(ran[1..]) == [Attempt(copy, true)];
    assert events[1..][1..] == ran && Attempts(events[1..]) == Attempts(ran);
  }

  /**
   * There are complete round trips: a configuration file is backed up, with or without a quiet-down, is lost
   * from the home directory, and comes back with its content.
   */
  lemma RoundTripHappens(volume: string, name: string, taken: Strategy, wanted: Strategy, base: string, content: string)
    returns (backup: seq<Event>, done: Progress, saved: seq<FileStep>, restore: seq<Event>, at: Progress, steps: seq<FileStep>)
    requires Plain(volume) && Plain(name) && base != "" && !Hidden(base)
    requires taken.options == wanted.options == Options(true, false, false) && !wanted.restart
    ensures BothRan(volume, name, taken, backup, done, saved, wanted, restore, at, 3, steps)
    ensures var home := map[[base + ".xml"] := File(content)];
            && AtRest(home, taken, saved)
            && |steps| > 0 && Sub(steps[0].before, HOME) == map[] && Sub(steps[|steps| - 1].after, HOME) == home
  {
    backup, done, saved := BackedUpHappens(volume, name, taken, base, content);
    restore, at := ConfigRestored(volume, name, wanted);
    var s := LostAndRestored(volume, name, base, content);
    steps := [s];
    ConfigLocations(taken.options);
    ConfigLocations(wanted.options);
    ShowsAll(steps, Attempts(restore));
  }

  lemma ShowsAll(steps: seq<FileStep>, tried: seq<Attempt>)
    requires |steps| == |tried|
    requires forall i | 0 <= i < |steps| :: steps[i].cmd == tried[i].cmd && steps[i].ok == tried[i].ok && Real(steps[i])
    ensures Shows(steps, tried)
  {
  }
}
