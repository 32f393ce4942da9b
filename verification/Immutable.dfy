/**
 * Backups are written once. Any number of backup runs share a volume, their commands interleaved in
 * any order and failing in any way; a directory that exists is never written to by a run that did
 * not make it.
 */
module Immutable {
  import opened Text
  import opened Programs
  import opened Grammar
  import opened BackupOutcome
  import opened FileTree
  import opened RoundTrip

  datatype SharedStep = SharedStep(run: nat, step: FileStep)

  /** What the history shows of one run. */
  function Of(history: seq<SharedStep>, run: nat): seq<Attempt> {
    if history == [] then []
    else
      var last := history[|history| - 1];
      Of(history[..|history| - 1], run) + if last.run == run then [Attempt(last.step.cmd, last.step.ok)] else []
  }

  predicate Agree(t: Files, t': Files, d: Path) {
    && (forall p | p in t && d <= p :: p in t' && t'[p] == t[p])
    && (forall p | p in t' && d <= p :: p in t)
  }

  ghost predicate Behaves(job: Job, tried: seq<Attempt>) {
    exists events, at :: Reaches(job, events, at) && Tried(events) == tried
  }

  /** Between step k and the next, nobody else touches the volumes. */
  ghost predicate VolumesKept(history: seq<SharedStep>, k: nat)
    requires k + 1 < |history|
  {
    Agree(history[k].step.after, history[k + 1].step.before, ["jenkins-backups"])
  }

  /** A history of backup runs on shared volumes; others may do what they like elsewhere in between. */
  ghost predicate Shared(history: seq<SharedStep>, jobs: seq<Job>) {
    && (forall r | 0 <= r < |jobs| ::
          && jobs[r].BackupJob? && Plain(jobs[r].volume) && Plain(jobs[r].name)
          && Behaves(jobs[r], Of(history, r)))
    && (forall k | 0 <= k < |history| :: history[k].run < |jobs|)
    && (forall k {:trigger Real(history[k].step)} | 0 <= k < |history| :: Real(history[k].step))
    && (forall k: nat | k + 1 < |history| :: VolumesKept(history, k))
  }

  predicate Makes(s: SharedStep, d: Path) {
    s.step.ok && s.step.cmd.Mkdir? && Components(s.step.cmd.dir) == d
  }

  /** None of the first i steps is one of this run that makes the directory. */
  predicate NotMadeBy(history: seq<SharedStep>, i: nat, run: nat, d: Path)
    requires i <= |history|
  {
    forall m | 0 <= m < i && history[m].run == run :: !Makes(history[m], d)
  }

  // ---- from the grammar -------------------------------------------------------------------

  /** A run only makes its own directory and copies into it, and copies only once it has made it. */
  ghost predicate Orderly(job: Job, tried: seq<Attempt>, j: nat)
    requires j < |tried|
  {
    var dir := BackupDir(job.volume, job.name) + "/";
    && (tried[j].cmd.Mkdir? ==> tried[j].cmd.dir == dir)
    && (tried[j].cmd.Copy? ==> tried[j].cmd.to == dir && Attempt(Mkdir(dir), true) in tried[..j])
  }

  lemma CopiesNeedMkdir(job: Job, tried: seq<Attempt>, j: nat)
    requires job.BackupJob? && Behaves(job, tried) && j < |tried|
    ensures Orderly(job, tried, j)
  {
    var events, at :| Reaches(job, events, at) && Tried(events) == tried;
    RunIsOrderly(job, events, at, j);
  }

  lemma RunIsOrderly(job: Job, events: seq<Event>, at: Progress, j: nat)
    requires job.BackupJob? && Reaches(job, events, at) && j < |Tried(events)|
    ensures Orderly(job, Tried(events), j)
  {
    var tried, k, made := Tried(events), MkdirAt(job.strategy), Made(events) != Some(false);
    var cmds := Expected(job.volume, job.name, job.strategy, made);
    TriedAt(job, events, at);
    ExpectedShape(job.volume, job.name, job.strategy, made, j);
    assert tried[j].cmd == cmds[j];
    if tried[j].cmd.Copy? {
      assert forall i | 0 <= i <= k :: tried[i].cmd == cmds[i];
      MadeIsFirstMkdir(events, k);
      assert tried[..j][k] == tried[k] == Attempt(cmds[k], true);
    }
  }

  lemma TriedAt(job: Job, events: seq<Event>, at: Progress)
    requires job.BackupJob? && Reaches(job, events, at)
    ensures var tried, cmds := Tried(events), Expected(job.volume, job.name, job.strategy, Made(events) != Some(false));
            |tried| <= |cmds| && forall i | 0 <= i < |tried| :: tried[i].cmd == cmds[i]
  {
    BackupGrammar(job.volume, job.name, job.strategy, events, at);
    TriedCommands(events);
  }

  lemma {:induction false} OfPrefix(history: seq<SharedStep>, run: nat, k: nat)
    requires k <= |history|
    ensures Of(history[..k], run) <= Of(history, run)
  {
    if k < |history| {
      OfPrefix(history[..|history| - 1], run, k);
      assert history[..|history| - 1][..k] == history[..k];
    } else {
      assert history[..k] == history;
    }
  }

  lemma {:induction false} OfComesFrom(history: seq<SharedStep>, run: nat, a: Attempt)
    requires a in Of(history, run)
    ensures exists m | 0 <= m < |history| ::
              history[m].run == run && Attempt(history[m].step.cmd, history[m].step.ok) == a
  {
    var n := |history| - 1;
    if a in Of(history[..n], run) {
      OfComesFrom(history[..n], run, a);
      var m :| 0 <= m < n && history[..n][m].run == run &&
        Attempt(history[..n][m].step.cmd, history[..n][m].step.ok) == a;
      assert history[m] == history[..n][m];
    } else {
      assert history[n].run == run;
    }
  }

  /** In the history, a run's copy comes after a mkdir of its own that succeeded. */
  lemma CopyComesAfterMkdir(history: seq<SharedStep>, jobs: seq<Job>, k: nat)
    requires Shared(history, jobs) && k < |history|
    ensures var s := history[k];
            var dir := BackupDir(jobs[s.run].volume, jobs[s.run].name) + "/";
            && (s.step.cmd.Mkdir? ==> s.step.cmd.dir == dir)
            && (s.step.cmd.Copy? ==>
                  && s.step.cmd.to == dir
                  && exists m | 0 <= m < k :: history[m].run == s.run && history[m].step.ok && history[m].step.cmd == Mkdir(dir))
  {
    var r := history[k].run;
    var before := Of(history[..k], r);
    OfPrefix(history, r, k);
    OfPrefix(history, r, k + 1);
    assert history[..k + 1][..k] == history[..k];
    assert Of(history, r)[|before|] == Attempt(history[k].step.cmd, history[k].step.ok);
    CopiesNeedMkdir(jobs[r], Of(history, r), |before|);
    if history[k].step.cmd.Copy? {
      var a := Attempt(Mkdir(BackupDir(jobs[r].volume, jobs[r].name) + "/"), true);
      assert a in before;
      OfComesFrom(history[..k], r, a);
    }
  }

  // ---- on the trees -----------------------------------------------------------------------

  lemma CopiedIsWithin(t: Tree, t': Tree, from: string, to: string)
    requires Copied(t, t', from, to)
    ensures OnlyWithin(t, t', Components(to))
  {
    var word, dst := Components(from), Components(to);
    if IsDir(t, dst) {
      var base := word[..|word| - 1];
      assert base + dst[|dst|..] == base && !Selected(word, base);
    }
  }

  lemma MkdirIsWithin(t: Tree, t': Tree, dir: string, ok: bool)
    requires Performs(Mkdir(dir), ok, t, t')
    ensures OnlyWithin(t, t', Components(dir))
  {
  }

  lemma StepWithin(history: seq<SharedStep>, jobs: seq<Job>, k: nat)
    requires Shared(history, jobs) && k < |history|
    ensures var s := history[k];
            OnlyWithin(s.step.before, s.step.after,
                       if s.step.cmd.Script? then HOME else DirOf(jobs[s.run].volume, jobs[s.run].name))
  {
    var s := history[k].step;
    var job := jobs[history[k].run];
    assert Real(s);
    CopyComesAfterMkdir(history, jobs, k);
    DirComponents(job.volume, job.name, "jobs");
    if s.cmd.Copy? && s.ok {
      CopiedIsWithin(s.before, s.after, s.cmd.from, s.cmd.to);
    } else if s.cmd.Mkdir? {
      MkdirIsWithin(s.before, s.after, s.cmd.dir, s.ok);
    }
  }

  lemma DirIsKept(t: Files, t': Files, t'': Files, d: Path, e: Path, root: Path)
    requires OnlyWithin(t, t', d) && |d| == |e| && IsDir(t, e)
    requires Agree(t', t'', root) && root <= e
    ensures IsDir(t', e) && IsDir(t'', e)
  {
    assert d <= e ==> d == e;
  }

  lemma StepKeepsDir(history: seq<SharedStep>, jobs: seq<Job>, k: nat, volume: string, name: string)
    requires Shared(history, jobs) && k + 1 < |history|
    requires IsDir(history[k].step.before, DirOf(volume, name))
    ensures IsDir(history[k + 1].step.before, DirOf(volume, name))
  {
    var s, next := history[k], history[k + 1].step.before;
    StepWithin(history, jobs, k);
    var within := if s.step.cmd.Script? then HOME else DirOf(jobs[s.run].volume, jobs[s.run].name);
    assert VolumesKept(history, k);
    DirIsKept(s.step.before, s.step.after, next, within, DirOf(volume, name), ["jenkins-backups"]);
  }

  /** A backup directory, once there, stays there. */
  lemma {:induction false} DirStays(history: seq<SharedStep>, jobs: seq<Job>, i: nat, k: nat, volume: string, name: string)
    requires Shared(history, jobs) && i <= k < |history|
    requires IsDir(history[i].step.before, DirOf(volume, name))
    ensures IsDir(history[k].step.before, DirOf(volume, name))
  {
    if i < k {
      DirStays(history, jobs, i, k - 1, volume, name);
      StepKeepsDir(history, jobs, k - 1, volume, name);
    }
  }

  /**
   * A backup directory that exists at step i keeps its content through every later step of a run that
   * had not made it by then: that run's mkdir fails, and a failed mkdir skips its copies.
   */
  lemma ExistingBackupsAreImmutable(history: seq<SharedStep>, jobs: seq<Job>, i: nat, j: nat, volume: string, name: string)
    requires Shared(history, jobs) && i <= j < |history| && Plain(volume) && Plain(name)
    requires IsDir(history[i].step.before, DirOf(volume, name))
    requires NotMadeBy(history, i, history[j].run, DirOf(volume, name))
    ensures SameDir(history[j].step.before, history[j].step.after, DirOf(volume, name))
  {
    var d := DirOf(volume, name);
    var s := history[j].step;
    var job := jobs[history[j].run];
    var own := DirOf(job.volume, job.name);
    DirStays(history, jobs, i, j, volume, name);
    StepWithin(history, jobs, j);
    CopyComesAfterMkdir(history, jobs, j);
    DirComponents(job.volume, job.name, "jobs");
    assert Real(s);
    if s.cmd.Script? {
      assert HOME[0] != d[0];
      ElsewhereIsKept(s.before, s.after, HOME, d);
    } else if own != d {
      ElsewhereIsKept(s.before, s.after, own, d);
    } else if s.cmd.Copy? {
      var m :| 0 <= m < j && history[m].run == history[j].run && history[m].step.ok &&
        history[m].step.cmd == Mkdir(BackupDir(job.volume, job.name) + "/");
      assert Makes(history[m], d);
      assert Real(history[m].step);
      DirStays(history, jobs, i, m, volume, name);
      assert false;
    }
  }

  /** So only the run that made a directory ever writes into it. */
  lemma OneWriterPerBackup(history: seq<SharedStep>, jobs: seq<Job>, i: nat, j: nat, volume: string, name: string)
    requires Shared(history, jobs) && i < j < |history| && Plain(volume) && Plain(name)
    requires Makes(history[i], DirOf(volume, name)) && history[j].run != history[i].run
    ensures SameDir(history[j].step.before, history[j].step.after, DirOf(volume, name))
  {
    MadeByOne(history, jobs, i, history[j].run, volume, name);
    MadeIsThere(history, jobs, i, volume, name);
    ExistingBackupsAreImmutable(history, jobs, i + 1, j, volume, name);
  }

  lemma MadeByOne(history: seq<SharedStep>, jobs: seq<Job>, i: nat, run: nat, volume: string, name: string)
    requires Shared(history, jobs) && i + 1 < |history| && Makes(history[i], DirOf(volume, name)) && history[i].run != run
    ensures NotMadeBy(history, i + 1, run, DirOf(volume, name))
  {
    forall m: nat | m < i ensures !Makes(history[m], DirOf(volume, name)) {
      MadeOnce(history, jobs, m, i, volume, name);
    }
  }

  lemma MadeOnce(history: seq<SharedStep>, jobs: seq<Job>, m: nat, i: nat, volume: string, name: string)
    requires Shared(history, jobs) && m < i && i + 1 < |history| && Makes(history[i], DirOf(volume, name))
    ensures !Makes(history[m], DirOf(volume, name))
  {
    MadeIsThere(history, jobs, i, volume, name);
    if Makes(history[m], DirOf(volume, name)) {
      MadeIsThere(history, jobs, m, volume, name);
      DirStays(history, jobs, m + 1, i, volume, name);
    }
  }

  /** A directory that a step makes was not there before, and is there when the next one starts. */
  lemma MadeIsThere(history: seq<SharedStep>, jobs: seq<Job>, i: nat, volume: string, name: string)
    requires Shared(history, jobs) && i + 1 < |history| && Makes(history[i], DirOf(volume, name))
    ensures !IsDir(history[i].step.before, DirOf(volume, name)) && IsDir(history[i + 1].step.before, DirOf(volume, name))
  {
    assert Real(history[i].step);
    assert ["jenkins-backups"] <= DirOf(volume, name);
    assert VolumesKept(history, i);
  }
}
