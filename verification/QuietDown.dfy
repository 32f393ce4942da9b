/**
 * Backups of one Jenkins that run at the same time, their commands interleaved in any order. Each quiets
 * Jenkins down for itself, but there is only one Jenkins.
 */
module QuietDown {
  import opened Text
  import opened Programs
  import opened Grammar
  import opened BackupOutcome
  import Immutable

  datatype Turn = Turn(run: nat, tried: Attempt)

  /** What the history shows of one run. */
  function Of(history: seq<Turn>, run: nat): seq<Attempt> {
    if history == [] then []
    else
      var last := history[|history| - 1];
      Of(history[..|history| - 1], run) + if last.run == run then [last.tried] else []
  }

  function All(history: seq<Turn>): (r: seq<Attempt>)
    ensures |r| == |history|
  {
    seq(|history|, i requires 0 <= i < |history| => history[i].tried)
  }

  /** A history of backup runs of one Jenkins. */
  ghost predicate Shared(history: seq<Turn>, jobs: seq<Job>) {
    && (forall r | 0 <= r < |jobs| :: jobs[r].BackupJob? && Immutable.Behaves(jobs[r], Of(history, r)))
    && (forall k | 0 <= k < |history| :: history[k].run < |jobs|)
  }

  const QUIETS := Attempt(QUIET_DOWN, true)
  const CANCELS := Attempt(CANCEL_QUIET_DOWN, true)

  /** The cancel of another run, with no quiet-down since, is in force before step k. */
  predicate CancelledByOther(history: seq<Turn>, k: nat)
    requires k < |history|
  {
    exists m | 0 <= m < k :: history[m].run != history[k].run && CancelsLast(history, m, k)
  }

  predicate CancelsLast(history: seq<Turn>, m: nat, k: nat)
    requires m < k <= |history|
  {
    history[m].tried == CANCELS && forall i | m < i < k :: history[i].tried != QUIETS
  }

  // ---- one run in a history ---------------------------------------------------------------

  lemma {:induction false} OfPrefix(history: seq<Turn>, run: nat, k: nat)
    requires k <= |history|
    ensures Of(history[..k], run) <= Of(history, run)
  {
    if k < |history| {
      OfPrefix(history[..|history| - 1], run, k);
      assert history[..|history| - 1][..k] == history[..k];
    } else {
      assert history[..k] == history;
    }
  }

  /** Step m is the next one of its run. */
  lemma OfAt(history: seq<Turn>, m: nat)
    requires m < |history|
    ensures var run := history[m].run;
            |Of(history[..m], run)| < |Of(history, run)| && Of(history, run)[|Of(history[..m], run)|] == history[m].tried
  {
    var run := history[m].run;
    OfPrefix(history, run, m + 1);
    assert history[..m + 1][..m] == history[..m];
    assert Of(history[..m + 1], run) == Of(history[..m], run) + [history[m].tried];
  }

  lemma {:induction false} OfComesFrom(history: seq<Turn>, run: nat, a: Attempt) returns (m: nat)
    requires a in Of(history, run)
    ensures m < |history| && history[m] == Turn(run, a)
  {
    var n := |history| - 1;
    m := n;
    if a in Of(history[..n], run) {
      m := OfComesFrom(history[..n], run, a);
    }
  }

  /** A run's cancel is its last command. */
  lemma CancelIsLast(job: Job, tried: seq<Attempt>, i: nat, j: nat)
    requires job.BackupJob? && Immutable.Behaves(job, tried) && i < j < |tried|
    ensures tried[i].cmd != CANCEL_QUIET_DOWN
  {
    var events, at :| Reaches(job, events, at) && Tried(events) == tried;
    Immutable.TriedAt(job, events, at);
    ScriptsAt(job.volume, job.name, job.strategy, Made(events) != Some(false), i);
  }

  lemma OwnCancelComesLater(history: seq<Turn>, jobs: seq<Job>, m: nat, k: nat)
    requires Shared(history, jobs) && m < k < |history| && history[m].run == history[k].run
    ensures history[m].tried != CANCELS
  {
    var run := history[k].run;
    OfAt(history, m);
    OfAt(history, k);
    OfAt(history[..k], m);
    assert history[..k][..m] == history[..m];
    CancelIsLast(jobs[run], Of(history, run), |Of(history[..m], run)|, |Of(history[..k], run)|);
  }

  // ---- when Jenkins is quieted down -------------------------------------------------------

  /** A quiet-down that succeeded and has not been cancelled since. */
  ghost predicate QuietSince(tried: seq<Attempt>, i: nat)
    requires i < |tried|
  {
    tried[i] == QUIETS && forall j | i < j < |tried| :: tried[j] != CANCELS
  }

  lemma {:induction false} QuietedIff(tried: seq<Attempt>)
    ensures Quieted(tried) <==> exists i: nat | i < |tried| :: QuietSince(tried, i)
  {
    ScriptsDiffer();
    if tried != [] {
      var n := |tried| - 1;
      QuietedIff(tried[..n]);
      assert tried[n] == QUIETS <==> QuietSince(tried, n);
      forall i: nat | i < n ensures QuietSince(tried, i) <==> QuietSince(tried[..n], i) && tried[n] != CANCELS {
        assert forall j | 0 <= j < n :: tried[..n][j] == tried[j];
      }
    }
  }

  /** Whoever cancelled last, if a quiet-down was not the last that succeeded. */
  lemma {:induction false} LastCancel(history: seq<Turn>, k: nat, i: nat) returns (m: nat)
    requires i < k <= |history| && history[i].tried == QUIETS && !Quieted(All(history[..k]))
    ensures m < k && CancelsLast(history, m, k)
  {
    m := k - 1;
    NotQuieted(history, k);
    if history[m].tried != CANCELS {
      m := LastCancel(history, k - 1, i);
    }
  }

  lemma NotQuieted(history: seq<Turn>, k: nat)
    requires 0 < k <= |history| && !Quieted(All(history[..k]))
    ensures history[k - 1].tried != QUIETS
    ensures history[k - 1].tried != CANCELS ==> !Quieted(All(history[..k - 1]))
  {
    var tried := All(history[..k]);
    assert tried[..k - 1] == All(history[..k - 1]) && tried[k - 1] == history[k - 1].tried;
  }

  /**
   * A run whose quiet-down succeeded makes a command, so each of its copies, with Jenkins quieted down if and
   * only if no other run has cancelled since the last quiet-down.
   */
  lemma QuietUnlessCancelled(history: seq<Turn>, jobs: seq<Job>, k: nat)
    requires Shared(history, jobs) && k < |history| && QUIETS in Of(history[..k], history[k].run)
    ensures Quieted(All(history[..k])) <==> !CancelledByOther(history, k)
  {
    ScriptsDiffer();
    var tried := All(history[..k]);
    QuietedIff(tried);
    if Quieted(tried) {
      var i: nat :| i < k && QuietSince(tried, i);
      forall m: nat | m < k ensures !CancelsLast(history, m, k) {
        assert tried[m] == history[m].tried && tried[i] == history[i].tried;
      }
    } else {
      var i := OfComesFrom(history[..k], history[k].run, QUIETS);
      var m := LastCancel(history, k, i);
      if history[m].run == history[k].run {
        OwnCancelComesLater(history, jobs, m, k);
      }
    }
  }

  // ---- two backups that disturb each other ------------------------------------------------

  function Turns(run: nat, tried: seq<Attempt>): (r: seq<Turn>)
    ensures |r| == |tried|
  {
    seq(|tried|, i requires 0 <= i < |tried| => Turn(run, tried[i]))
  }

  lemma OfMore(history: seq<Turn>, t: Turn, r: nat)
    ensures Of(history + [t], r) == Of(history, r) + if t.run == r then [t.tried] else []
  {
    assert (history + [t])[..|history|] == history;
  }

  lemma {:induction false} OfTurns(run: nat, tried: seq<Attempt>, r: nat)
    ensures Of(Turns(run, tried), r) == if r == run then tried else []
  {
    if tried != [] {
      var init, last := tried[..|tried| - 1], tried[|tried| - 1];
      OfTurns(run, init, r);
      OneTurnMore(run, init, last, r);
      assert init + [last] == tried;
    }
  }

  lemma OneTurnMore(run: nat, tried: seq<Attempt>, last: Attempt, r: nat)
    requires Of(Turns(run, tried), r) == if r == run then tried else []
    ensures Of(Turns(run, tried + [last]), r) == if r == run then tried + [last] else []
  {
    TurnsMore(run, tried, last);
    OfMore(Turns(run, tried), Turn(run, last), r);
  }

  lemma TurnsMore(run: nat, tried: seq<Attempt>, last: Attempt)
    ensures Turns(run, tried + [last]) == Turns(run, tried) + [Turn(run, last)]
  {
  }

  lemma {:induction false} OfJoined(a: seq<Turn>, b: seq<Turn>, r: nat)
    ensures Of(a + b, r) == Of(a, r) + Of(b, r)
  {
    if b == [] {
      assert a + b == a;
    } else {
      var n := |b| - 1;
      OfJoined(a, b[..n], r);
      OfMore(a + b[..n], b[n], r);
      OfMore(b[..n], b[n], r);
      assert a + b == a + b[..n] + [b[n]] && b == b[..n] + [b[n]];
      Associate(Of(a, r), Of(b[..n], r), if b[n].run == r then [b[n].tried] else []);
    }
  }

  lemma Associate(x: seq<Attempt>, y: seq<Attempt>, z: seq<Attempt>)
    ensures (x + y) + z == x + (y + z)
  {
  }

  /** All goes well in a backup with a quiet-down. */
  lemma GoesWell(job: Job) returns (tried: seq<Attempt>)
    requires job.BackupJob? && job.strategy.quietDown
    ensures Immutable.Behaves(job, tried) && |tried| == 3 + |Locations(job.strategy.options)|
    ensures tried[0] == QUIETS && tried[|tried| - 1] == CANCELS
    ensures forall i | 2 <= i < |tried| - 1 :: tried[i].cmd.Copy?
  {
    var events, at := WholeRun(job);
    tried := Tried(events);
    CompleteBackup(job.volume, job.name, job.strategy, events, at);
    forall i | 2 <= i < |tried| - 1 ensures tried[i].cmd.Copy? {
      assert tried[MkdirAt(job.strategy) + 1 + (i - 2)] ==
             Attempt(BackupCopy(job.volume, job.name, Locations(job.strategy.options)[i - 2]), true);
    }
    ScriptsFrame(job, events, at);
  }

  lemma WholeRun(job: Job) returns (events: seq<Event>, at: Progress)
    requires job.BackupJob?
    ensures Reaches(job, events, at) && StoresDone(events) && FilesSucceed(events)
    ensures forall t | t in Tried(events) :: t.ok
  {
    var chosen := (c: Command) => true;
    events, at := CompletePath(ProgramOf(job), map[], chosen);
    BackupCompletedIff(job.volume, job.name, job.strategy, events, at);
    TriedAsChosen(events, chosen);
  }

  /** A finished backup with a quiet-down starts with that and ends with the cancel. */
  lemma ScriptsFrame(job: Job, events: seq<Event>, at: Progress)
    requires job.BackupJob? && job.strategy.quietDown && Reaches(job, events, at) && StoresDone(events)
    requires forall t | t in Tried(events) :: t.ok
    ensures var tried := Tried(events); |tried| > 1 && tried[0] == QUIETS && tried[|tried| - 1] == CANCELS
  {
    var tried, made := Tried(events), Made(events) != Some(false);
    BackupCompletedIff(job.volume, job.name, job.strategy, events, at);
    BackupGrammar(job.volume, job.name, job.strategy, events, at);
    TriedCommands(events);
    ScriptsAt(job.volume, job.name, job.strategy, made, 0);
    ScriptsAt(job.volume, job.name, job.strategy, made, |tried| - 1);
    assert tried[0] in tried && tried[|tried| - 1] in tried;
  }

  /** Between the mkdir and the copies of the one, the other runs from start to end. */
  function Nested(one: seq<Attempt>, other: seq<Attempt>): seq<Turn>
    requires |one| >= 2
  {
    Turns(0, one[..2]) + Turns(1, other) + Turns(0, one[2..])
  }

  lemma NestedIsShared(one: seq<Attempt>, other: seq<Attempt>, r: nat)
    requires |one| >= 2
    ensures Of(Nested(one, other), r) == if r == 0 then one else if r == 1 then other else []
  {
    OfThree(one[..2], other, one[2..], r);
    var none: seq<Attempt> := [];
    if r == 0 {
      assert one[..2] + none + one[2..] == one;
    } else if r == 1 {
      assert none + other + none == other;
    } else {
      assert none + none + none == none;
    }
  }

  lemma OfThree(x: seq<Attempt>, y: seq<Attempt>, z: seq<Attempt>, r: nat)
    ensures Of(Turns(0, x) + Turns(1, y) + Turns(0, z), r) ==
            (if r == 0 then x else []) + (if r == 1 then y else []) + (if r == 0 then z else [])
  {
    OfTurns(0, x, r);
    OfTurns(1, y, r);
    OfTurns(0, z, r);
    OfJoined(Turns(0, x), Turns(1, y), r);
    OfJoined(Turns(0, x) + Turns(1, y), Turns(0, z), r);
  }

  /**
   * Any two Backups with quiet-down can run so that all their commands succeed and the first copy of the one
   * is made while Jenkins is not quieted down.
   */
  lemma OneCancelsForTheOther(one: Job, other: Job) returns (history: seq<Turn>, k: nat)
    requires one.BackupJob? && one.strategy.quietDown && Locations(one.strategy.options) != []
    requires other.BackupJob? && other.strategy.quietDown
    ensures Shared(history, [one, other]) && k < |history| && history[k].run == 0 && history[k].tried.cmd.Copy?
    ensures QUIETS in Of(history[..k], 0) && !Quieted(All(history[..k]))
  {
    var a := GoesWell(one);
    var b := GoesWell(other);
    history, k := Nested(a, b), 2 + |b|;
    BothBehave(one, other, a, b);
    assert history[k] == Turn(0, a[2]);
    NestedUpTo(a, b);
  }

  lemma BothBehave(one: Job, other: Job, a: seq<Attempt>, b: seq<Attempt>)
    requires one.BackupJob? && other.BackupJob? && |a| >= 2
    requires Immutable.Behaves(one, a) && Immutable.Behaves(other, b)
    ensures Shared(Nested(a, b), [one, other])
  {
    NestedIsShared(a, b, 0);
    NestedIsShared(a, b, 1);
    SameBehaves(one, a, Of(Nested(a, b), 0));
    SameBehaves(other, b, Of(Nested(a, b), 1));
    TwoShare(Nested(a, b), [one, other]);
  }

  lemma SameBehaves(job: Job, tried: seq<Attempt>, same: seq<Attempt>)
    requires Immutable.Behaves(job, tried) && tried == same
    ensures Immutable.Behaves(job, same)
  {
  }

  lemma {:induction false} TwoShare(history: seq<Turn>, jobs: seq<Job>)
    requires |jobs| == 2 && jobs[0].BackupJob? && jobs[1].BackupJob?
    requires Immutable.Behaves(jobs[0], Of(history, 0)) && Immutable.Behaves(jobs[1], Of(history, 1))
    requires forall k | 0 <= k < |history| :: history[k].run < 2
    ensures Shared(history, jobs)
  {
    forall r | 0 <= r < |jobs| ensures jobs[r].BackupJob? && Immutable.Behaves(jobs[r], Of(history, r)) {
      assert r == 0 || r == 1;
    }
  }

  /** Before the first copy of the one. */
  lemma NestedUpTo(one: seq<Attempt>, other: seq<Attempt>)
    requires |one| >= 2 && |other| >= 1 && one[0] == QUIETS && other[|other| - 1] == CANCELS
    ensures var before := Nested(one, other)[..2 + |other|]; QUIETS in Of(before, 0) && !Quieted(All(before))
  {
    var before := Nested(one, other)[..2 + |other|];
    assert before == Turns(0, one[..2]) + Turns(1, other);
    OfTurns(0, one[..2], 0);
    OfJoined(Turns(0, one[..2]), Turns(1, other), 0);
    assert one[..2][0] == QUIETS;
    var tried := All(before);
    assert tried[|tried| - 1] == CANCELS;
    ScriptsDiffer();
  }
}
