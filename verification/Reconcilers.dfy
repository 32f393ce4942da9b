/**
 * The backup and restore controllers in their own imperative form. Each method issues its commands
 * and status writes one by one; its contract says that this is exactly what the program tree of
 * the method does on the same answers of the cluster.
 */
module Reconcilers {
  import opened Text
  import opened Programs

  /** The cluster's answer to the n-th call of a run, for every n. */
  type Answers = nat -> bool

  datatype Outcome = Outcome(conditions: Conditions, events: seq<Event>)

  /** Run p to its end on the given answers, from the given conditions and history. */
  function Drive(p: Program, conditions: Conditions, events: seq<Event>, answers: Answers): (r: Outcome)
    ensures events <= r.events
    decreases p
  {
    var ok := answers(|events|);
    match p
    case Halt => Outcome(conditions, events)
    case InitClient(inited, refused) => Drive(if ok then inited else refused, conditions, events + [Inited(ok)], answers)
    case Exec(cmd, done, failed) => Drive(if ok then done else failed, conditions, events + [Ran(cmd, ok)], answers)
    case Set(condition, status, next) => Drive(next, conditions[condition := status], events, answers)
    case Update(next) =>
      var events' := events + [Updated(conditions, ok)];
      if ok then Drive(next, conditions, events', answers) else Outcome(conditions, events')
  }

  /** One run's view of the cluster: the exec client, the status client and the instance it read. */
  class Session {
    const answers: Answers
    var conditions: Conditions
    var events: seq<Event>

    constructor (answers: Answers)
      ensures this.answers == answers && conditions == map[] && events == []
    {
      this.answers := answers;
      conditions := map[];
      events := [];
    }

    ghost function Runs(p: Program): Outcome
      reads this
    {
      Drive(p, conditions, events, answers)
    }

    method InitKubeGoClient() returns (ok: bool)
      modifies this`events
      ensures ok == answers(old(|events|)) && events == old(events) + [Inited(ok)]
      ensures forall p, q :: old(Runs(InitClient(p, q))) == Runs(if ok then p else q)
    {
      ok := answers(|events|);
      events := events + [Inited(ok)];
    }

    method MakeRequest(cmd: Command) returns (ok: bool)
      modifies this`events
      ensures ok == answers(old(|events|)) && events == old(events) + [Ran(cmd, ok)]
      ensures forall p, q :: old(Runs(Exec(cmd, p, q))) == Runs(if ok then p else q)
    {
      ok := answers(|events|);
      events := events + [Ran(cmd, ok)];
    }

    method SetCondition(condition: Condition, status: bool)
      modifies this`conditions
      ensures conditions == old(conditions)[condition := status]
      ensures forall p :: old(Runs(Set(condition, status, p))) == Runs(p)
    {
      conditions := conditions[condition := status];
    }

    method UpdateStatus() returns (ok: bool)
      modifies this`events
      ensures ok == answers(old(|events|)) && events == old(events) + [Updated(conditions, ok)]
      ensures forall p :: ContinuesFrom(old(Runs(Update(p))), ok, p)
    {
      ok := answers(|events|);
      events := events + [Updated(conditions, ok)];
    }

    /** What the session holds after a step that either ends the run or goes on with k. */
    ghost predicate ContinuesFrom(before: Outcome, ok: bool, k: Program)
      reads this
    {
      before == if ok then Runs(k) else Outcome(conditions, events)
    }
  }

  class BackupReconciler {
    const volume: string
    const name: string
    const strategy: Strategy

    constructor (volume: string, name: string, strategy: Strategy)
      ensures this.volume == volume && this.name == name && this.strategy == strategy
    {
      this.volume, this.name, this.strategy := volume, name, strategy;
    }

    method PerformJenkinsQuietDown(s: Session, ghost k: Program) returns (ok: bool)
      modifies s
      ensures s.ContinuesFrom(old(s.Runs(QuietDownThen(k))), ok, k)
    {
      var done := s.MakeRequest(QUIET_DOWN);
      if !done {
        s.SetCondition(QuietDownStarted, false);
        ok := s.UpdateStatus();
        return;
      }
      s.SetCondition(QuietDownStarted, true);
      ok := s.UpdateStatus();
    }

    method PerformJenkinsCancelQuietDown(s: Session, ghost k: Program) returns (ok: bool)
      modifies s
      ensures s.ContinuesFrom(old(s.Runs(CancelQuietDownThen(k))), ok, k)
    {
      var done := s.MakeRequest(CANCEL_QUIET_DOWN);
      if !done {
        s.SetCondition(QuietDownCancelled, false);
        ok := s.UpdateStatus();
        return;
      }
      s.SetCondition(QuietDownCancelled, true);
      ok := s.UpdateStatus();
    }

    method PerformJenkinsBackup(s: Session, ghost k: Program) returns (ok: bool)
      modifies s
      ensures s.ContinuesFrom(old(s.Runs(BackupThen(volume, name, strategy.options, k))), ok, k)
    {
      var created := s.MakeRequest(Mkdir(BackupDir(volume, name) + "/"));
      if !created {
        s.SetCondition(BackupCompleted, false);
        ok := s.UpdateStatus();
        return;
      }
      var locations := Locations(strategy.options);
      if |locations| > 0 {
        ghost var all := s.Runs(BackupCopiesThen(volume, name, locations, k));
        var i := 0;
        while i < |locations|
          invariant 0 <= i <= |locations|
          invariant s.Runs(BackupCopiesThen(volume, name, locations[i..], k)) == all
        {
          assert locations[i..][1..] == locations[i + 1..];
          var copied := s.MakeRequest(BackupCopy(volume, name, locations[i]));
          if !copied {
            s.SetCondition(BackupCompleted, false);
            ok := s.UpdateStatus();
            if !ok {
              return;
            }
          }
          i := i + 1;
        }
        ok := s.UpdateStatus();
        return;
      }
      ok := true;
    }

    /** A whole run, from a snapshot without conditions, once the lookups have succeeded. */
    method Reconcile(s: Session)
      requires s.conditions == map[] && s.events == []
      modifies s
      ensures Outcome(s.conditions, s.events) == Drive(BackupProgram(volume, name, strategy), map[], [], s.answers)
    {
      ghost var finish := Set(BackupCompleted, true, Update(Halt));
      ghost var cancel := if strategy.quietDown then CancelQuietDownThen(finish) else finish;
      ghost var backup := BackupThen(volume, name, strategy.options, cancel);
      ghost var whole := s.Runs(BackupProgram(volume, name, strategy));
      var inited := s.InitKubeGoClient();
      if !inited {
        s.SetCondition(BackupInitialized, false);
        var _ := s.UpdateStatus();
        return;
      }
      s.SetCondition(BackupInitialized, true);
      var ok := s.UpdateStatus();
      if !ok {
        return;
      }
      assert whole == s.Runs(if strategy.quietDown then QuietDownThen(backup) else backup);
      if strategy.quietDown {
        ok := PerformJenkinsQuietDown(s, backup);
        if !ok {
          return;
        }
      }
      assert whole == s.Runs(backup);
      ok := PerformJenkinsBackup(s, cancel);
      if !ok {
        return;
      }
      assert whole == s.Runs(cancel);
      if strategy.quietDown {
        ok := PerformJenkinsCancelQuietDown(s, finish);
        if !ok {
          return;
        }
      }
      assert whole == s.Runs(finish);
      s.SetCondition(BackupCompleted, true);
      ok := s.UpdateStatus();
    }
  }

  class RestoreReconciler {
    const volume: string
    const name: string
    const strategy: Strategy

    constructor (volume: string, name: string, strategy: Strategy)
      ensures this.volume == volume && this.name == name && this.strategy == strategy
    {
      this.volume, this.name, this.strategy := volume, name, strategy;
    }

    method PerformJenkinsRestart(s: Session, ghost k: Program) returns (ok: bool)
      requires strategy.restart && !strategy.safe
      modifies s
      ensures s.ContinuesFrom(old(s.Runs(RestartThen(strategy, k))), ok, k)
    {
      var done := s.MakeRequest(RESTART);
      if !done {
        s.SetCondition(RestartStarted, false);
        ok := s.UpdateStatus();
        return;
      }
      s.SetCondition(RestartStarted, true);
      ok := true;
    }

    method PerformJenkinsSafeRestart(s: Session, ghost k: Program) returns (ok: bool)
      requires strategy.restart && strategy.safe
      modifies s
      ensures s.ContinuesFrom(old(s.Runs(RestartThen(strategy, k))), ok, k)
    {
      var done := s.MakeRequest(SAFE_RESTART);
      if !done {
        s.SetCondition(SafeRestartStarted, false);
        ok := s.UpdateStatus();
        return;
      }
      s.SetCondition(SafeRestartStarted, true);
      ok := true;
    }

    method PerformJenkinsRestore(s: Session, ghost k: Program) returns (ok: bool)
      modifies s
      ensures s.ContinuesFrom(old(s.Runs(RestoreThen(volume, name, strategy.options, k))), ok, k)
    {
      var locations := Locations(strategy.options);
      if |locations| > 0 {
        ghost var all := s.Runs(RestoreCopiesThen(volume, name, locations, k));
        var i := 0;
        while i < |locations|
          invariant 0 <= i <= |locations|
          invariant s.Runs(RestoreCopiesThen(volume, name, locations[i..], k)) == all
        {
          assert locations[i..][1..] == locations[i + 1..];
          var copied := s.MakeRequest(RestoreCopy(volume, name, locations[i]));
          if !copied {
            s.SetCondition(RestoreCompleted, false);
            ok := s.UpdateStatus();
            return;
          }
          i := i + 1;
        }
        s.SetCondition(RestoreCompleted, true);
        ok := s.UpdateStatus();
        return;
      }
      ok := true;
    }

    method Reconcile(s: Session)
      requires s.conditions == map[] && s.events == []
      modifies s
      ensures Outcome(s.conditions, s.events) == Drive(RestoreProgram(volume, name, strategy), map[], [], s.answers)
    {
      ghost var whole := s.Runs(RestoreProgram(volume, name, strategy));
      ghost var finish := Update(Halt);
      ghost var restart := RestartThen(strategy, finish);
      var inited := s.InitKubeGoClient();
      if !inited {
        s.SetCondition(RestoreInitialized, false);
        var _ := s.UpdateStatus();
        return;
      }
      s.SetCondition(RestoreInitialized, true);
      var ok := s.UpdateStatus();
      if !ok {
        return;
      }
      assert whole == s.Runs(RestoreThen(volume, name, strategy.options, restart));
      ok := PerformJenkinsRestore(s, restart);
      if !ok {
        return;
      }
      assert whole == s.Runs(restart);
      if strategy.restart && strategy.safe {
        ok := PerformJenkinsSafeRestart(s, finish);
        if !ok {
          return;
        }
      } else if strategy.restart {
        ok := PerformJenkinsRestart(s, finish);
        if !ok {
          return;
        }
      }
      assert whole == s.Runs(finish);
      ok := s.UpdateStatus();
    }
  }

  /** Whatever a driven program did is a path of its tree, and it ran to the end. */
  lemma {:induction false} DriveFollows(start: Progress, p: Program, conditions: Conditions, events: seq<Event>,
                                        answers: Answers)
    requires Follow(start, events) == Some(Settle(Progress(p, conditions)))
    ensures var r := Drive(p, conditions, events, answers);
            Follow(start, r.events) == Some(Progress(Halt, r.conditions))
    decreases p
  {
    var ok := answers(|events|);
    match p
    case Halt =>
    case Set(condition, status, next) =>
      DriveFollows(start, next, conditions[condition := status], events, answers);
    case InitClient(inited, refused) =>
      FollowStep(start, events, Inited(ok));
      DriveFollows(start, if ok then inited else refused, conditions, events + [Inited(ok)], answers);
    case Exec(cmd, done, failed) =>
      FollowStep(start, events, Ran(cmd, ok));
      DriveFollows(start, if ok then done else failed, conditions, events + [Ran(cmd, ok)], answers);
    case Update(next) =>
      FollowStep(start, events, Updated(conditions, ok));
      if ok {
        DriveFollows(start, next, conditions, events + [Updated(conditions, ok)], answers);
      }
  }

  /** Every completed run of the two Reconcile methods is a complete path of its job's program. */
  lemma ReconcileReaches(job: Job, answers: Answers)
    ensures var r := Drive(ProgramOf(job), map[], [], answers);
            Reaches(job, r.events, Progress(Halt, r.conditions))
  {
    DriveFollows(Progress(ProgramOf(job), map[]), ProgramOf(job), map[], [], answers);
  }
}
