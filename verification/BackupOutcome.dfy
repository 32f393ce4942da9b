/** What a finished backup run has stored, what it has copied and in what state it leaves Jenkins. */
module BackupOutcome {
  import opened Text
  import opened Programs
  import opened Grammar

  predicate Done(conditions: Conditions) {
    BackupCompleted in conditions && conditions[BackupCompleted]
  }

  predicate SaysDone(e: Event) {
    e.Updated? && Done(e.conditions)
  }

  /** The run has stored BackupCompleted True, as far as it knows. */
  predicate StoresDone(events: seq<Event>) {
    exists i | 0 <= i < |events| :: SaysDone(events[i]) && events[i].ok
  }

  // ---- when BackupCompleted is stored -----------------------------------------------------

  const FINISH := Set(BackupCompleted, true, Update(Halt))

  /** Every path ends in FINISH, and BackupCompleted is set to True nowhere else. */
  ghost predicate Finishes(p: Program)
    decreases p
  {
    p == FINISH ||
    match p
    case Halt => false
    case InitClient(_, _) => false
    case Exec(_, q, r) => Finishes(q) && Finishes(r)
    case Set(c, status, q) => !(c == BackupCompleted && status) && Finishes(q)
    case Update(q) => Finishes(q)
  }

  lemma {:induction false} SettleFinishes(p: Progress)
    requires Finishes(p.rest) && !Done(p.conditions)
    ensures var q := Settle(p);
            if q.rest == Update(Halt) then Done(q.conditions) else Finishes(q.rest) && !Done(q.conditions)
    decreases p.rest
  {
    if p.rest.Set? && p.rest != FINISH {
      SettleFinishes(Progress(p.rest.next, p.conditions[p.rest.condition := p.rest.status]));
    }
  }

  /** Only the last write of a finished run says done, and only if all writes before it were accepted. */
  ghost predicate DoneLast(events: seq<Event>, i: nat)
    requires i < |events|
  {
    SaysDone(events[i]) ==> i == |events| - 1 && WritesSucceed(events[..i])
  }

  lemma {:induction false} FinishFollow(p: Progress, events: seq<Event>)
    requires Finishes(p.rest) && !Done(p.conditions) && Follow(p, events).Some?
    ensures StoresDone(events) <==> Follow(p, events).value.rest.Halt? && WritesSucceed(events)
    ensures forall i | 0 <= i < |events| :: DoneLast(events, i)
    ensures forall i | 0 <= i < |events| && SaysDone(events[i]) :: Follow(p, events).value.rest.Halt?
    decreases |events|
  {
    SettleFinishes(p);
    if events != [] {
      var q := Settle(p);
      var e, rest := events[0], events[1..];
      if q.rest == Update(Halt) || (e.Updated? && !e.ok) {
        HaltFollow(After(q, e).value, rest);
        assert events == [e];
      } else {
        var tree := if e.Updated? then q.rest.next else if e.ok then q.rest.ok else q.rest.failed;
        FollowSettled(Progress(tree, q.conditions), rest);
        FinishFollow(Progress(tree, q.conditions), rest);
        FinishSnoc(events);
      }
    }
  }

  /** The facts about the rest of a run, with one event in front that is no refused write and does not say done. */
  lemma FinishSnoc(events: seq<Event>)
    requires events != [] && !SaysDone(events[0]) && (events[0].Updated? ==> events[0].ok)
    ensures StoresDone(events) <==> StoresDone(events[1..])
    ensures WritesSucceed(events) <==> WritesSucceed(events[1..])
    ensures (forall i | 0 <= i < |events[1..]| :: DoneLast(events[1..], i)) ==>
              forall i | 0 <= i < |events| :: DoneLast(events, i)
  {
    var rest := events[1..];
    assert forall i | 0 < i < |events| :: events[i] == rest[i - 1];
    assert forall i | 0 <= i < |rest| :: rest[i] == events[i + 1];
    if forall i | 0 <= i < |rest| :: DoneLast(rest, i) {
      forall i | 0 <= i < |events| ensures DoneLast(events, i) {
        if SaysDone(events[i]) {
          assert DoneLast(rest, i - 1);
          assert forall j | 0 < j < i :: events[..i][j] == rest[..i - 1][j - 1];
        }
      }
    }
  }

  lemma {:induction false} CopiesFinish(volume: string, name: string, locations: seq<string>, k: Program)
    requires Finishes(k)
    ensures Finishes(BackupCopiesThen(volume, name, locations, k))
    decreases |locations|
  {
    if locations != [] {
      CopiesFinish(volume, name, locations[1..], k);
      assert Finishes(Update(BackupCopiesThen(volume, name, locations[1..], k)));
    }
  }

  lemma BackupFinishes(volume: string, name: string, strategy: Strategy)
    ensures Finishes(BackupProgram(volume, name, strategy).inited)
  {
    var cancel := if strategy.quietDown then CancelQuietDownThen(FINISH) else FINISH;
    assert Finishes(FINISH) && Finishes(Update(FINISH));
    assert Finishes(Set(QuietDownCancelled, true, Update(FINISH)));
    assert Finishes(cancel) && Finishes(Update(cancel));
    CopiesFinish(volume, name, Locations(strategy.options), cancel);
    var backup := BackupThen(volume, name, strategy.options, cancel);
    assert Finishes(Set(BackupCompleted, false, Update(cancel)));
    assert Finishes(backup) && Finishes(Update(backup));
    assert Finishes(Set(QuietDownStarted, true, Update(backup)));
    var b := BackupProgram(volume, name, strategy);
    assert Finishes(b.inited.next.next);
    assert Finishes(b.inited.next);
  }

  /** A run whose client could not be opened writes that, and nothing else. */
  lemma RefusedRun(events: seq<Event>)
    requires Follow(Progress(Set(BackupInitialized, false, Update(Halt)), map[]), events).Some?
    ensures forall i | 0 <= i < |events| :: events[i].Updated? && !SaysDone(events[i])
  {
    if events != [] {
      var q := Settle(Progress(Set(BackupInitialized, false, Update(Halt)), map[]));
      HaltFollow(After(q, events[0]).value, events[1..]);
    }
  }

  /**
   * BackupCompleted says nothing about the copies: a run stores it True if and only if it opened its
   * client, ran to its end and had every status write accepted, whichever of its commands failed.
   */
  lemma BackupCompletedIff(volume: string, name: string, strategy: Strategy, events: seq<Event>, r: Progress)
    requires Reaches(BackupJob(volume, name, strategy), events, r)
    ensures StoresDone(events) <==> r.rest.Halt? && events != [] && events[0].ok && WritesSucceed(events)
    ensures forall i | 0 <= i < |events| && SaysDone(events[i]) ::
              DoneLast(events, i) && r.rest.Halt? && events[0].ok
  {
    if events != [] {
      var rest := events[1..];
      var b := BackupProgram(volume, name, strategy);
      var tree := if events[0].ok then b.inited else b.refused;
      FollowSettled(Progress(tree, map[]), rest);
      FinishSnoc(events);
      if events[0].ok {
        BackupFinishes(volume, name, strategy);
        FinishFollow(Progress(tree, map[]), rest);
      } else {
        RefusedRun(rest);
      }
      assert forall i | 0 < i < |events| :: events[i] == rest[i - 1];
    }
  }

  // ---- runs with chosen outcomes ----------------------------------------------------------

  /** Every program has a complete path on which each command comes out as chosen and every write is accepted. */
  lemma {:induction false} CompletePath(p: Program, conditions: Conditions, chosen: Command -> bool)
    returns (events: seq<Event>, r: Progress)
    ensures Follow(Progress(p, conditions), events) == Some(r) && r.rest.Halt? && WritesSucceed(events)
    ensures forall i | 0 <= i < |events| && events[i].Ran? :: events[i].ok == chosen(events[i].cmd)
    ensures p.InitClient? ==> events != [] && events[0].ok
    decreases p
  {
    match p
    case Halt =>
      events, r := [], Progress(Halt, conditions);
    case Set(c, status, next) =>
      events, r := CompletePath(next, conditions[c := status], chosen);
      assert Settle(Progress(p, conditions)) == Settle(Progress(next, conditions[c := status]));
    case InitClient(inited, _) =>
      events, r := CompletePath(inited, conditions, chosen);
      events, r := Onward(p, conditions, Inited(true), inited, events, r);
    case Exec(cmd, done, failed) =>
      var next := if chosen(cmd) then done else failed;
      events, r := CompletePath(next, conditions, chosen);
      events, r := Onward(p, conditions, Ran(cmd, chosen(cmd)), next, events, r);
    case Update(next) =>
      events, r := CompletePath(next, conditions, chosen);
      events, r := Onward(p, conditions, Updated(conditions, true), next, events, r);
  }

  lemma Onward(p: Program, conditions: Conditions, e: Event, next: Program, rest: seq<Event>, at: Progress)
    returns (events: seq<Event>, r: Progress)
    requires !p.Set? && After(Progress(p, conditions), e) == Some(Settle(Progress(next, conditions)))
    requires Follow(Progress(next, conditions), rest) == Some(at)
    ensures events == [e] + rest && r == at && Follow(Progress(p, conditions), events) == Some(r)
  {
    events, r := [e] + rest, at;
    FollowSettled(Progress(next, conditions), rest);
    assert events[1..] == rest;
  }

  lemma {:induction false} NoCopyNoAttempt(events: seq<Event>)
    requires forall i | 0 <= i < |Commands(events)| :: !Commands(events)[i].Copy?
    ensures Attempts(events) == []
  {
    if events != [] {
      assert Commands(events) == (if events[0].Ran? then [events[0].cmd] else []) + Commands(events[1..]);
      assert events[0].Ran? ==> Commands(events)[0] == events[0].cmd;
      var n := if events[0].Ran? then 1 else 0;
      assert forall i | 0 <= i < |Commands(events[1..])| :: Commands(events[1..])[i] == Commands(events)[i + n];
      NoCopyNoAttempt(events[1..]);
    }
  }

  lemma {:induction false} MkdirFailed(events: seq<Event>)
    requires forall i | 0 <= i < |events| && events[i].Ran? && events[i].cmd.Mkdir? :: !events[i].ok
    requires exists i | 0 <= i < |Commands(events)| :: Commands(events)[i].Mkdir?
    ensures Made(events) == Some(false)
  {
    if !(events[0].Ran? && events[0].cmd.Mkdir?) {
      var i :| 0 <= i < |Commands(events)| && Commands(events)[i].Mkdir?;
      var n := if events[0].Ran? then 1 else 0;
      assert Commands(events[1..])[i - n] == Commands(events)[i];
      assert forall j | 0 <= j < |events[1..]| :: events[1..][j] == events[j + 1];
      MkdirFailed(events[1..]);
    }
  }

  /** For every strategy there is a run that stores BackupCompleted True although mkdir failed and nothing was copied. */
  lemma DoneWithoutCopies(volume: string, name: string, strategy: Strategy) returns (events: seq<Event>, r: Progress)
    ensures Reaches(BackupJob(volume, name, strategy), events, r) && r.rest.Halt?
    ensures StoresDone(events) && Made(events) == Some(false) && Attempts(events) == []
  {
    var job := BackupJob(volume, name, strategy);
    events, r := CompletePath(ProgramOf(job), map[], (c: Command) => !c.Mkdir?);
    BackupCompletedIff(volume, name, strategy, events, r);
    BackupGrammar(volume, name, strategy, events, r);
    var k := if strategy.quietDown then 1 else 0;
    if Made(events) != Some(false) {
      ExpectedShape(volume, name, strategy, true, k);
      assert Commands(events)[k].Mkdir?;
      MkdirFailed(events);
    }
    forall i | 0 <= i < |Commands(events)| ensures !Commands(events)[i].Copy? {
      ExpectedShape(volume, name, strategy, false, i);
    }
    NoCopyNoAttempt(events);
    ExpectedShape(volume, name, strategy, false, k);
    assert Commands(events)[k].Mkdir?;
    MkdirFailed(events);
  }

  /** Every selected copy of a backup, made. */
  function AllCopied(volume: string, name: string, locations: seq<string>): (r: seq<Attempt>)
    ensures |r| == |locations|
  {
    seq(|locations|, i requires 0 <= i < |locations| => Attempt(BackupCopy(volume, name, locations[i]), true))
  }

  /** BackupCompleted True means that the selected copies were made, whatever happens. */
  ghost predicate Truthful(volume: string, name: string, strategy: Strategy) {
    forall events, r :: Reaches(BackupJob(volume, name, strategy), events, r) && StoresDone(events) ==>
      Attempts(events) == AllCopied(volume, name, Locations(strategy.options))
  }

  /** That is so exactly for strategies that select nothing to copy. */
  lemma TruthfulIffNothingSelected(volume: string, name: string, strategy: Strategy)
    ensures Truthful(volume, name, strategy) <==> Locations(strategy.options) == []
  {
    if Locations(strategy.options) == [] {
      forall events, r | Reaches(BackupJob(volume, name, strategy), events, r) && StoresDone(events)
        ensures Attempts(events) == AllCopied(volume, name, Locations(strategy.options))
      {
        NothingCopied(volume, name, strategy, events, r);
      }
    } else {
      var events, r := DoneWithoutCopies(volume, name, strategy);
    }
  }

  lemma NothingCopied(volume: string, name: string, strategy: Strategy, events: seq<Event>, r: Progress)
    requires Reaches(BackupJob(volume, name, strategy), events, r) && Locations(strategy.options) == []
    ensures Attempts(events) == []
  {
    BackupGrammar(volume, name, strategy, events, r);
    var made := Made(events) != Some(false);
    forall i | 0 <= i < |Commands(events)| ensures !Commands(events)[i].Copy? {
      assert Commands(events)[i] == Expected(volume, name, strategy, made)[i];
      assert Copies(volume, name, Locations(strategy.options)) == [];
    }
    NoCopyNoAttempt(events);
  }

  // ---- a backup all of whose files were made ----------------------------------------------

  lemma {:induction false} TriedFilesOk(events: seq<Event>)
    requires FilesSucceed(events)
    ensures forall i | 0 <= i < |Tried(events)| && !Tried(events)[i].cmd.Script? :: Tried(events)[i].ok
  {
    if events != [] {
      assert forall i | 0 <= i < |events[1..]| :: events[1..][i] == events[i + 1];
      TriedFilesOk(events[1..]);
    }
  }

  /** The position of mkdir among the commands of a backup. */
  function MkdirAt(strategy: Strategy): nat { if strategy.quietDown then 1 else 0 }

  /** The commands of a backup, by their positions. */
  lemma ExpectedAt(volume: string, name: string, strategy: Strategy, i: nat)
    requires i < |Expected(volume, name, strategy, true)|
    ensures var cmds, k, n := Expected(volume, name, strategy, true), MkdirAt(strategy), |Locations(strategy.options)|;
            && |cmds| == k + 1 + n + k
            && (i == k ==> cmds[i] == Mkdir(BackupDir(volume, name) + "/"))
            && (k < i <= k + n ==> cmds[i] == BackupCopy(volume, name, Locations(strategy.options)[i - k - 1]))
            && (i < k || k + n < i ==> cmds[i].Script?)
  {
    CopiesAt(volume, name, Locations(strategy.options));
    var k := MkdirAt(strategy);
    if k < i <= k + |Locations(strategy.options)| {
      assert Expected(volume, name, strategy, true)[i] ==
             Copies(volume, name, Locations(strategy.options))[i - k - 1];
    }
  }

  /** These commands were run, and of them mkdir and cp succeeded. */
  ghost predicate CameOut(tried: seq<Attempt>, cmds: seq<Command>) {
    && |tried| == |cmds|
    && forall i | 0 <= i < |tried| :: tried[i].cmd == cmds[i] && (!cmds[i].Script? ==> tried[i].ok)
  }

  lemma CompleteTried(volume: string, name: string, strategy: Strategy, events: seq<Event>, r: Progress)
    requires Reaches(BackupJob(volume, name, strategy), events, r) && StoresDone(events) && FilesSucceed(events)
    ensures CameOut(Tried(events), Expected(volume, name, strategy, true))
  {
    BackupCompletedIff(volume, name, strategy, events, r);
    BackupGrammar(volume, name, strategy, events, r);
    TriedCommands(events);
    TriedFilesOk(events);
    if Made(events) == Some(false) {
      ExpectedShape(volume, name, strategy, false, MkdirAt(strategy));
      MadeIsFirstMkdir(events, MkdirAt(strategy));
      assert false;
    }
  }

  /** If a run has stored BackupCompleted True and no mkdir or cp of it failed, it made its directory and every selected copy. */
  lemma CompleteBackup(volume: string, name: string, strategy: Strategy, events: seq<Event>, r: Progress)
    requires Reaches(BackupJob(volume, name, strategy), events, r) && StoresDone(events) && FilesSucceed(events)
    ensures var tried, k, locations := Tried(events), MkdirAt(strategy), Locations(strategy.options);
            && |tried| == k + 1 + |locations| + k
            && tried[k] == Attempt(Mkdir(BackupDir(volume, name) + "/"), true)
            && (forall i | 0 <= i < |locations| :: tried[k + 1 + i] == Attempt(BackupCopy(volume, name, locations[i]), true))
            && (forall i | 0 <= i < |tried| && (i < k || k + |locations| < i) :: tried[i].cmd.Script?)
  {
    CompleteTried(volume, name, strategy, events, r);
    var tried, k, n := Tried(events), MkdirAt(strategy), |Locations(strategy.options)|;
    assert tried != [];
    CameOutAt(volume, name, strategy, tried, 0);
    CameOutAt(volume, name, strategy, tried, k);
    forall i | 0 <= i < n ensures tried[k + 1 + i] == Attempt(BackupCopy(volume, name, Locations(strategy.options)[i]), true) {
      CameOutAt(volume, name, strategy, tried, k + 1 + i);
    }
    forall i | 0 <= i < |tried| && (i < k || k + n < i) ensures tried[i].cmd.Script? {
      CameOutAt(volume, name, strategy, tried, i);
    }
  }

  lemma CameOutAt(volume: string, name: string, strategy: Strategy, tried: seq<Attempt>, i: nat)
    requires CameOut(tried, Expected(volume, name, strategy, true)) && i < |tried|
    ensures var k, n := MkdirAt(strategy), |Locations(strategy.options)|;
            && |tried| == k + 1 + n + k
            && (i == k ==> tried[i] == Attempt(Mkdir(BackupDir(volume, name) + "/"), true))
            && (k < i <= k + n ==> tried[i] == Attempt(BackupCopy(volume, name, Locations(strategy.options)[i - k - 1]), true))
            && (i < k || k + n < i ==> tried[i].cmd.Script?)
  {
    ExpectedAt(volume, name, strategy, i);
    assert tried[i] == Attempt(tried[i].cmd, tried[i].ok);
  }

  // ---- in what state Jenkins is left ------------------------------------------------------

  /** Jenkins is quieted down after these commands: a failed script changes nothing. */
  function Quieted(tried: seq<Attempt>): bool {
    if tried == [] then false
    else
      var last := tried[|tried| - 1];
      if last == Attempt(QUIET_DOWN, true) then true
      else if last == Attempt(CANCEL_QUIET_DOWN, true) then false
      else Quieted(tried[..|tried| - 1])
  }

  lemma {:induction false} QuietedByFirst(tried: seq<Attempt>)
    requires tried != []
    requires forall i | 0 < i < |tried| :: tried[i] != Attempt(QUIET_DOWN, true)
    requires forall i | 0 <= i < |tried| - 1 :: tried[i] != Attempt(CANCEL_QUIET_DOWN, true)
    ensures Quieted(tried) <==> tried[0] == Attempt(QUIET_DOWN, true) && tried[|tried| - 1] != Attempt(CANCEL_QUIET_DOWN, true)
  {
    if |tried| > 1 {
      assert forall i | 0 <= i < |tried| - 1 :: tried[..|tried| - 1][i] == tried[i];
      QuietedByFirst(tried[..|tried| - 1]);
    } else {
      assert tried[..0] == [] && !Quieted([]);
      ScriptsDiffer();
    }
  }

  lemma ScriptsDiffer()
    ensures QUIET_DOWN != CANCEL_QUIET_DOWN
  {
    assert |QUIET_DOWN.path| < |CANCEL_QUIET_DOWN.path|;
  }

  lemma ScriptsAt(volume: string, name: string, strategy: Strategy, made: bool, i: nat)
    requires i < |Expected(volume, name, strategy, made)|
    ensures var cmds := Expected(volume, name, strategy, made);
            && (cmds[i] == QUIET_DOWN <==> strategy.quietDown && i == 0)
            && (cmds[i] == CANCEL_QUIET_DOWN <==> strategy.quietDown && i == |cmds| - 1)
            && (strategy.quietDown ==> |cmds| > 1)
  {
    ScriptsDiffer();
    var copies := if made then Copies(volume, name, Locations(strategy.options)) else [];
    CopiesAt(volume, name, Locations(strategy.options));
    var k := MkdirAt(strategy);
    if k < i <= k + |copies| {
      assert Expected(volume, name, strategy, made)[i] == copies[i - k - 1];
    }
  }

  /**
   * A run leaves Jenkins quieted down if and only if its quiet-down succeeded and its cancel did not; if
   * all its status writes were accepted, that is if and only if the cancel was issued and failed itself.
   */
  lemma LeftQuietIff(volume: string, name: string, strategy: Strategy, events: seq<Event>, r: Progress)
    requires Reaches(BackupJob(volume, name, strategy), events, r)
    ensures var tried := Tried(events);
            && (Quieted(tried) <==> Attempt(QUIET_DOWN, true) in tried && Attempt(CANCEL_QUIET_DOWN, true) !in tried)
            && (Quieted(tried) ==> strategy.quietDown)
            && (r.rest.Halt? && WritesSucceed(events) ==>
                  (Quieted(tried) <==> Attempt(QUIET_DOWN, true) in tried && Attempt(CANCEL_QUIET_DOWN, false) in tried))
  {
    var tried := Tried(events);
    BackupGrammar(volume, name, strategy, events, r);
    TriedCommands(events);
    var made := Made(events) != Some(false);
    var cmds := Expected(volume, name, strategy, made);
    if tried != [] {
      assert Commands(events) <= cmds;
      forall i | 0 <= i < |tried|
        ensures tried[i].cmd == QUIET_DOWN ==> i == 0
        ensures tried[i].cmd == CANCEL_QUIET_DOWN ==> strategy.quietDown && i == |tried| - 1
        ensures strategy.quietDown && |tried| == |cmds| && i == |tried| - 1 ==> tried[i].cmd == CANCEL_QUIET_DOWN && i > 0
        ensures tried[i].cmd == QUIET_DOWN ==> strategy.quietDown
      {
        ScriptsAt(volume, name, strategy, made, i);
        assert tried[i].cmd == cmds[i];
      }
      ScriptsDiffer();
      QuietedByFirst(tried);
    }
  }

  lemma {:induction false} TriedAsChosen(events: seq<Event>, chosen: Command -> bool)
    requires forall i | 0 <= i < |events| && events[i].Ran? :: events[i].ok == chosen(events[i].cmd)
    ensures forall t | t in Tried(events) :: t.ok == chosen(t.cmd)
  {
    if events != [] {
      assert forall i | 0 <= i < |events[1..]| :: events[1..][i] == events[i + 1];
      TriedAsChosen(events[1..], chosen);
    }
  }

  /**
   * With a quiet-down in its strategy a backup can make every copy, have every write accepted, store
   * BackupCompleted True and still end with Jenkins quieted down.
   */
  lemma DoneAndLeftQuiet(volume: string, name: string, strategy: Strategy) returns (events: seq<Event>, r: Progress)
    requires strategy.quietDown
    ensures Reaches(BackupJob(volume, name, strategy), events, r) && r.rest.Halt? && WritesSucceed(events)
    ensures StoresDone(events) && FilesSucceed(events) && Quieted(Tried(events))
  {
    var chosen := (c: Command) => c != CANCEL_QUIET_DOWN;
    events, r := CompletePath(ProgramOf(BackupJob(volume, name, strategy)), map[], chosen);
    BackupCompletedIff(volume, name, strategy, events, r);
    BackupGrammar(volume, name, strategy, events, r);
    LeftQuietIff(volume, name, strategy, events, r);
    TriedCommands(events);
    TriedAsChosen(events, chosen);
    ScriptsAt(volume, name, strategy, Made(events) != Some(false), 0);
    ScriptsDiffer();
    assert Tried(events)[0] == Attempt(QUIET_DOWN, true);
  }

  /** What a run has in memory when its quiet-down has succeeded. */
  const QUIETED: Conditions := map[BackupInitialized := true, QuietDownStarted := true]

  /** The events up to a quiet-down that succeeded. */
  function QuietDownEvents(): seq<Event> {
    [Inited(true), Updated(map[BackupInitialized := true], true), Ran(QUIET_DOWN, true)]
  }

  /** If the status write after the quiet-down is refused, the run ends there: the cancel is never issued. */
  lemma CutOffQuiet(volume: string, name: string, strategy: Strategy) returns (at: Progress, r: Progress)
    requires strategy.quietDown
    ensures Reaches(BackupJob(volume, name, strategy), QuietDownEvents(), at) && at.rest.Update? && at.conditions == QUIETED
    ensures var events := QuietDownEvents() + [Updated(QUIETED, false)];
            && Reaches(BackupJob(volume, name, strategy), events, r) && r.rest.Halt?
            && Quieted(Tried(events)) && CANCEL_QUIET_DOWN !in Commands(events)
  {
    var p := BackupProgram(volume, name, strategy);
    var claim, main := p.inited, p.inited.next.next;
    var claimed: Conditions := map[BackupInitialized := true];
    var start: Conditions := map[];
    assert claimed == start[BackupInitialized := true];
    assert Settle(Progress(main, claimed)) == Progress(main, claimed);
    assert Settle(Progress(claim, start)) == Progress(claim.next, claimed);
    assert claimed[QuietDownStarted := true] == QUIETED;
    assert Settle(Progress(main.ok.next, QUIETED)) == Progress(main.ok.next, QUIETED);
    at := Settle(Progress(main.ok, claimed));
    assert at == Progress(main.ok.next, QUIETED);
    r := Progress(Halt, QUIETED);
    var job := BackupJob(volume, name, strategy);
    var whole := Progress(ProgramOf(job), start);
    FollowStep(whole, [], Inited(true));
    FollowStep(whole, [Inited(true)], Updated(claimed, true));
    FollowStep(whole, [Inited(true), Updated(claimed, true)], Ran(QUIET_DOWN, true));
    assert [Inited(true), Updated(claimed, true)] + [Ran(QUIET_DOWN, true)] == QuietDownEvents();
    FollowStep(whole, QuietDownEvents(), Updated(QUIETED, false));
    CutOffTried();
  }

  lemma CutOffTried()
    ensures var events := QuietDownEvents() + [Updated(QUIETED, false)];
            Tried(events) == [Attempt(QUIET_DOWN, true)] && Commands(events) == [QUIET_DOWN]
    ensures Quieted([Attempt(QUIET_DOWN, true)]) && QUIET_DOWN != CANCEL_QUIET_DOWN
  {
    ScriptsDiffer();
    var refused := [Updated(QUIETED, false)];
    assert refused[1..] == [] && Tried(refused) == [] && Commands(refused) == [];
    var ran := [Ran(QUIET_DOWN, true)] + refused;
    assert ran[1..] == refused && Tried(ran) == [Attempt(QUIET_DOWN, true)];
    assert Commands(ran) == [ran[0].cmd] + Commands(ran[1..]) == [QUIET_DOWN];
    var written := [Updated(map[BackupInitialized := true], true)] + ran;
    assert written[1..] == ran && Tried(written) == Tried(ran) && Commands(written) == Commands(ran);
    var events := QuietDownEvents() + refused;
    assert events[1..] == written && !events[0].Ran?;
  }

  /** Exactly the strategies without a quiet-down never have a finished run leave Jenkins quieted down. */
  lemma NeverLeftQuietIff(volume: string, name: string, strategy: Strategy)
    ensures (forall events, r | Reaches(BackupJob(volume, name, strategy), events, r) && r.rest.Halt? :: !Quieted(Tried(events)))
            <==> !strategy.quietDown
  {
    if strategy.quietDown {
      var events, r := DoneAndLeftQuiet(volume, name, strategy);
    } else {
      forall events, r | Reaches(BackupJob(volume, name, strategy), events, r) ensures !Quieted(Tried(events)) {
        LeftQuietIff(volume, name, strategy, events, r);
      }
    }
  }
}
