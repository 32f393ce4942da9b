/** What one backup or restore run issues, over all patterns of command and status-write failures. */
module Grammar {
  import opened Text
  import opened Programs

  // ---- the command grammar of a backup ----------------------------------------------------

  function Copies(volume: string, name: string, locations: seq<string>): (r: seq<Command>)
    ensures |r| == |locations|
  {
    if locations == [] then [] else [BackupCopy(volume, name, locations[0])] + Copies(volume, name, locations[1..])
  }

  /** The commands of a backup, by whether its directory could be made. */
  function Expected(volume: string, name: string, strategy: Strategy, made: bool): seq<Command> {
    (if strategy.quietDown then [QUIET_DOWN] else []) +
    [Mkdir(BackupDir(volume, name) + "/")] +
    (if made then Copies(volume, name, Locations(strategy.options)) else []) +
    (if strategy.quietDown then [CANCEL_QUIET_DOWN] else [])
  }

  /**
   * Every path of p on which all writes succeed issues exactly the first list, or exactly the
   * second if the path holds a failed mkdir.
   */
  ghost predicate Issues(p: Program, made: seq<Command>, unmade: seq<Command>)
    decreases p
  {
    match p
    case Halt => made == unmade == []
    case InitClient(_, _) => false
    case Set(_, _, q) => Issues(q, made, unmade)
    case Update(q) => Issues(q, made, unmade)
    case Exec(cmd, q, r) =>
      && made != [] && unmade != [] && made[0] == unmade[0] == cmd
      && Issues(q, made[1..], if cmd.Mkdir? then made[1..] else unmade[1..])
      && Issues(r, if cmd.Mkdir? then unmade[1..] else made[1..], unmade[1..])
  }

  lemma {:induction false} SettleIssues(p: Progress, made: seq<Command>, unmade: seq<Command>)
    requires Issues(p.rest, made, unmade)
    ensures Issues(Settle(p).rest, made, unmade)
    decreases p.rest
  {
    if p.rest.Set? {
      SettleIssues(Progress(p.rest.next, p.conditions[p.rest.condition := p.rest.status]), made, unmade);
    }
  }

  /** The two lists still open once a command has come out. */
  function Narrow(cmd: Command, ok: bool, made: seq<Command>, unmade: seq<Command>): (seq<Command>, seq<Command>)
    requires made != [] && unmade != []
  {
    if !cmd.Mkdir? then (made[1..], unmade[1..])
    else if ok then (made[1..], made[1..])
    else (unmade[1..], unmade[1..])
  }

  lemma IssuesRan(p: Progress, e: Event, made: seq<Command>, unmade: seq<Command>)
    requires Issues(p.rest, made, unmade) && e.Ran? && !p.rest.Set? && After(p, e).Some?
    ensures made != [] && unmade != [] && made[0] == unmade[0] == e.cmd
    ensures var (a, b) := Narrow(e.cmd, e.ok, made, unmade); Issues(After(p, e).value.rest, a, b)
  {
    var (a, b) := Narrow(e.cmd, e.ok, made, unmade);
    SettleIssues(Progress(if e.ok then p.rest.ok else p.rest.failed, p.conditions), a, b);
  }

  /** The commands issued so far start the first list, or the second once mkdir has failed; if finished, they are all of it. */
  ghost predicate Within(events: seq<Event>, finished: bool, made: seq<Command>, unmade: seq<Command>) {
    && (Made(events) != Some(false) ==> Commands(events) <= made)
    && (Made(events) != Some(true) ==> Commands(events) <= unmade)
    && (finished && WritesSucceed(events) ==> Commands(events) == if Made(events) == Some(false) then unmade else made)
  }

  lemma WithinRan(events: seq<Event>, finished: bool, made: seq<Command>, unmade: seq<Command>)
    requires events != [] && events[0].Ran? && made != [] && unmade != []
    requires made[0] == unmade[0] == events[0].cmd
    requires var (a, b) := Narrow(events[0].cmd, events[0].ok, made, unmade); Within(events[1..], finished, a, b)
    ensures Within(events, finished, made, unmade)
  {
    var cmd := events[0].cmd;
    assert made == [cmd] + made[1..] && unmade == [cmd] + unmade[1..];
    WritesSucceedMore(events);
  }

  lemma WritesSucceedMore(events: seq<Event>)
    requires events != []
    ensures WritesSucceed(events) <==> WritesSucceed(events[1..]) && (events[0].Updated? ==> events[0].ok)
  {
    assert forall i | 0 < i < |events| :: events[i] == events[1..][i - 1];
    assert forall i | 0 <= i < |events[1..]| :: events[1..][i] == events[i + 1];
  }

  lemma {:induction false} IssuesFollow(p: Progress, events: seq<Event>, made: seq<Command>, unmade: seq<Command>)
    requires Issues(p.rest, made, unmade)
    requires Follow(p, events).Some?
    ensures Within(events, Follow(p, events).value.rest.Halt?, made, unmade)
    decreases |events|
  {
    SettleIssues(p, made, unmade);
    var q := Settle(p);
    if events != [] {
      var e, rest := events[0], events[1..];
      var next := After(q, e).value;
      if e.Ran? {
        IssuesRan(q, e, made, unmade);
        var (a, b) := Narrow(e.cmd, e.ok, made, unmade);
        IssuesFollow(next, rest, a, b);
        WithinRan(events, Follow(next, rest).value.rest.Halt?, made, unmade);
      } else if e.ok {
        SettleIssues(Progress(q.rest.next, q.conditions), made, unmade);
        IssuesFollow(next, rest, made, unmade);
        WritesSucceedMore(events);
      } else {
        HaltFollow(next, rest);
      }
    }
  }

  lemma HaltFollow(p: Progress, events: seq<Event>)
    requires p.rest.Halt? && Follow(p, events).Some?
    ensures events == []
  {
  }

  lemma {:induction false} BackupCopiesIssue(volume: string, name: string, locations: seq<string>, k: Program,
                                             after: seq<Command>)
    requires Issues(k, after, after)
    ensures var all := Copies(volume, name, locations) + after;
            Issues(BackupCopiesThen(volume, name, locations, k), all, all)
    decreases |locations|
  {
    if locations != [] {
      BackupCopiesIssue(volume, name, locations[1..], k, after);
      var rest := Copies(volume, name, locations[1..]) + after;
      var all := Copies(volume, name, locations) + after;
      assert all[1..] == rest;
      assert Issues(Set(BackupCompleted, false, Update(BackupCopiesThen(volume, name, locations[1..], k))), rest, rest);
    } else {
      assert Copies(volume, name, locations) + after == after;
    }
  }

  /** A script whose outcome is written, and then k. */
  lemma ScriptIssues(cmd: Command, c: Condition, k: Program, made: seq<Command>, unmade: seq<Command>)
    requires cmd.Script? && Issues(k, made, unmade)
    ensures Issues(Exec(cmd, Set(c, true, Update(k)), Set(c, false, Update(k))), [cmd] + made, [cmd] + unmade)
  {
    assert ([cmd] + made)[1..] == made && ([cmd] + unmade)[1..] == unmade;
    assert Issues(Set(c, true, Update(k)), made, unmade) && Issues(Set(c, false, Update(k)), made, unmade);
  }

  lemma BackupThenIssues(volume: string, name: string, options: Options, k: Program, after: seq<Command>)
    requires Issues(k, after, after)
    ensures var mkdir := Mkdir(BackupDir(volume, name) + "/");
            Issues(BackupThen(volume, name, options, k),
                   [mkdir] + Copies(volume, name, Locations(options)) + after, [mkdir] + after)
  {
    var mkdir, copies := Mkdir(BackupDir(volume, name) + "/"), Copies(volume, name, Locations(options));
    var made, unmade := [mkdir] + copies + after, [mkdir] + after;
    BackupCopiesIssue(volume, name, Locations(options), k, after);
    assert made[1..] == copies + after && unmade[1..] == after;
    if Locations(options) == [] {
      assert copies + after == after;
    }
    assert Issues(Set(BackupCompleted, false, Update(k)), after, after);
  }

  lemma BackupIssues(volume: string, name: string, strategy: Strategy)
    ensures var b := BackupProgram(volume, name, strategy);
            && Issues(b.inited, Expected(volume, name, strategy, true), Expected(volume, name, strategy, false))
            && Issues(b.refused, [], [])
  {
    var finish := Set(BackupCompleted, true, Update(Halt));
    var cancel := if strategy.quietDown then CancelQuietDownThen(finish) else finish;
    var after := if strategy.quietDown then [CANCEL_QUIET_DOWN] else [];
    assert Issues(finish, [], []);
    ScriptIssues(CANCEL_QUIET_DOWN, QuietDownCancelled, finish, [], []);
    BackupThenIssues(volume, name, strategy.options, cancel, after);
    var backup := BackupThen(volume, name, strategy.options, cancel);
    var mkdir := Mkdir(BackupDir(volume, name) + "/");
    var made, unmade := [mkdir] + Copies(volume, name, Locations(strategy.options)) + after, [mkdir] + after;
    ScriptIssues(QUIET_DOWN, QuietDownStarted, backup, made, unmade);
    assert Expected(volume, name, strategy, true) == if strategy.quietDown then [QUIET_DOWN] + made else made;
    assert Expected(volume, name, strategy, false) == if strategy.quietDown then [QUIET_DOWN] + unmade else unmade;
  }

  /**
   * The grammar of a backup. Whatever commands and writes fail, the commands issued so far are a
   * prefix of: quiet-down if enabled, mkdir, the selected copies in order unless mkdir failed,
   * cancel-quiet-down if enabled. If no write failed, a finished run has issued all of it.
   */
  lemma BackupGrammar(volume: string, name: string, strategy: Strategy, events: seq<Event>, r: Progress)
    requires Reaches(BackupJob(volume, name, strategy), events, r)
    ensures Commands(events) <= Expected(volume, name, strategy, Made(events) != Some(false))
    ensures r.rest.Halt? && WritesSucceed(events) && events[0].ok ==>
              Commands(events) == Expected(volume, name, strategy, Made(events) != Some(false))
    ensures events != [] && !events[0].ok ==> Commands(events) == []
  {
    var b := BackupProgram(volume, name, strategy);
    BackupIssues(volume, name, strategy);
    if events != [] {
      var e, rest := events[0], events[1..];
      var tree := if e.ok then b.inited else b.refused;
      assert WritesSucceed(events) ==> WritesSucceed(rest);
      FollowSettled(Progress(tree, map[]), rest);
      if e.ok {
        IssuesFollow(Progress(tree, map[]), rest, Expected(volume, name, strategy, true),
                     Expected(volume, name, strategy, false));
      } else {
        IssuesFollow(Progress(tree, map[]), rest, [], []);
      }
    }
  }

  lemma FollowSettled(p: Progress, events: seq<Event>)
    ensures Follow(Settle(p), events) == Follow(p, events)
  {
  }

  lemma {:induction false} CopiesAt(volume: string, name: string, locations: seq<string>)
    ensures forall i | 0 <= i < |locations| ::
              Copies(volume, name, locations)[i] == BackupCopy(volume, name, locations[i])
  {
    if locations != [] {
      CopiesAt(volume, name, locations[1..]);
      assert Copies(volume, name, locations)[1..] == Copies(volume, name, locations[1..]);
      forall i | 0 <= i < |locations|
        ensures Copies(volume, name, locations)[i] == BackupCopy(volume, name, locations[i])
      {
        if i > 0 {
          assert locations[i] == locations[1..][i - 1];
        }
      }
    }
  }

  // ---- what a run has tried ---------------------------------------------------------------

  datatype Attempt = Attempt(cmd: Command, ok: bool)

  /** All commands a run has tried, with their outcomes. */
  function Tried(events: seq<Event>): seq<Attempt> {
    if events == [] then []
    else (if events[0].Ran? then [Attempt(events[0].cmd, events[0].ok)] else []) + Tried(events[1..])
  }

  lemma {:induction false} TriedCommands(events: seq<Event>)
    ensures |Tried(events)| == |Commands(events)|
    ensures forall i | 0 <= i < |Tried(events)| :: Tried(events)[i].cmd == Commands(events)[i]
  {
    if events != [] {
      TriedCommands(events[1..]);
    }
  }

  lemma {:induction false} MadeIsFirstMkdir(events: seq<Event>, k: nat)
    requires k < |Tried(events)| && Tried(events)[k].cmd.Mkdir?
    requires forall i | 0 <= i < k :: !Tried(events)[i].cmd.Mkdir?
    ensures Made(events) == Some(Tried(events)[k].ok)
  {
    if events[0].Ran? {
      if k > 0 {
        assert Tried(events)[0].cmd == events[0].cmd;
        assert forall i | 0 <= i < |Tried(events[1..])| :: Tried(events[1..])[i] == Tried(events)[i + 1];
        MadeIsFirstMkdir(events[1..], k - 1);
      }
    } else {
      assert Tried(events) == Tried(events[1..]);
      MadeIsFirstMkdir(events[1..], k);
    }
  }

  /** Where mkdir and the copies stand among the commands of a backup. */
  lemma ExpectedShape(volume: string, name: string, strategy: Strategy, made: bool, j: nat)
    requires j < |Expected(volume, name, strategy, made)|
    ensures var cmds := Expected(volume, name, strategy, made);
            var dir := BackupDir(volume, name) + "/";
            var k := if strategy.quietDown then 1 else 0;
            && k < |cmds| && cmds[k] == Mkdir(dir)
            && (forall i | 0 <= i < k :: !cmds[i].Mkdir?)
            && (cmds[j].Mkdir? ==> cmds[j].dir == dir)
            && (cmds[j].Copy? ==> made && k < j && cmds[j].to == dir)
  {
    var locations := Locations(strategy.options);
    var cmds := Expected(volume, name, strategy, made);
    var k := if strategy.quietDown then 1 else 0;
    var copies := if made then Copies(volume, name, locations) else [];
    CopiesAt(volume, name, locations);
    if k < j <= k + |copies| {
      assert cmds[j] == copies[j - k - 1];
    }
  }

  // ---- what a restore's conditions mean ---------------------------------------------------

  /** The copies a run has attempted, with their outcomes. */
  function Attempts(events: seq<Event>): seq<Attempt> {
    if events == [] then []
    else
      (if events[0].Ran? && events[0].cmd.Copy? then [Attempt(events[0].cmd, events[0].ok)] else []) +
      Attempts(events[1..])
  }

  function Successes(volume: string, name: string, locations: seq<string>): (r: seq<Attempt>)
    ensures |r| == |locations|
  {
    if locations == [] then []
    else [Attempt(RestoreCopy(volume, name, locations[0]), true)] + Successes(volume, name, locations[1..])
  }

  /** RestoreCompleted, where set, tells how the selected copies came out. */
  ghost predicate Honest(conditions: Conditions, tried: seq<Attempt>, all: seq<Attempt>) {
    RestoreCompleted in conditions ==>
      if conditions[RestoreCompleted] then all != [] && tried == all
      else exists n | 0 <= n < |all| :: tried == all[..n] + [all[n].(ok := false)]
  }

  /** Honest now and after every event p can still produce; no condition is set twice. */
  ghost predicate StaysHonest(p: Program, conditions: Conditions, tried: seq<Attempt>, all: seq<Attempt>)
    decreases p
  {
    Honest(conditions, tried, all) &&
    match p
    case Halt => true
    case InitClient(q, r) => StaysHonest(q, conditions, tried, all) && StaysHonest(r, conditions, tried, all)
    case Exec(cmd, q, r) =>
      && StaysHonest(q, conditions, if cmd.Copy? then tried + [Attempt(cmd, true)] else tried, all)
      && StaysHonest(r, conditions, if cmd.Copy? then tried + [Attempt(cmd, false)] else tried, all)
    case Set(c, status, q) => c !in conditions && StaysHonest(q, conditions[c := status], tried, all)
    case Update(q) => StaysHonest(q, conditions, tried, all)
  }

  lemma {:induction false} SettleHonest(p: Progress, tried: seq<Attempt>, all: seq<Attempt>)
    requires StaysHonest(p.rest, p.conditions, tried, all)
    ensures StaysHonest(Settle(p).rest, Settle(p).conditions, tried, all)
    ensures forall c | c in p.conditions :: c in Settle(p).conditions && Settle(p).conditions[c] == p.conditions[c]
    decreases p.rest
  {
    if p.rest.Set? {
      SettleHonest(Progress(p.rest.next, p.conditions[p.rest.condition := p.rest.status]), tried, all);
    }
  }

  /** The program left once an event has happened. */
  function Taken(p: Program, e: Event): Program
    requires match e case Inited(_) => p.InitClient? case Ran(_, _) => p.Exec? case Updated(_, _) => p.Update?
  {
    match e
    case Inited(ok) => if ok then p.inited else p.refused
    case Ran(_, ok) => if ok then p.ok else p.failed
    case Updated(_, ok) => if ok then p.next else Halt
  }

  function TriedThen(tried: seq<Attempt>, e: Event): seq<Attempt> {
    if e.Ran? && e.cmd.Copy? then tried + [Attempt(e.cmd, e.ok)] else tried
  }

  lemma HonestStep(q: Progress, e: Event, tried: seq<Attempt>, all: seq<Attempt>)
    requires StaysHonest(q.rest, q.conditions, tried, all) && !q.rest.Set? && After(q, e).Some?
    ensures StaysHonest(After(q, e).value.rest, After(q, e).value.conditions, TriedThen(tried, e), all)
    ensures forall c | c in q.conditions ::
              c in After(q, e).value.conditions && After(q, e).value.conditions[c] == q.conditions[c]
  {
    var tree := Taken(q.rest, e);
    assert StaysHonest(tree, q.conditions, TriedThen(tried, e), all);
    SettleHonest(Progress(tree, q.conditions), TriedThen(tried, e), all);
  }

  /** At every point of the run its conditions are honest, and all that was set still stands. */
  lemma {:induction false} HonestFollow(p: Progress, events: seq<Event>, tried: seq<Attempt>, all: seq<Attempt>)
    requires StaysHonest(p.rest, p.conditions, tried, all) && Follow(p, events).Some?
    ensures var r := Follow(p, events).value;
            && Honest(r.conditions, tried + Attempts(events), all)
            && (forall c | c in p.conditions :: c in r.conditions && r.conditions[c] == p.conditions[c])
    decreases |events|
  {
    SettleHonest(p, tried, all);
    if events == [] {
      assert tried + Attempts(events) == tried;
    } else {
      HonestStep(Settle(p), events[0], tried, all);
      HonestFollow(After(Settle(p), events[0]).value, events[1..], TriedThen(tried, events[0]), all);
      assert tried + Attempts(events) == TriedThen(tried, events[0]) + Attempts(events[1..]);
    }
  }

  /** What a write has stored is still what the run holds at the end. */
  lemma {:induction false} WrittenStands(p: Progress, events: seq<Event>, tried: seq<Attempt>, all: seq<Attempt>, i: nat)
    requires StaysHonest(p.rest, p.conditions, tried, all) && Follow(p, events).Some?
    requires i < |events| && events[i].Updated?
    ensures var r := Follow(p, events).value;
            forall c | c in events[i].conditions :: c in r.conditions && r.conditions[c] == events[i].conditions[c]
    decreases |events|
  {
    SettleHonest(p, tried, all);
    HonestStep(Settle(p), events[0], tried, all);
    if i == 0 {
      HonestFollow(After(Settle(p), events[0]).value, events[1..], TriedThen(tried, events[0]), all);
    } else {
      WrittenStands(After(Settle(p), events[0]).value, events[1..], TriedThen(tried, events[0]), all, i - 1);
    }
  }

  ghost predicate RestartIsFresh(conditions: Conditions) {
    RestartStarted !in conditions && SafeRestartStarted !in conditions
  }

  lemma RestartHonest(strategy: Strategy, conditions: Conditions, tried: seq<Attempt>, all: seq<Attempt>)
    requires Honest(conditions, tried, all) && RestartIsFresh(conditions)
    ensures StaysHonest(RestartThen(strategy, Update(Halt)), conditions, tried, all)
  {
    forall c: Condition, status: bool, k: Program | c !in conditions && c != RestoreCompleted && k in {Update(Halt), Update(Update(Halt))}
      ensures StaysHonest(Set(c, status, k), conditions, tried, all)
    {
      assert Honest(conditions[c := status], tried, all);
      assert StaysHonest(Update(Halt), conditions[c := status], tried, all);
    }
  }

  /** How the copies came out is set, written and followed by the restart. */
  lemma OutcomeHonest(strategy: Strategy, status: bool, conditions: Conditions, tried: seq<Attempt>, all: seq<Attempt>)
    requires RestoreCompleted !in conditions && RestartIsFresh(conditions)
    requires Honest(conditions[RestoreCompleted := status], tried, all)
    ensures StaysHonest(Set(RestoreCompleted, status, Update(RestartThen(strategy, Update(Halt)))), conditions, tried, all)
  {
    RestartHonest(strategy, conditions[RestoreCompleted := status], tried, all);
  }

  lemma {:induction false} RestoreHonest(volume: string, name: string, locations: seq<string>, n: nat, strategy: Strategy,
                                         conditions: Conditions)
    requires n <= |locations| && locations != []
    requires RestoreCompleted !in conditions && RestartIsFresh(conditions)
    ensures var all := Successes(volume, name, locations);
            StaysHonest(RestoreCopiesThen(volume, name, locations[n..], RestartThen(strategy, Update(Halt))),
                        conditions, all[..n], all)
    decreases |locations| - n
  {
    var all := Successes(volume, name, locations);
    if n == |locations| {
      assert all[..n] == all;
      OutcomeHonest(strategy, true, conditions, all, all);
    } else {
      SuccessesAt(volume, name, locations, n);
      assert locations[n..][1..] == locations[n + 1..];
      RestoreHonest(volume, name, locations, n + 1, strategy, conditions);
      assert all[..n] + [all[n]] == all[..n + 1];
      OutcomeHonest(strategy, false, conditions, all[..n] + [all[n].(ok := false)], all);
    }
  }

  lemma {:induction false} SuccessesAt(volume: string, name: string, locations: seq<string>, n: nat)
    requires n < |locations|
    ensures Successes(volume, name, locations)[n] == Attempt(RestoreCopy(volume, name, locations[n]), true)
  {
    if n > 0 {
      SuccessesAt(volume, name, locations[1..], n - 1);
    }
  }

  /**
   * RestoreCompleted is honest. If a run of a Restore has written it True, at least one location was
   * selected and all selected copies were made, in order; if False, the first failing copy was the last.
   */
  lemma {:induction false} RestoreCompletedIsHonest(volume: string, name: string, strategy: Strategy, events: seq<Event>, r: Progress,
                                 i: nat)
    requires Reaches(RestoreJob(volume, name, strategy), events, r)
    requires i < |events| && events[i].Updated?
    ensures Honest(events[i].conditions, Attempts(events), Successes(volume, name, Locations(strategy.options)))
  {
    var locations := Locations(strategy.options);
    var all := Successes(volume, name, locations);
    var b := RestoreProgram(volume, name, strategy);
    var inited: Conditions := map[RestoreInitialized := true];
    if locations == [] {
      RestartHonest(strategy, inited, [], all);
    } else {
      RestoreHonest(volume, name, locations, 0, strategy, inited);
      assert locations[0..] == locations;
    }
    assert StaysHonest(b.inited.next, inited, [], all);
    assert StaysHonest(b.inited, map[], [], all);
    assert StaysHonest(Update(Halt), map[RestoreInitialized := false], [], all);
    assert StaysHonest(b.refused, map[], [], all);
    HonestFollow(Progress(b, map[]), events, [], all);
    WrittenStands(Progress(b, map[]), events, [], all, i);
    assert [] + Attempts(events) == Attempts(events);
  }
}
