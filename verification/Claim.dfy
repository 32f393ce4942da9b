/**
 * Any number of reconcile runs of one Backup or Restore object, interleaved step by step over an API
 * server with optimistic locking: a run may start from any past version, a status write can only
 * commit on the current version, and runs crash, and the object's version is bumped, at any moment.
 */
module Claim {
  import opened Text
  import opened Programs
  import opened Grammar
  import opened BackupOutcome

  datatype Run = Run(job: Job, events: seq<Event>, at: Progress, version: nat, live: bool)

  /** versions[v] is what version v of the object stores; the last one is current. */
  datatype World = World(versions: seq<Conditions>, runs: seq<Run>)

  datatype Step =
    | Begin(version: nat, job: Job)               // a run reads some version and makes its lookups
    | Act(run: nat, event: Event, commit: bool)   // a write may commit although the run sees an error
    | Crash(run: nat)
    | Bump                                        // somebody else updates the object, not its status

  predicate Init(w: World) {
    w == World([map[]], [])
  }

  predicate Enabled(w: World, s: Step) {
    match s
    case Begin(v, _) => v < |w.versions|
    case Act(i, e, commit) =>
      && i < |w.runs| && w.runs[i].live && !w.runs[i].at.rest.Set? && After(w.runs[i].at, e).Some?
      && (commit ==> e.Updated? && w.runs[i].version == |w.versions| - 1)
      && (e.Updated? && e.ok ==> commit)
    case Crash(i) => i < |w.runs|
    case Bump => w.versions != []
  }

  function Apply(w: World, s: Step): World
    requires Enabled(w, s)
  {
    match s
    case Begin(v, job) =>
      if |w.versions[v]| > 0 then w
      else w.(runs := w.runs + [Run(job, [], Settle(Progress(ProgramOf(job), map[])), v, true)])
    case Act(i, e, commit) =>
      var r := w.runs[i];
      var r' := r.(events := r.events + [e], at := After(r.at, e).value,
                   version := if commit && e.ok then |w.versions| else r.version);
      World(if commit then w.versions + [e.conditions] else w.versions, w.runs[i := r'])
    case Crash(i) => w.(runs := w.runs[i := w.runs[i].(live := false)])
    case Bump => w.(versions := w.versions + [w.versions[|w.versions| - 1]])
  }

  ghost predicate Behavior(worlds: seq<World>, steps: seq<Step>) {
    && |worlds| == |steps| + 1
    && Init(worlds[0])
    && forall k: nat | k < |steps| :: Moves(worlds, steps, k)
  }

  ghost predicate Moves(worlds: seq<World>, steps: seq<Step>, k: nat)
    requires k < |steps| && k + 1 < |worlds|
  {
    Enabled(worlds[k], steps[k]) && worlds[k + 1] == Apply(worlds[k], steps[k])
  }

  // ---- what each run keeps ----------------------------------------------------------------

  lemma {:induction false} FollowKeepsKeys(p: Progress, events: seq<Event>)
    requires Follow(p, events).Some?
    ensures p.conditions.Keys <= Follow(p, events).value.conditions.Keys
    decreases |events|
  {
    if events != [] {
      FollowKeepsKeys(After(Settle(p), events[0]).value, events[1..]);
    }
  }

  /** No command comes before a status write that succeeded, and no write stores an empty list. */
  lemma ClaimComesFirst(job: Job, events: seq<Event>, r: Progress)
    requires Reaches(job, events, r)
    ensures HasRun(events) ==> HasWritten(events)
    ensures r.rest.Update? ==> r.conditions != map[]
  {
    var p := ProgramOf(job);
    if events != [] {
      var tree := if events[0].ok then p.inited else p.refused;
      var claim := Settle(Progress(tree, map[]));
      assert tree.Set? && tree.next.Update?;
      var start: Conditions := map[];
      var set1 := start[tree.condition := tree.status];
      assert Settle(Progress(tree.next, set1)) == Progress(tree.next, set1);
      assert claim == Progress(tree.next, set1);
      assert Follow(claim, events[1..]) == Some(r);
      FollowKeepsKeys(claim, events[1..]);
      assert tree.condition in r.conditions;
      if |events| > 1 {
        assert events[1..][0] == events[1];
        if !events[1].ok {
          HaltFollow(Progress(Halt, claim.conditions), events[1..][1..]);
          assert |events| == 2;
        }
      }
    }
  }

  ghost predicate Known(w: World, r: Run) {
    && Reaches(r.job, r.events, r.at)
    && r.version < |w.versions|
    && (HasWritten(r.events) ==> w.versions[|w.versions| - 1] != map[])
    && (!HasWritten(r.events) ==> w.versions[r.version] == map[])
  }

  ghost predicate Wrote(r: Run, conditions: Conditions) {
    exists k | 0 <= k < |r.events| :: r.events[k].Updated? && r.events[k].conditions == conditions
  }

  /** From the first conditions on there always are some. */
  ghost predicate Lasting(versions: seq<Conditions>) {
    forall u, v | 0 <= u <= v < |versions| :: versions[u] != map[] ==> versions[v] != map[]
  }

  lemma LastingMore(versions: seq<Conditions>, next: Conditions)
    requires Lasting(versions) && versions != []
    requires versions[|versions| - 1] != map[] ==> next != map[]
    ensures Lasting(versions + [next])
  {
    var more := versions + [next];
    forall u, v | 0 <= u <= v < |more| ensures more[u] != map[] ==> more[v] != map[] {
      if v == |versions| && u < v {
        assert versions[u] != map[] ==> versions[|versions| - 1] != map[];
      }
    }
  }

  ghost predicate Invariant(w: World) {
    && w.versions != []
    && Lasting(w.versions)
    && (forall i | 0 <= i < |w.runs| :: Known(w, w.runs[i]))
    && (forall i, j | 0 <= i < j < |w.runs| :: !(HasWritten(w.runs[i].events) && HasWritten(w.runs[j].events)))
    && forall v | 0 <= v < |w.versions| && w.versions[v] != map[] :: Authored(w, w.versions[v])
  }

  /** Some run has issued a write of these conditions. */
  ghost predicate Authored(w: World, stored: Conditions) {
    exists i | 0 <= i < |w.runs| :: Wrote(w.runs[i], stored)
  }

  lemma CommitsSomething(r: Run, e: Event)
    requires Reaches(r.job, r.events, r.at) && e.Updated? && !r.at.rest.Set? && After(r.at, e).Some?
    ensures e.conditions != map[]
  {
    ClaimComesFirst(r.job, r.events, r.at);
  }

  lemma StepKeepsVersions(w: World, s: Step)
    requires Invariant(w) && Enabled(w, s)
    ensures var w' := Apply(w, s);
            && w.versions <= w'.versions && Lasting(w'.versions)
            && (s.Act? && s.commit ==> w'.versions[|w'.versions| - 1] == s.event.conditions != map[])
  {
    if s.Act? && s.commit {
      CommitsSomething(w.runs[s.run], s.event);
      LastingMore(w.versions, s.event.conditions);
    } else if s.Bump? {
      LastingMore(w.versions, w.versions[|w.versions| - 1]);
    }
  }

  lemma StepKeepsRuns(w: World, s: Step, i: nat)
    requires Invariant(w) && Enabled(w, s) && i < |Apply(w, s).runs|
    ensures Known(Apply(w, s), Apply(w, s).runs[i])
    ensures i < |w.runs| ==> w.runs[i].events <= Apply(w, s).runs[i].events
  {
    StepKeepsVersions(w, s);
    var w' := Apply(w, s);
    if i == |w.runs| {
      assert Follow(Progress(ProgramOf(s.job), map[]), []) == Some(w'.runs[i].at);
      assert !HasWritten([]);
    } else if s.Act? && s.run == i {
      var r, r' := w.runs[i], w'.runs[i];
      FollowStep(Progress(ProgramOf(r.job), map[]), r.events, s.event);
      WrittenStep(r.events, s.event);
    }
  }

  lemma WrittenStep(events: seq<Event>, e: Event)
    ensures HasWritten(events + [e]) <==> HasWritten(events) || (e.Updated? && e.ok)
  {
    var more := events + [e];
    assert more[|events|] == e;
    assert forall k | 0 <= k < |events| :: more[k] == events[k];
  }

  lemma StepKeepsClaim(w: World, s: Step)
    requires Invariant(w) && Enabled(w, s)
    ensures var w' := Apply(w, s);
            forall i, j | 0 <= i < j < |w'.runs| :: !(HasWritten(w'.runs[i].events) && HasWritten(w'.runs[j].events))
  {
    if s.Act? {
      var r := w.runs[s.run];
      WrittenStep(r.events, s.event);
      if !HasWritten(r.events) && s.event.Updated? && s.event.ok {
        assert w.versions[|w.versions| - 1] == map[];
        assert forall j | 0 <= j < |w.runs| :: !HasWritten(w.runs[j].events);
      }
    } else {
      assert !HasWritten([]);
    }
  }

  lemma StepKeepsAuthors(w: World, s: Step, v: nat)
    requires Enabled(w, s) && w.versions != []
    requires forall u | 0 <= u < |w.versions| && w.versions[u] != map[] :: Authored(w, w.versions[u])
    requires v < |Apply(w, s).versions| && Apply(w, s).versions[v] != map[]
    ensures Authored(Apply(w, s), Apply(w, s).versions[v])
  {
    var w' := Apply(w, s);
    var stored := w'.versions[v];
    if v == |w.versions| && s.Act? {
      var r := w'.runs[s.run];
      assert r.events[|r.events| - 1] == s.event;
      assert Wrote(r, stored);
    } else {
      var u := if v == |w.versions| then v - 1 else v;
      assert w.versions[u] == stored;
      StaysAuthored(w, s, stored);
    }
  }

  lemma StaysAuthored(w: World, s: Step, stored: Conditions)
    requires Enabled(w, s) && Authored(w, stored)
    ensures Authored(Apply(w, s), stored)
  {
    var i :| 0 <= i < |w.runs| && Wrote(w.runs[i], stored);
    StepKeepsEvents(w, s, i);
    WroteMore(w.runs[i], Apply(w, s).runs[i], stored);
  }

  lemma WroteMore(r: Run, r': Run, stored: Conditions)
    requires r.events <= r'.events && Wrote(r, stored)
    ensures Wrote(r', stored)
  {
    var k :| 0 <= k < |r.events| && r.events[k].Updated? && r.events[k].conditions == stored;
    assert r'.events[k] == r.events[k];
  }

  lemma StepKeepsInvariant(w: World, s: Step)
    requires Invariant(w) && Enabled(w, s)
    ensures Invariant(Apply(w, s))
  {
    StepKeepsVersions(w, s);
    StepKeepsClaim(w, s);
    forall i | 0 <= i < |Apply(w, s).runs| ensures Known(Apply(w, s), Apply(w, s).runs[i]) {
      StepKeepsRuns(w, s, i);
    }
    forall v | 0 <= v < |Apply(w, s).versions| && Apply(w, s).versions[v] != map[]
      ensures Authored(Apply(w, s), Apply(w, s).versions[v])
    {
      StepKeepsAuthors(w, s, v);
    }
  }

  lemma {:induction false} Reachable(worlds: seq<World>, steps: seq<Step>, k: nat)
    requires Behavior(worlds, steps) && k < |worlds|
    ensures Invariant(worlds[k])
  {
    if k > 0 {
      Reachable(worlds, steps, k - 1);
      assert Moves(worlds, steps, k - 1);
      StepKeepsInvariant(worlds[k - 1], steps[k - 1]);
    }
  }

  // ---- the theorems -----------------------------------------------------------------------

  /** In every interleaving, at most one run ever issues a command. */
  lemma AtMostOneRunIssuesCommands(worlds: seq<World>, steps: seq<Step>, k: nat, i: nat, j: nat)
    requires Behavior(worlds, steps) && k < |worlds|
    requires i < |worlds[k].runs| && j < |worlds[k].runs|
    requires HasRun(worlds[k].runs[i].events) && HasRun(worlds[k].runs[j].events)
    ensures i == j
  {
    Reachable(worlds, steps, k);
    var w := worlds[k];
    ClaimComesFirst(w.runs[i].job, w.runs[i].events, w.runs[i].at);
    ClaimComesFirst(w.runs[j].job, w.runs[j].events, w.runs[j].at);
  }

  lemma MoveKeepsVersions(worlds: seq<World>, steps: seq<Step>, k: nat)
    requires Behavior(worlds, steps) && k < |steps|
    ensures worlds[k].versions != [] && worlds[k].versions <= worlds[k + 1].versions
    ensures worlds[k].versions[|worlds[k].versions| - 1] != map[] ==>
              worlds[k + 1].versions[|worlds[k + 1].versions| - 1] != map[]
  {
    Reachable(worlds, steps, k);
    assert Moves(worlds, steps, k);
    StepKeepsVersions(worlds[k], steps[k]);
  }

  /** Once an object has conditions it never loses them, so no later run gets past its snapshot. */
  lemma {:induction false} ConditionsNeverVanish(worlds: seq<World>, steps: seq<Step>, k: nat, m: nat)
    requires Behavior(worlds, steps) && k <= m < |worlds|
    ensures worlds[k].versions <= worlds[m].versions
    ensures |worlds[k].versions| > 0 && |worlds[m].versions| > 0
    ensures worlds[k].versions[|worlds[k].versions| - 1] != map[] ==>
              worlds[m].versions[|worlds[m].versions| - 1] != map[]
    decreases m - k
  {
    if k < m {
      ConditionsNeverVanish(worlds, steps, k, m - 1);
      MoveKeepsVersions(worlds, steps, m - 1);
    } else {
      Reachable(worlds, steps, k);
    }
  }

  /** Whatever the interleaving, each run of a Backup stays within its grammar. */
  lemma EveryBackupRunFollowsTheGrammar(worlds: seq<World>, steps: seq<Step>, k: nat, i: nat)
    requires Behavior(worlds, steps) && k < |worlds| && i < |worlds[k].runs| && worlds[k].runs[i].job.BackupJob?
    ensures var r := worlds[k].runs[i];
            Commands(r.events) <= Expected(r.job.volume, r.job.name, r.job.strategy, Made(r.events) != Some(false))
  {
    Reachable(worlds, steps, k);
    var r := worlds[k].runs[i];
    BackupGrammar(r.job.volume, r.job.name, r.job.strategy, r.events, r.at);
  }

  ghost predicate Tells(r: Run, stored: Conditions) {
    && r.job.RestoreJob?
    && Honest(stored, Attempts(r.events), Successes(r.job.volume, r.job.name, Locations(r.job.strategy.options)))
  }

  /**
   * Every stored version of a Restore tells the truth about the one run that issued its commands:
   * True means all selected copies were made, False that the first failure stopped the rest.
   */
  lemma StoredRestoreIsHonest(worlds: seq<World>, steps: seq<Step>, k: nat, v: nat)
    requires Behavior(worlds, steps) && k < |worlds| && v < |worlds[k].versions|
    requires forall i | 0 <= i < |worlds[k].runs| :: worlds[k].runs[i].job.RestoreJob?
    requires RestoreCompleted in worlds[k].versions[v]
    ensures exists i | 0 <= i < |worlds[k].runs| ::
              && Tells(worlds[k].runs[i], worlds[k].versions[v])
              && HasRun(worlds[k].runs[i].events)
              && forall j | 0 <= j < |worlds[k].runs| && j != i :: !HasRun(worlds[k].runs[j].events)
  {
    Reachable(worlds, steps, k);
    var w := worlds[k];
    var stored := w.versions[v];
    assert stored != map[] && Authored(w, stored);
    var i :| 0 <= i < |w.runs| && Wrote(w.runs[i], stored);
    var r := w.runs[i];
    var n :| 0 <= n < |r.events| && r.events[n].Updated? && r.events[n].conditions == stored;
    RestoreCompletedIsHonest(r.job.volume, r.job.name, r.job.strategy, r.events, r.at, n);
    assert Tells(r, stored);
    AttemptsRan(r.events);
    OthersRanNothing(worlds, steps, k, i);
  }

  lemma {:induction false} AttemptsRan(events: seq<Event>)
    ensures Attempts(events) != [] ==> HasRun(events)
  {
    if events != [] {
      AttemptsRan(events[1..]);
      if HasRun(events[1..]) {
        var n :| 0 <= n < |events[1..]| && events[1..][n].Ran?;
        assert events[n + 1].Ran?;
      } else if events[0].Ran? {
        assert HasRun(events);
      }
    }
  }

  // ---- what stored versions say of backups ------------------------------------------------

  ghost predicate Kept(w: World, r: Run) {
    forall n | 0 <= n < |r.events| && r.events[n].Updated? && r.events[n].ok :: r.events[n].conditions in w.versions
  }

  lemma StepKeepsKept(w: World, s: Step, i: nat)
    requires Enabled(w, s) && w.versions <= Apply(w, s).versions && i < |Apply(w, s).runs|
    requires i < |w.runs| ==> Kept(w, w.runs[i])
    ensures Kept(Apply(w, s), Apply(w, s).runs[i])
  {
    if s.Act? && s.commit {
      assert Apply(w, s).versions[|w.versions|] == s.event.conditions;
    }
  }

  /** What a run knows to have been accepted is stored. */
  lemma {:induction false} AcceptedWritesAreStored(worlds: seq<World>, steps: seq<Step>, k: nat, i: nat)
    requires Behavior(worlds, steps) && k < |worlds| && i < |worlds[k].runs|
    ensures Kept(worlds[k], worlds[k].runs[i])
  {
    if k > 0 {
      assert Moves(worlds, steps, k - 1);
      MoveKeepsVersions(worlds, steps, k - 1);
      if i < |worlds[k - 1].runs| {
        AcceptedWritesAreStored(worlds, steps, k - 1, i);
      }
      StepKeepsKept(worlds[k - 1], steps[k - 1], i);
    }
  }

  /** The run ended with a write that says done, after its client was opened and every earlier write accepted. */
  ghost predicate RanToDone(r: Run, stored: Conditions) {
    && r.at.rest.Halt? && r.events != [] && r.events[0].ok
    && r.events[|r.events| - 1].Updated? && r.events[|r.events| - 1].conditions == stored
    && WritesSucceed(r.events[..|r.events| - 1])
  }

  /**
   * A stored BackupCompleted True tells that the one run that issued commands opened its client and got
   * to its end with all earlier writes accepted. It does not tell how any command came out.
   */
  lemma StoredBackupCompleted(worlds: seq<World>, steps: seq<Step>, k: nat, v: nat)
    requires Behavior(worlds, steps) && k < |worlds| && v < |worlds[k].versions|
    requires forall i | 0 <= i < |worlds[k].runs| :: worlds[k].runs[i].job.BackupJob?
    requires Done(worlds[k].versions[v])
    ensures exists i | 0 <= i < |worlds[k].runs| ::
              && RanToDone(worlds[k].runs[i], worlds[k].versions[v])
              && forall j | 0 <= j < |worlds[k].runs| && j != i :: !HasRun(worlds[k].runs[j].events)
  {
    Reachable(worlds, steps, k);
    var w := worlds[k];
    var stored := w.versions[v];
    assert stored != map[] && Authored(w, stored);
    var i :| 0 <= i < |w.runs| && Wrote(w.runs[i], stored);
    AuthorRanToDone(w.runs[i], stored);
    OthersRanNothing(worlds, steps, k, i);
  }

  lemma AuthorRanToDone(r: Run, stored: Conditions)
    requires r.job.BackupJob? && Reaches(r.job, r.events, r.at)
    requires Wrote(r, stored) && Done(stored)
    ensures RanToDone(r, stored) && HasRun(r.events)
  {
    var n :| 0 <= n < |r.events| && r.events[n].Updated? && r.events[n].conditions == stored;
    BackupCompletedIff(r.job.volume, r.job.name, r.job.strategy, r.events, r.at);
    assert SaysDone(r.events[n]) && DoneLast(r.events, n);
    RanToTheEnd(r);
  }

  lemma OthersRanNothing(worlds: seq<World>, steps: seq<Step>, k: nat, i: nat)
    requires Behavior(worlds, steps) && k < |worlds| && i < |worlds[k].runs| && HasRun(worlds[k].runs[i].events)
    ensures forall j | 0 <= j < |worlds[k].runs| && j != i :: !HasRun(worlds[k].runs[j].events)
  {
    forall j | 0 <= j < |worlds[k].runs| && j != i ensures !HasRun(worlds[k].runs[j].events) {
      if HasRun(worlds[k].runs[j].events) {
        AtMostOneRunIssuesCommands(worlds, steps, k, i, j);
      }
    }
  }

  /** A run that got as far as its last write has issued commands. */
  lemma RanToTheEnd(r: Run)
    requires r.job.BackupJob? && Reaches(r.job, r.events, r.at) && r.at.rest.Halt?
    requires r.events != [] && r.events[0].ok && SaysDone(r.events[|r.events| - 1])
    requires WritesSucceed(r.events[..|r.events| - 1])
    ensures HasRun(r.events)
  {
    var last := r.events[|r.events| - 1];
    var events := r.events[..|r.events| - 1] + [Updated(last.conditions, true)];
    assert r.events == r.events[..|r.events| - 1] + [last];
    var again := LastWriteAccepted(r.job, r.events[..|r.events| - 1], last, r.at);
    BackupGrammar(r.job.volume, r.job.name, r.job.strategy, events, again);
    assert events[0].ok;
    CommandsRan(events);
    var n :| 0 <= n < |events| && events[n].Ran?;
    assert r.events[n].Ran?;
  }

  /** A last write that was refused leads to the same end as one that was accepted, if nothing was to follow. */
  lemma LastWriteAccepted(job: Job, before: seq<Event>, last: Event, at: Progress) returns (again: Progress)
    requires job.BackupJob? && Reaches(job, before + [last], at) && SaysDone(last)
    ensures Reaches(job, before + [Updated(last.conditions, true)], again) && again.rest.Halt?
  {
    var start := Progress(ProgramOf(job), map[]);
    BackupCompletedIff(job.volume, job.name, job.strategy, before + [last], at);
    FollowPrefix(start, before, last);
    var p := Follow(start, before).value;
    FollowStep(start, before, last);
    FollowStep(start, before, Updated(last.conditions, true));
    again := After(p, Updated(last.conditions, true)).value;
    var more := before + [Updated(last.conditions, true)];
    BackupCompletedIff(job.volume, job.name, job.strategy, more, again);
    assert SaysDone(more[|before|]);
  }

  lemma {:induction false} FollowPrefix(p: Progress, before: seq<Event>, last: Event)
    requires Follow(p, before + [last]).Some?
    ensures Follow(p, before).Some?
    decreases |before|
  {
    if before != [] {
      assert (before + [last])[1..] == before[1..] + [last];
      FollowPrefix(After(Settle(p), before[0]).value, before[1..], last);
    }
  }

  lemma {:induction false} CommandsRan(events: seq<Event>)
    requires Commands(events) != []
    ensures HasRun(events)
  {
    if !events[0].Ran? {
      CommandsRan(events[1..]);
      var n :| 0 <= n < |events[1..]| && events[1..][n].Ran?;
      assert events[n + 1].Ran?;
    }
  }

  /** Conversely, a run that knows its last write was accepted leaves a version that says done. */
  lemma DoneIsStored(worlds: seq<World>, steps: seq<Step>, k: nat, i: nat)
    requires Behavior(worlds, steps) && k < |worlds| && i < |worlds[k].runs| && worlds[k].runs[i].job.BackupJob?
    requires StoresDone(worlds[k].runs[i].events)
    ensures exists v | 0 <= v < |worlds[k].versions| :: Done(worlds[k].versions[v])
  {
    AcceptedWritesAreStored(worlds, steps, k, i);
    var events := worlds[k].runs[i].events;
    var n :| 0 <= n < |events| && SaysDone(events[n]) && events[n].ok;
    assert events[n].conditions in worlds[k].versions;
  }

  // ---- runs that are on their own ---------------------------------------------------------

  ghost predicate Lone(w: World, job: Job, events: seq<Event>, at: Progress) {
    && |w.runs| == 1 && w.versions != []
    && w.runs[0] == Run(job, events, at, |w.versions| - 1, true)
  }

  /** Every path of a job's program is a behavior of a world in which nothing else happens. */
  lemma {:induction false} EveryPathHappens(job: Job, events: seq<Event>, at: Progress)
    returns (worlds: seq<World>, steps: seq<Step>)
    requires Reaches(job, events, at)
    ensures Behavior(worlds, steps) && Lone(worlds[|steps|], job, events, at)
    decreases |events|
  {
    var start := Progress(ProgramOf(job), map[]);
    if events == [] {
      var w := World([map[]], []);
      worlds, steps := [w, Apply(w, Begin(0, job))], [Begin(0, job)];
      assert Moves(worlds, steps, 0);
    } else {
      var before, last := events[..|events| - 1], events[|events| - 1];
      assert before + [last] == events;
      FollowPrefix(start, before, last);
      FollowStep(start, before, last);
      worlds, steps := EveryPathHappens(job, before, Follow(start, before).value);
      var act := Act(0, last, last.Updated? && last.ok);
      worlds, steps := Extended(worlds, steps, act);
    }
  }

  lemma Extended(worlds: seq<World>, steps: seq<Step>, s: Step) returns (worlds': seq<World>, steps': seq<Step>)
    requires Behavior(worlds, steps) && Enabled(worlds[|steps|], s)
    ensures Behavior(worlds', steps') && worlds' == worlds + [Apply(worlds[|steps|], s)] && steps' == steps + [s]
  {
    worlds', steps' := worlds + [Apply(worlds[|steps|], s)], steps + [s];
    forall k: nat | k < |steps'| ensures Moves(worlds', steps', k) {
      if k < |steps| {
        assert Moves(worlds, steps, k);
      }
    }
  }

  /** So for every strategy a world can be reached that has BackupCompleted True stored and nothing copied. */
  lemma StoredDoneWithoutCopies(volume: string, name: string, strategy: Strategy)
    returns (worlds: seq<World>, steps: seq<Step>)
    ensures Behavior(worlds, steps)
    ensures var w := worlds[|steps|];
            && |w.runs| == 1 && w.runs[0].job == BackupJob(volume, name, strategy)
            && Made(w.runs[0].events) == Some(false) && Attempts(w.runs[0].events) == []
            && exists v | 0 <= v < |w.versions| :: Done(w.versions[v])
  {
    var events, r := DoneWithoutCopies(volume, name, strategy);
    worlds, steps := EveryPathHappens(BackupJob(volume, name, strategy), events, r);
    DoneIsStored(worlds, steps, |steps|, 0);
  }

  // ---- a quiet-down nobody cancels --------------------------------------------------------

  /** The run does nothing more: it finished, a write of it was refused, or it crashed. */
  predicate Over(r: Run) {
    !r.live || r.at.rest.Halt?
  }

  lemma StepKeepsEvents(w: World, s: Step, i: nat)
    requires Enabled(w, s) && i < |w.runs|
    ensures var w' := Apply(w, s);
            && i < |w'.runs| && w.runs[i].events <= w'.runs[i].events && w'.runs[i].job == w.runs[i].job
            && (Over(w.runs[i]) ==> Over(w'.runs[i]) && w'.runs[i].events == w.runs[i].events)
  {
  }

  lemma {:induction false} EventsStay(worlds: seq<World>, steps: seq<Step>, k: nat, m: nat, i: nat)
    requires Behavior(worlds, steps) && k <= m < |worlds| && i < |worlds[k].runs|
    ensures i < |worlds[m].runs| && worlds[m].runs[i].job == worlds[k].runs[i].job
    ensures worlds[k].runs[i].events <= worlds[m].runs[i].events
    ensures Over(worlds[k].runs[i]) ==> Over(worlds[m].runs[i]) && worlds[m].runs[i].events == worlds[k].runs[i].events
    decreases m - k
  {
    if k < m {
      EventsStay(worlds, steps, k, m - 1, i);
      assert Moves(worlds, steps, m - 1);
      StepKeepsEvents(worlds[m - 1], steps[m - 1], i);
    }
  }

  lemma TriedRan(events: seq<Event>)
    ensures Tried(events) != [] <==> HasRun(events)
  {
    TriedCommands(events);
    if Tried(events) != [] {
      CommandsRan(events);
    }
    if HasRun(events) {
      var n :| 0 <= n < |events| && events[n].Ran?;
      RanIsTried(events, n);
    }
  }

  lemma {:induction false} RanIsTried(events: seq<Event>, n: nat)
    requires n < |events| && events[n].Ran?
    ensures Tried(events) != []
  {
    if n > 0 {
      RanIsTried(events[1..], n - 1);
    }
  }

  /** If one run of an object has quieted Jenkins down, no other run of it issues any command, before or after. */
  lemma NoOtherRunCancels(worlds: seq<World>, steps: seq<Step>, k: nat, m: nat, i: nat, j: nat)
    requires Behavior(worlds, steps) && k < |worlds| && m < |worlds| && i != j
    requires i < |worlds[k].runs| && Attempt(QUIET_DOWN, true) in Tried(worlds[k].runs[i].events)
    requires j < |worlds[m].runs|
    ensures Tried(worlds[m].runs[j].events) == []
  {
    var last := if k < m then m else k;
    EventsStay(worlds, steps, k, last, i);
    EventsStay(worlds, steps, m, last, j);
    TriedRan(worlds[k].runs[i].events);
    TriedRan(worlds[m].runs[j].events);
    MoreHasRun(worlds[k].runs[i].events, worlds[last].runs[i].events);
    MoreHasRun(worlds[m].runs[j].events, worlds[last].runs[j].events);
    if HasRun(worlds[last].runs[j].events) {
      AtMostOneRunIssuesCommands(worlds, steps, last, i, j);
    }
  }

  lemma MoreHasRun(events: seq<Event>, more: seq<Event>)
    requires events <= more
    ensures HasRun(events) ==> HasRun(more)
  {
    if HasRun(events) {
      var n :| 0 <= n < |events| && events[n].Ran?;
      assert more[n].Ran?;
    }
  }

  /** Once a run of a Backup is over and has left Jenkins quieted down, no run of that object ever cancels it. */
  lemma QuietForGood(worlds: seq<World>, steps: seq<Step>, k: nat, m: nat, i: nat, j: nat)
    requires Behavior(worlds, steps) && k <= m < |worlds| && i < |worlds[k].runs| && j < |worlds[m].runs|
    requires worlds[k].runs[i].job.BackupJob? && Over(worlds[k].runs[i]) && Quieted(Tried(worlds[k].runs[i].events))
    ensures Attempt(CANCEL_QUIET_DOWN, true) !in Tried(worlds[m].runs[j].events)
  {
    var r := worlds[k].runs[i];
    Reachable(worlds, steps, k);
    LeftQuietIff(r.job.volume, r.job.name, r.job.strategy, r.events, r.at);
    if i == j {
      EventsStay(worlds, steps, k, m, i);
    } else {
      NoOtherRunCancels(worlds, steps, k, m, i, j);
    }
  }

  /**
   * It happens to every strategy with a quiet-down: somebody else updates the object while the script runs,
   * so the write that follows cannot commit, the run ends and the cancel is not issued, by it or by any other.
   */
  lemma BumpLeavesQuiet(volume: string, name: string, strategy: Strategy) returns (worlds: seq<World>, steps: seq<Step>)
    requires strategy.quietDown
    ensures Behavior(worlds, steps) && |steps| >= 2 && steps[|steps| - 2] == Bump
    ensures var w, before := worlds[|steps|], worlds[|steps| - 1];
            && |w.runs| == 1 && w.runs[0].job == BackupJob(volume, name, strategy) && Over(w.runs[0])
            && Quieted(Tried(w.runs[0].events)) && CANCEL_QUIET_DOWN !in Commands(w.runs[0].events)
            && |before.runs| == 1 && before.runs[0].at.rest.Update?
            && !Enabled(before, Act(0, Updated(before.runs[0].at.conditions, true), true))
  {
    var job := BackupJob(volume, name, strategy);
    var at, r := CutOffQuiet(volume, name, strategy);
    worlds, steps := EveryPathHappens(job, QuietDownEvents(), at);
    worlds, steps := Extended(worlds, steps, Bump);
    var refused := Updated(QUIETED, false);
    FollowStep(Progress(ProgramOf(job), map[]), QuietDownEvents(), refused);
    worlds, steps := Extended(worlds, steps, Act(0, refused, false));
  }
}
