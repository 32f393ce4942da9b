/**
 * The condition list of a Jenkins object under any number of reconcile runs. A run reads some version,
 * writes initial conditions if it found none, reconciles, and writes the outcome; a refused write is
 * followed by a reload and a second write, which says "completed" whichever write was refused.
 */
module JenkinsStatus {
  import opened Text

  datatype Kind = ReconciliationComplete | Available | Progressing | Degraded | Upgradeable
  datatype Value = True | False | Unknown
  datatype Condition = Condition(kind: Kind, status: Value)
  type Conditions = seq<Condition>

  function Find(cs: Conditions, kind: Kind): (i: nat)
    ensures i <= |cs| && (i < |cs| ==> cs[i].kind == kind)
    ensures forall j | 0 <= j < i :: cs[j].kind != kind
  {
    if cs == [] || cs[0].kind == kind then 0 else 1 + Find(cs[1..], kind)
  }

  /** SetStatusCondition: overwrite the first entry of that kind where it stands, or append. */
  function Put(cs: Conditions, c: Condition): (r: Conditions)
    ensures c in r
  {
    var i := Find(cs, c.kind);
    var r := if i < |cs| then cs[i := c] else cs + [c];
    assert r[i] == c;
    r
  }

  function PutAll(cs: Conditions, news: seq<Condition>): Conditions
    decreases |news|, |cs|
  {
    if news == [] then cs else Put(PutAll(cs, news[..|news| - 1]), news[|news| - 1])
  }

  lemma PutNext(cs: Conditions, news: seq<Condition>, k: nat)
    requires k < |news|
    ensures PutAll(cs, news[..k + 1]) == Put(PutAll(cs, news[..k]), news[k])
  {
    assert news[..k + 1][..k] == news[..k];
  }

  const STARTED: seq<Condition> :=
    [Condition(ReconciliationComplete, Unknown), Condition(Available, False), Condition(Progressing, True),
     Condition(Degraded, False), Condition(Upgradeable, Unknown)]
  const COMPLETED: seq<Condition> :=
    [Condition(ReconciliationComplete, True), Condition(Available, True), Condition(Progressing, False),
     Condition(Degraded, False), Condition(Upgradeable, True)]

  function Started(cs: Conditions): Conditions { PutAll(cs, STARTED) }
  function Completed(cs: Conditions): Conditions { PutAll(cs, COMPLETED) }
  function Failed(cs: Conditions): Conditions { PutAll(cs, [Condition(Degraded, True)]) }

  predicate Holds(cs: Conditions, kind: Kind) {
    exists i | 0 <= i < |cs| :: cs[i] == Condition(kind, True)
  }

  predicate Lists(cs: Conditions, kind: Kind) {
    exists i | 0 <= i < |cs| :: cs[i].kind == kind
  }

  predicate OnceEach(cs: Conditions) {
    && (forall i, j | 0 <= i < j < |cs| :: cs[i].kind != cs[j].kind)
    && forall kind: Kind :: Lists(cs, kind)
  }

  // ---- what a run does --------------------------------------------------------------------

  /**
   * What the rest of the reconcile comes to. Errored is the only one that is returned as an error: a spec that
   * is not valid, a base configuration that fails, also because the pod terminates, and an object that is gone
   * in the end all return none.
   */
  datatype Outcome = Errored | Rejected | BaseFailed | Terminating | Gone | Built

  predicate Completes(o: Outcome) { o != Errored }

  /** The base configuration went through. */
  predicate Builds(o: Outcome) { o == Gone || o == Built }

  datatype Event =
    | Read(found: Option<Conditions>)
    | Wrote(conditions: Conditions, ok: bool)
    | Reconciled(outcome: Outcome)

  datatype Phase =
    | Reading
    | Writing(conditions: Conditions, last: bool) // last: the run is over once the write is in
    | Reloading(last: bool)
    | Rewriting(conditions: Conditions, last: bool)
    | Reconciling(conditions: Conditions)
    | Failing(conditions: Conditions)
    | Finished(again: bool) // again: the run asks to be run again

  function Next(p: Phase, e: Event): Option<Phase> {
    match (p, e)
    case (Reading, Read(None)) => Some(Finished(true))
    case (Reading, Read(Some(cs))) => Some(if cs == [] then Writing(Started(cs), false) else Reconciling(cs))
    case (Writing(cs, last), Wrote(cs', ok)) =>
      if cs != cs' then None
      else Some(if !ok then Reloading(last) else if last then Finished(false) else Reconciling(cs))
    case (Reloading(last), Read(None)) => Some(Finished(true))
    case (Reloading(last), Read(Some(cs))) => Some(Rewriting(Completed(cs), last))
    case (Rewriting(cs, last), Wrote(cs', ok)) =>
      if cs != cs' then None else Some(if ok && !last then Reconciling(cs) else Finished(!ok))
    case (Reconciling(cs), Reconciled(o)) => Some(if Completes(o) then Writing(Completed(cs), true) else Failing(Failed(cs)))
    // the error of this write takes the place of the error of the reconcile
    case (Failing(cs), Wrote(cs', ok)) => if cs != cs' then None else Some(Finished(!ok))
    case _ => None
  }

  /** Where a run stands after these events; None if no run produces them. */
  function Follow(events: seq<Event>): Option<Phase> {
    if events == [] then Some(Reading)
    else
      var before := Follow(events[..|events| - 1]);
      if before.None? then None else Next(before.value, events[|events| - 1])
  }

  lemma {:induction false} FollowNext(events: seq<Event>, e: Event)
    ensures Follow(events + [e]) == if Follow(events).None? then None else Next(Follow(events).value, e)
  {
    assert (events + [e])[..|events|] == events;
  }

  // ---- the controller in its own form -----------------------------------------------------

  /**
   * The API server and the rest of the reconcile, as one run meets them: the n-th call has a given answer. An
   * outcome of None is a panic, which ends the run.
   */
  class Api {
    const accepts: nat -> bool
    const stored: nat -> Option<Conditions>
    const outcome: nat -> Option<Outcome>
    var events: seq<Event>
    ghost var phase: Phase

    constructor (accepts: nat -> bool, stored: nat -> Option<Conditions>, outcome: nat -> Option<Outcome>)
      ensures this.accepts == accepts && this.stored == stored && this.outcome == outcome
      ensures Valid() && events == [] && phase == Reading
    {
      this.accepts, this.stored, this.outcome, events, phase := accepts, stored, outcome, [], Reading;
    }

    ghost predicate Valid()
      reads this
    {
      Follow(events) == Some(phase)
    }

    twostate predicate Stepped(e: Event)
      reads this
    {
      Valid() && events == old(events) + [e] && Next(old(phase), e) == Some(phase)
    }

    method Get() returns (found: Option<Conditions>)
      requires Valid() && (phase.Reading? || phase.Reloading?)
      modifies this
      ensures Stepped(Read(found)) && found == stored(|old(events)|)
    {
      found := stored(|events|);
      Note(Read(found));
    }

    method StatusUpdate(conditions: Conditions) returns (ok: bool)
      requires Valid() && (phase.Writing? || phase.Rewriting? || phase.Failing?) && phase.conditions == conditions
      modifies this
      ensures Stepped(Wrote(conditions, ok)) && ok == accepts(|old(events)|)
    {
      ok := accepts(|events|);
      Note(Wrote(conditions, ok));
    }

    method Reconcile() returns (o: Option<Outcome>)
      requires Valid() && phase.Reconciling?
      modifies this
      ensures o == outcome(|old(events)|)
      ensures match o
              case Some(value) => Stepped(Reconciled(value))
              case None => Valid() && events == old(events) && phase == old(phase)
    {
      o := outcome(|events|);
      if o.Some? {
        Note(Reconciled(o.value));
      }
    }

    method Note(e: Event)
      requires Valid() && Next(phase, e).Some?
      modifies this
      ensures Stepped(e)
    {
      assert (events + [e])[..|events|] == events;
      phase := Next(phase, e).value;
      events := events + [e];
    }
  }

  /** The Jenkins object a run holds in memory. */
  class Jenkins {
    var conditions: Conditions

    constructor ()
      ensures conditions == []
    {
      conditions := [];
    }

    method FindStatusCondition(kind: Kind) returns (i: nat)
      ensures i == Find(conditions, kind)
    {
      i := 0;
      while i < |conditions| && conditions[i].kind != kind
        invariant i <= |conditions|
        invariant forall j | 0 <= j < i :: conditions[j].kind != kind
      {
        i := i + 1;
      }
    }

    method SetStatusCondition(c: Condition)
      modifies this
      ensures conditions == Put(old(conditions), c)
    {
      var i := FindStatusCondition(c.kind);
      if i == |conditions| {
        conditions := conditions + [c];
        return;
      }
      if conditions[i].status != c.status {
        conditions := conditions[i := conditions[i].(status := c.status)];
      }
    }

    /** One more of a list of conditions that are set one after the other. */
    method SetNext(ghost was: Conditions, news: seq<Condition>, k: nat)
      requires k < |news| && conditions == PutAll(was, news[..k])
      modifies this
      ensures conditions == PutAll(was, news[..k + 1])
    {
      PutNext(was, news, k);
      SetStatusCondition(news[k]);
    }

    method SetInitialConditions()
      modifies this
      ensures conditions == Started(old(conditions))
    {
      ghost var was := conditions;
      SetNext(was, STARTED, 0);
      SetNext(was, STARTED, 1);
      SetNext(was, STARTED, 2);
      SetNext(was, STARTED, 3);
      SetNext(was, STARTED, 4);
      assert STARTED[..5] == STARTED;
    }

    method SetStatusConditions()
      modifies this
      ensures conditions == Completed(old(conditions))
    {
      ghost var was := conditions;
      SetNext(was, COMPLETED, 0);
      SetNext(was, COMPLETED, 1);
      SetNext(was, COMPLETED, 2);
      SetNext(was, COMPLETED, 3);
      SetNext(was, COMPLETED, 4);
      assert COMPLETED[..5] == COMPLETED;
    }

    method SetReconcileFailedStatus()
      modifies this
      ensures conditions == Failed(old(conditions))
    {
      SetNext(conditions, [Condition(Degraded, True)], 0);
    }
  }

  method UpdateJenkinsStatus(jenkins: Jenkins, api: Api, ghost last: bool) returns (ok: bool)
    requires api.Valid() && api.phase == Writing(jenkins.conditions, last)
    modifies jenkins, api
    ensures api.Valid()
    ensures api.phase == if ok && !last then Reconciling(jenkins.conditions) else Finished(!ok)
  {
    ok := api.StatusUpdate(jenkins.conditions);
    if !ok {
      var found := api.Get();
      if found.None? {
        return false;
      }
      jenkins.conditions := found.value;
      jenkins.SetStatusConditions();
      ok := api.StatusUpdate(jenkins.conditions);
    }
  }

  /**
   * A whole reconcile run is a complete path of Next, with the answers of the API it meets, and returns
   * whether it asks to be run again; None is a run that the rest of the reconcile ended with a panic.
   */
  method Reconcile(jenkins: Jenkins, api: Api) returns (again: Option<bool>)
    requires api.Valid() && api.events == [] && api.phase == Reading
    modifies jenkins, api
    ensures match again
            case Some(value) => Follow(api.events) == Some(Finished(value))
            case None => Follow(api.events) == Some(Reconciling(jenkins.conditions)) && api.outcome(|api.events|) == None
  {
    var found := api.Get();
    if found.None? {
      return Some(true);
    }
    jenkins.conditions := found.value;
    if jenkins.conditions == [] {
      jenkins.SetInitialConditions();
      var ok := UpdateJenkinsStatus(jenkins, api, false);
      if !ok {
        return Some(true);
      }
    }
    again := ReconcileFrom(jenkins, api);
  }

  method ReconcileFrom(jenkins: Jenkins, api: Api) returns (again: Option<bool>)
    requires api.Valid() && api.phase == Reconciling(jenkins.conditions)
    modifies jenkins, api
    ensures api.Valid()
    ensures match again
            case Some(value) => api.phase == Finished(value)
            case None => api.phase == Reconciling(jenkins.conditions) && api.outcome(|api.events|) == None
  {
    var o := api.Reconcile();
    if o.None? {
      return None;
    }
    var ok;
    if o.value == Errored {
      jenkins.SetReconcileFailedStatus();
      ok := api.StatusUpdate(jenkins.conditions);
      return Some(!ok);
    }
    jenkins.SetStatusConditions();
    ok := UpdateJenkinsStatus(jenkins, api, true);
    return Some(!ok);
  }

  // ---- the values that are ever written ---------------------------------------------------

  predicate Aligned(cs: Conditions, news: seq<Condition>) {
    && |cs| == |news|
    && (forall i | 0 <= i < |cs| :: cs[i].kind == news[i].kind)
  }

  predicate KindsDiffer(cs: Conditions) {
    forall i, j | 0 <= i < j < |cs| :: cs[i].kind != cs[j].kind
  }

  lemma PutAt(cs: Conditions, c: Condition, k: nat)
    requires k <= |cs| && (forall i | 0 <= i < k :: cs[i].kind != c.kind)
    requires k < |cs| ==> cs[k].kind == c.kind
    ensures Put(cs, c) == cs[..k] + [c] + (if k < |cs| then cs[k + 1..] else [])
  {
    assert Find(cs, c.kind) == k;
  }

  /** What the list looks like once the first k conditions of news have been set on cs. */
  function Overlaid(cs: Conditions, news: seq<Condition>, k: nat): Conditions
    requires k <= |news| && (cs == [] || |cs| == |news|)
  {
    news[..k] + if cs == [] then [] else cs[k..]
  }

  lemma OverlaidNext(cs: Conditions, news: seq<Condition>, k: nat)
    requires KindsDiffer(news) && k < |news| && (cs == [] || Aligned(cs, news))
    ensures Put(Overlaid(cs, news, k), news[k]) == Overlaid(cs, news, k + 1)
  {
    var before := Overlaid(cs, news, k);
    assert forall i | 0 <= i < k :: before[i] == news[i];
    if cs == [] {
      assert before == news[..k];
      PutAt(before, news[k], k);
      assert before[..k] == news[..k] && news[..k] + [news[k]] == news[..k + 1];
    } else {
      assert before == news[..k] + cs[k..] && before[k] == cs[k];
      PutAt(before, news[k], k);
      OverlaySplit(cs, news, k);
    }
  }

  lemma OverlaySplit(cs: Conditions, news: seq<Condition>, k: nat)
    requires k < |news| == |cs|
    ensures var before := news[..k] + cs[k..];
            before[..k] + [news[k]] + before[k + 1..] == news[..k + 1] + cs[k + 1..]
  {
    var before := news[..k] + cs[k..];
    assert before[..k] == news[..k] && news[..k] + [news[k]] == news[..k + 1];
    var a, b := before[k + 1..], cs[k + 1..];
    assert |a| == |b| && forall i | 0 <= i < |a| :: a[i] == b[i];
  }

  /** Setting a list of different kinds on nothing, or on a list of the same kinds, leaves that list. */
  lemma {:induction false} PutAllOverwrites(cs: Conditions, news: seq<Condition>, k: nat)
    requires KindsDiffer(news) && k <= |news|
    requires cs == [] || Aligned(cs, news)
    ensures PutAll(cs, news[..k]) == Overlaid(cs, news, k)
  {
    if k == 0 {
      assert news[..0] == [];
    } else {
      PutAllOverwrites(cs, news, k - 1);
      PutNext(cs, news, k - 1);
      OverlaidNext(cs, news, k - 1);
    }
  }

  lemma PutAllIs(cs: Conditions, news: seq<Condition>)
    requires KindsDiffer(news) && (cs == [] || Aligned(cs, news))
    ensures PutAll(cs, news) == news
  {
    PutAllOverwrites(cs, news, |news|);
    assert news[..|news|] == news;
  }

  /** base as it is, or with Degraded set to True. */
  predicate IsOr(cs: Conditions, base: Conditions)
    requires |base| == 5
  {
    cs == base || cs == base[3 := Condition(Degraded, True)]
  }

  /** 0: nothing stored yet; 1: as started; 2: as completed. Nothing else is ever stored. */
  function Stage(cs: Conditions): Option<nat> {
    if cs == [] then Some(0) else if IsOr(cs, STARTED) then Some(1) else if IsOr(cs, COMPLETED) then Some(2) else None
  }

  lemma FailedIs(cs: Conditions)
    requires Aligned(cs, STARTED)
    ensures Failed(cs) == cs[3 := Condition(Degraded, True)]
  {
    var c := Condition(Degraded, True);
    assert [c][..0] == [];
    assert PutAll(cs, []) == cs;
    assert forall i | 0 <= i < 5 :: cs[i].kind == STARTED[i].kind;
    PutAt(cs, c, 3);
  }

  lemma StageAligned(cs: Conditions)
    requires Stage(cs).Some? && cs != []
    ensures Aligned(cs, STARTED) && Aligned(cs, COMPLETED)
  {
  }

  lemma ListsAreStages()
    ensures Stage(STARTED) == Some(1) && Stage(COMPLETED) == Some(2)
    ensures KindsDiffer(STARTED) && KindsDiffer(COMPLETED)
  {
    assert COMPLETED[0] != STARTED[0];
  }

  lemma SettersMoveStages(cs: Conditions)
    requires Stage(cs).Some?
    ensures cs == [] ==> Stage(Started(cs)) == Some(1)
    ensures Stage(Completed(cs)) == Some(2)
    ensures cs != [] ==> Stage(Failed(cs)) == Stage(cs)
  {
    ListsAreStages();
    if cs == [] {
      PutAllIs(cs, STARTED);
    } else {
      StageAligned(cs);
      FailedKeepsStage(cs);
    }
    PutAllIs(cs, COMPLETED);
  }

  lemma FailedKeepsStage(cs: Conditions)
    requires Stage(cs).Some? && cs != []
    ensures Stage(Failed(cs)) == Stage(cs)
  {
    StageAligned(cs);
    FailedIs(cs);
    var failed := Failed(cs);
    assert failed[0] == cs[0] && STARTED[0] != COMPLETED[0];
    if IsOr(cs, STARTED) {
      assert failed == STARTED[3 := Condition(Degraded, True)];
    } else {
      assert failed == COMPLETED[3 := Condition(Degraded, True)];
    }
  }

  lemma StagesSay(cs: Conditions)
    requires Stage(cs).Some? && cs != []
    ensures OnceEach(cs)
    ensures Holds(cs, Available) <==> Stage(cs) == Some(2)
    ensures Holds(cs, ReconciliationComplete) <==> Stage(cs) == Some(2)
  {
    StageAligned(cs);
    forall kind: Kind ensures Lists(cs, kind) {
      var i := match kind
        case ReconciliationComplete => 0 case Available => 1 case Progressing => 2 case Degraded => 3
        case Upgradeable => 4;
      assert STARTED[i].kind == kind && cs[i].kind == kind;
    }
    assert cs[0] == if Stage(cs) == Some(2) then COMPLETED[0] else STARTED[0];
    assert cs[1] == if Stage(cs) == Some(2) then COMPLETED[1] else STARTED[1];
  }

  // ---- interleavings ----------------------------------------------------------------------

  datatype Run = Run(events: seq<Event>, phase: Phase, version: nat, live: bool)

  /** versions[v] is what version v of the object stores; the last one is current. */
  datatype World = World(versions: seq<Conditions>, runs: seq<Run>)

  datatype Step =
    | Begin
    | Look(run: nat, version: Option<nat>)      // a read returns some version, or fails
    | Work(run: nat, outcome: Outcome)          // the rest of the reconcile
    | Store(run: nat, ok: bool, commit: bool)   // a write may commit although the run sees an error
    | Crash(run: nat)
    | Bump                                      // somebody else updates the object, not its status

  predicate Init(w: World) {
    w == World([[]], [])
  }

  predicate Enabled(w: World, s: Step) {
    match s
    case Begin => true
    case Look(i, v) =>
      && i < |w.runs| && w.runs[i].live && (w.runs[i].phase.Reading? || w.runs[i].phase.Reloading?)
      && (v.Some? ==> v.value < |w.versions|)
    case Work(i, _) => i < |w.runs| && w.runs[i].live && w.runs[i].phase.Reconciling?
    case Store(i, ok, commit) =>
      && i < |w.runs| && w.runs[i].live && Stores(w.runs[i].phase)
      && (commit ==> w.runs[i].version == |w.versions| - 1)
      && (ok ==> commit)
    case Crash(i) => i < |w.runs|
    case Bump => w.versions != []
  }

  predicate Stores(p: Phase) {
    p.Writing? || p.Rewriting? || p.Failing?
  }

  /** What the run of a step observes. */
  function Seen(w: World, s: Step): Event
    requires Enabled(w, s) && (s.Look? || s.Work? || s.Store?)
  {
    match s
    case Look(i, v) => Read(if v.Some? then Some(w.versions[v.value]) else None)
    case Work(i, o) => Reconciled(o)
    case Store(i, ok, commit) => Wrote(w.runs[i].phase.conditions, ok)
  }

  function Advanced(w: World, s: Step): (r: Run)
    requires Enabled(w, s) && (s.Look? || s.Work? || s.Store?)
  {
    var r := w.runs[s.run];
    var version := match s
      case Look(_, v) => if v.Some? then v.value else r.version
      case Store(_, ok, _) => if ok then |w.versions| else r.version
      case _ => r.version;
    Run(r.events + [Seen(w, s)], Next(r.phase, Seen(w, s)).value, version, true)
  }

  function Apply(w: World, s: Step): World
    requires Enabled(w, s)
  {
    match s
    case Begin => w.(runs := w.runs + [Run([], Reading, 0, true)])
    case Look(i, _) => w.(runs := w.runs[i := Advanced(w, s)])
    case Work(i, _) => w.(runs := w.runs[i := Advanced(w, s)])
    case Store(i, _, commit) =>
      World(if commit then w.versions + [w.runs[i].phase.conditions] else w.versions, w.runs[i := Advanced(w, s)])
    case Crash(i) => w.(runs := w.runs[i := w.runs[i].(live := false)])
    case Bump => w.(versions := w.versions + [w.versions[|w.versions| - 1]])
  }

  ghost predicate Moves(worlds: seq<World>, steps: seq<Step>, k: nat)
    requires k < |steps| && k + 1 < |worlds|
  {
    Enabled(worlds[k], steps[k]) && worlds[k + 1] == Apply(worlds[k], steps[k])
  }

  ghost predicate Behavior(worlds: seq<World>, steps: seq<Step>) {
    && |worlds| == |steps| + 1
    && Init(worlds[0])
    && forall k: nat | k < |steps| :: Moves(worlds, steps, k)
  }

  /** What a run is about to store is a stage, and not behind the version it would replace. */
  predicate Fits(versions: seq<Conditions>, r: Run) {
    && r.version < |versions|
    && (Stores(r.phase) ==> Ahead(versions[r.version], r.phase.conditions))
    && (r.phase.Reconciling? ==> r.phase.conditions == versions[r.version] != [])
  }

  predicate Ahead(cs: Conditions, next: Conditions) {
    Stage(cs).Some? && Stage(next).Some? && Stage(cs).value <= Stage(next).value && next != []
  }

  predicate Staged(versions: seq<Conditions>) {
    && versions != []
    && (forall v | 0 <= v < |versions| :: Stage(versions[v]).Some?)
    && (forall u, v | 0 <= u <= v < |versions| :: Stage(versions[u]).value <= Stage(versions[v]).value)
  }

  ghost predicate Invariant(w: World) {
    && Staged(w.versions)
    && (forall i | 0 <= i < |w.runs| :: Fits(w.versions, w.runs[i]))
    && (forall i | 0 <= i < |w.runs| :: Follow(w.runs[i].events) == Some(w.runs[i].phase))
  }

  lemma StepKeepsVersions(w: World, s: Step)
    requires Invariant(w) && Enabled(w, s)
    ensures Staged(Apply(w, s).versions) && w.versions <= Apply(w, s).versions
  {
    if s.Store? && s.commit {
      var r := w.runs[s.run];
      assert Fits(w.versions, r);
      var last, next := w.versions[|w.versions| - 1], r.phase.conditions;
      assert Ahead(last, next);
      forall u | 0 <= u < |w.versions| ensures Stage(w.versions[u]).value <= Stage(next).value {
        assert Stage(w.versions[u]).value <= Stage(last).value;
      }
    }
  }

  lemma LookFits(w: World, s: Step)
    requires Invariant(w) && Enabled(w, s) && s.Look?
    ensures Fits(Apply(w, s).versions, Advanced(w, s))
  {
    assert Fits(w.versions, w.runs[s.run]);
    if s.version.Some? {
      SettersMoveStages(w.versions[s.version.value]);
    }
  }

  lemma WorkFits(w: World, s: Step)
    requires Invariant(w) && Enabled(w, s) && s.Work?
    ensures Fits(Apply(w, s).versions, Advanced(w, s))
  {
    var r := w.runs[s.run];
    assert Fits(w.versions, r);
    assert Stage(w.versions[r.version]).Some?;
    OutcomeAhead(r.phase, s.outcome);
    FitsOnward(w.versions, r, Advanced(w, s));
  }

  lemma OutcomeAhead(p: Phase, o: Outcome)
    requires p.Reconciling? && Stage(p.conditions).Some? && p.conditions != []
    ensures Stores(Next(p, Reconciled(o)).value) && Ahead(p.conditions, Next(p, Reconciled(o)).value.conditions)
  {
    var cs := p.conditions;
    assert p == Reconciling(cs);
    if Completes(o) {
      assert Next(p, Reconciled(o)) == Some(Writing(Completed(cs), true));
    } else {
      assert Next(p, Reconciled(o)) == Some(Failing(Failed(cs)));
    }
    SettersGoAhead(cs);
  }

  lemma FitsOnward(versions: seq<Conditions>, r: Run, r': Run)
    requires Fits(versions, r) && r.phase.Reconciling? && r'.version == r.version
    requires Stores(r'.phase) && Ahead(r.phase.conditions, r'.phase.conditions)
    ensures Fits(versions, r')
  {
  }

  lemma SettersGoAhead(cs: Conditions)
    requires Stage(cs).Some? && cs != []
    ensures Ahead(cs, Completed(cs)) && Ahead(cs, Failed(cs))
  {
    SettersMoveStages(cs);
  }

  lemma StoreFits(w: World, s: Step)
    requires Invariant(w) && Enabled(w, s) && s.Store?
    ensures Fits(Apply(w, s).versions, Advanced(w, s))
  {
    assert Fits(w.versions, w.runs[s.run]);
  }

  lemma StepFollows(w: World, s: Step)
    requires Invariant(w) && Enabled(w, s) && (s.Look? || s.Work? || s.Store?)
    ensures Follow(Advanced(w, s).events) == Some(Advanced(w, s).phase)
  {
    FollowNext(w.runs[s.run].events, Seen(w, s));
  }

  lemma StepKeepsInvariant(w: World, s: Step)
    requires Invariant(w) && Enabled(w, s)
    ensures Invariant(Apply(w, s))
  {
    StepKeepsVersions(w, s);
    match s {
      case Look(_, _) => LookFits(w, s); StepFollows(w, s);
      case Work(_, _) => WorkFits(w, s); StepFollows(w, s);
      case Store(_, _, _) => StoreFits(w, s); StepFollows(w, s);
      case _ =>
    }
    var w' := Apply(w, s);
    forall i | 0 <= i < |w'.runs| ensures Fits(w'.versions, w'.runs[i]) {
      if i < |w.runs| {
        assert Fits(w.versions, w.runs[i]);
      }
    }
  }

  lemma {:induction false} Reachable(worlds: seq<World>, steps: seq<Step>, k: nat)
    requires Behavior(worlds, steps) && k < |worlds|
    ensures Invariant(worlds[k])
  {
    if k > 0 {
      Reachable(worlds, steps, k - 1);
      assert Moves(worlds, steps, k - 1);
      StepKeepsInvariant(worlds[k - 1], steps[k - 1]);
    }
  }

  // ---- the theorems -----------------------------------------------------------------------

  /**
   * In every interleaving, each stored condition list is empty, or has the five kinds once each and is
   * exactly the list written at the start or at completion, with Degraded possibly raised.
   */
  lemma StoredConditions(worlds: seq<World>, steps: seq<Step>, k: nat, v: nat)
    requires Behavior(worlds, steps) && k < |worlds| && v < |worlds[k].versions|
    ensures var cs := worlds[k].versions[v];
            cs == [] || (OnceEach(cs) && (IsOr(cs, STARTED) || IsOr(cs, COMPLETED)))
  {
    Reachable(worlds, steps, k);
    assert Stage(worlds[k].versions[v]).Some?;
    if worlds[k].versions[v] != [] {
      StagesSay(worlds[k].versions[v]);
    }
  }

  /** Available and ReconciliationComplete become True together, and stay True. */
  lemma NeverLeavesTrue(worlds: seq<World>, steps: seq<Step>, k: nat, u: nat, v: nat)
    requires Behavior(worlds, steps) && k < |worlds| && u <= v < |worlds[k].versions|
    ensures Holds(worlds[k].versions[u], Available) ==> Holds(worlds[k].versions[v], Available)
    ensures Holds(worlds[k].versions[u], ReconciliationComplete) <==> Holds(worlds[k].versions[u], Available)
  {
    Reachable(worlds, steps, k);
    var cs, cs' := worlds[k].versions[u], worlds[k].versions[v];
    assert Stage(cs).Some? && Stage(cs').Some? && Stage(cs).value <= Stage(cs').value;
    if cs != [] {
      StagesSay(cs);
    }
    if cs' != [] {
      StagesSay(cs');
    }
  }

  lemma CompletedHolds(cs: Conditions)
    requires Stage(cs).Some?
    ensures Holds(Completed(cs), Available)
  {
    SettersMoveStages(cs);
    StagesSay(Completed(cs));
  }

  predicate ReadsStages(events: seq<Event>) {
    forall i | 0 <= i < |events| && events[i].Read? && events[i].found.Some? :: Stage(events[i].found.value).Some?
  }

  /** The reconcile returned no error, or the run reloaded, or started from a version that was Available already. */
  predicate MayComplete(events: seq<Event>) {
    exists i | 0 <= i < |events| ::
      || (events[i].Reconciled? && Completes(events[i].outcome))
      || (events[i].Read? && events[i].found.Some? && (i > 0 || Holds(events[i].found.value, Available)))
  }

  /** Until a run has a reason to say "completed", what it holds or is about to write is the started list. */
  lemma {:induction false} HoldsStarted(events: seq<Event>)
    requires Follow(events).Some? && ReadsStages(events) && !MayComplete(events)
    ensures var p := Follow(events).value;
            || (p.Reading? && events == []) || p.Reloading? || p.Finished?
            || (!p.Rewriting? && Stage(p.conditions) == Some(1))
  {
    if events != [] {
      var n := |events| - 1;
      var before, e := events[..n], events[n];
      assert forall i | 0 <= i < n :: before[i] == events[i];
      HoldsStarted(before);
      match e {
        case Read(Some(cs)) =>
          if cs == [] { SettersMoveStages(cs); } else { StagesSay(cs); }
        case Reconciled(_) => SettersMoveStages(Follow(before).value.conditions);
        case _ =>
      }
    }
  }

  predicate HasCompleted(p: Phase) {
    p.Reloading? || p.Finished? || (!p.Reading? && Stage(p.conditions) == Some(2))
  }

  lemma NextKeepsCompleted(p: Phase, e: Event)
    requires HasCompleted(p) && Next(p, e).Some? && (e.Read? && e.found.Some? ==> Stage(e.found.value).Some?)
    ensures HasCompleted(Next(p, e).value)
  {
    match e {
      case Read(Some(cs)) => SettersMoveStages(cs);
      case Reconciled(_) => SettersMoveStages(p.conditions);
      case _ =>
    }
  }

  lemma NextBecomesCompleted(p: Phase, e: Event)
    requires Next(p, e).Some? && (e.Read? && e.found.Some? ==> Stage(e.found.value).Some?)
    requires if e.Read? then e.found.Some? && (!p.Reading? || Holds(e.found.value, Available))
             else e.Reconciled? && Completes(e.outcome) && p.Reconciling? && Stage(p.conditions).Some?
    ensures HasCompleted(Next(p, e).value)
  {
    if e.Read? {
      SettersMoveStages(e.found.value);
      if e.found.value != [] { StagesSay(e.found.value); }
    } else {
      SettersMoveStages(p.conditions);
    }
  }

  lemma MayCompleteLast(events: seq<Event>)
    requires events != [] && MayComplete(events) && !MayComplete(events[..|events| - 1])
    ensures var e := events[|events| - 1];
            (e.Reconciled? && Completes(e.outcome)) || (e.Read? && e.found.Some? && (|events| > 1 || Holds(e.found.value, Available)))
  {
    assert forall i | 0 <= i < |events| - 1 :: events[..|events| - 1][i] == events[i];
  }

  /** Once it has one, what it holds or is about to write is the completed list. */
  lemma {:induction false} HoldsCompleted(events: seq<Event>)
    requires Follow(events).Some? && ReadsStages(events) && MayComplete(events)
    ensures HasCompleted(Follow(events).value)
  {
    var n := |events| - 1;
    var before, e := events[..n], events[n];
    assert forall i | 0 <= i < n :: before[i] == events[i];
    if MayComplete(before) {
      HoldsCompleted(before);
      NextKeepsCompleted(Follow(before).value, e);
    } else {
      HoldsStarted(before);
      MayCompleteLast(events);
      NextBecomesCompleted(Follow(before).value, e);
    }
  }

  /**
   * Exactly then: what a run writes has Available True if and only if its reconcile returned no error, also
   * because the spec was not valid or the base configuration failed, or it reloaded, or it started from a
   * version that had it.
   */
  lemma AvailableIff(events: seq<Event>, cs: Conditions, ok: bool)
    requires Follow(events).Some? && ReadsStages(events) && Next(Follow(events).value, Wrote(cs, ok)).Some?
    ensures Holds(cs, Available) <==> MayComplete(events)
  {
    if MayComplete(events) {
      HoldsCompleted(events);
    } else {
      HoldsStarted(events);
    }
    StagesSay(cs);
  }

  // ---- how a run ends ---------------------------------------------------------------------

  /** A call of the API server that failed. */
  predicate Fails(e: Event) {
    (e.Read? && e.found.None?) || (e.Wrote? && !e.ok)
  }

  /** A run asks to be run again exactly if its last call failed: what its reconcile came to plays no part. */
  lemma {:induction false} AgainIff(events: seq<Event>, again: bool)
    requires Follow(events) == Some(Finished(again))
    ensures events != [] && (again <==> Fails(events[|events| - 1]))
  {
    NextEnds(Follow(events[..|events| - 1]).value, events[|events| - 1]);
  }

  lemma NextEnds(p: Phase, e: Event)
    ensures forall again :: Next(p, e) == Some(Finished(again)) ==> (again <==> Fails(e))
  {
  }

  /** Whatever happens before and after, a reconcile that returns no error is taken for one that built everything. */
  lemma {:induction false} TakenForBuilt(before: seq<Event>, o: Outcome, rest: seq<Event>)
    requires Completes(o)
    ensures Follow(before + [Reconciled(o)] + rest) == Follow(before + [Reconciled(Built)] + rest)
  {
    var a, b := before + [Reconciled(o)], before + [Reconciled(Built)];
    if rest == [] {
      FollowNext(before, Reconciled(o));
      FollowNext(before, Reconciled(Built));
      assert a + rest == a && b + rest == b;
    } else {
      var init, last := rest[..|rest| - 1], rest[|rest| - 1];
      TakenForBuilt(before, o, init);
      FollowNext(a + init, last);
      FollowNext(b + init, last);
      assert a + rest == a + init + [last] && b + rest == b + init + [last];
    }
  }

  lemma PhaseStaged(events: seq<Event>)
    requires Follow(events).Some? && ReadsStages(events)
    ensures var p := Follow(events).value; p.Reconciling? ==> Stage(p.conditions).Some?
  {
    if MayComplete(events) {
      HoldsCompleted(events);
    } else {
      HoldsStarted(events);
    }
  }

  lemma SettersDegrade(cs: Conditions)
    requires Stage(cs).Some?
    ensures cs == [] ==> !Holds(Started(cs), Degraded)
    ensures !Holds(Completed(cs), Degraded)
    ensures cs != [] ==> Holds(Failed(cs), Degraded)
  {
    ListsAreStages();
    if cs == [] {
      PutAllIs(cs, STARTED);
    } else {
      StageAligned(cs);
      FailedIs(cs);
      assert Failed(cs)[3] == Condition(Degraded, True);
    }
    PutAllIs(cs, COMPLETED);
  }

  /** What a run writes has Degraded True if and only if its reconcile has just returned an error. */
  lemma DegradedIff(events: seq<Event>, cs: Conditions, ok: bool)
    requires Follow(events).Some? && ReadsStages(events) && Next(Follow(events).value, Wrote(cs, ok)).Some?
    ensures Holds(cs, Degraded) <==> events[|events| - 1] == Reconciled(Errored)
  {
    var before, e := events[..|events| - 1], events[|events| - 1];
    assert forall i | 0 <= i < |before| :: before[i] == events[i];
    PhaseStaged(before);
    if Follow(before).value.Reconciling? {
      ReconcilingHasConditions(before);
    }
    NextDegrades(Follow(before).value, e);
  }

  lemma NextDegrades(p: Phase, e: Event)
    requires Next(p, e).Some? && Stores(Next(p, e).value)
    requires p.Reconciling? ==> Stage(p.conditions).Some? && p.conditions != []
    requires e.Read? && e.found.Some? ==> Stage(e.found.value).Some?
    ensures Holds(Next(p, e).value.conditions, Degraded) <==> e == Reconciled(Errored)
  {
    match e {
      case Read(Some(found)) => SettersDegrade(found);
      case Reconciled(_) => SettersDegrade(p.conditions);
      case _ =>
    }
  }

  lemma {:induction false} ReconcilingHasConditions(events: seq<Event>)
    requires Follow(events).Some? && ReadsStages(events) && Follow(events).value.Reconciling?
    ensures Follow(events).value.conditions != []
  {
    var before, e := events[..|events| - 1], events[|events| - 1];
    assert forall i | 0 <= i < |before| :: before[i] == events[i];
    if e.Wrote? {
      WritesSomething(before, e);
    }
  }

  lemma WritesSomething(events: seq<Event>, e: Event)
    requires Follow(events).Some? && ReadsStages(events) && e.Wrote? && Next(Follow(events).value, e).Some?
    ensures e.conditions != []
  {
    if MayComplete(events) {
      HoldsCompleted(events);
    } else {
      HoldsStarted(events);
    }
  }

  // ---- a world that becomes available without a reconcile ---------------------------------

  lemma Extended(worlds: seq<World>, steps: seq<Step>, s: Step) returns (worlds': seq<World>, steps': seq<Step>)
    requires Behavior(worlds, steps) && Enabled(worlds[|steps|], s)
    ensures Behavior(worlds', steps') && worlds' == worlds + [Apply(worlds[|steps|], s)] && steps' == steps + [s]
  {
    worlds', steps' := worlds + [Apply(worlds[|steps|], s)], steps + [s];
    forall k: nat | k < |steps'| ensures Moves(worlds', steps', k) {
      if k < |steps| {
        assert Moves(worlds, steps, k);
      }
    }
  }

  /** The world has these versions and one run, which has made n observations, none of a reconcile. */
  ghost predicate Single(w: World, versions: seq<Conditions>, phase: Phase, version: nat) {
    && w.versions == versions && |w.runs| == 1 && w.runs[0].live
    && w.runs[0].phase == phase && w.runs[0].version == version
    && forall i | 0 <= i < |w.runs[0].events| :: !w.runs[0].events[i].Reconciled?
  }

  lemma SingleStep(w: World, s: Step)
    requires Enabled(w, s) && (s.Look? || s.Store?) && s.run == 0
    requires Single(w, w.versions, w.runs[0].phase, w.runs[0].version)
    ensures var r := Advanced(w, s); Single(Apply(w, s), Apply(w, s).versions, r.phase, r.version)
  {
  }

  /** Up to the refused write. */
  lemma Refused() returns (worlds: seq<World>, steps: seq<Step>)
    ensures Behavior(worlds, steps) && Single(worlds[|steps|], [[], []], Reloading(false), 0)
    ensures Uses(steps, {}, true)
  {
    worlds, steps := [World([[]], [])], [];
    worlds, steps := Extended(worlds, steps, Begin);
    assert Single(worlds[1], [[]], Reading, 0);
    worlds, steps := Extended(worlds, steps, Look(0, Some(0)));
    SingleStep(worlds[1], Look(0, Some(0)));
    worlds, steps := Extended(worlds, steps, Bump);
    assert Single(worlds[3], [[], []], Writing(Started([]), false), 0);
    worlds, steps := Extended(worlds, steps, Store(0, false, false));
    SingleStep(worlds[3], Store(0, false, false));
  }

  /**
   * Somebody touches the object while its first run is about to write: the write is refused, the run
   * reloads and stores Available True, and nothing has ever been reconciled.
   */
  lemma AvailableUnreconciled() returns (worlds: seq<World>, steps: seq<Step>)
    ensures Behavior(worlds, steps) && Uses(steps, {}, true)
    ensures var w := worlds[|steps|];
            && |w.versions| == 3 && Holds(w.versions[2], Available)
            && forall i, k | 0 <= i < |w.runs| && 0 <= k < |w.runs[i].events| :: !w.runs[i].events[k].Reconciled?
  {
    worlds, steps := Refused();
    var n := |steps|;
    worlds, steps := Extended(worlds, steps, Look(0, Some(1)));
    SingleStep(worlds[n], Look(0, Some(1)));
    assert Single(worlds[n + 1], [[], []], Rewriting(Completed([]), false), 1);
    worlds, steps := Extended(worlds, steps, Store(0, true, true));
    SingleStep(worlds[n + 1], Store(0, true, true));
    CompletedHolds([]);
  }

  // ---- what a stored Available tells of the reconciles ------------------------------------

  /** The world has one run, which has made these observations and stands here. */
  predicate Alone(w: World, versions: seq<Conditions>, events: seq<Event>, phase: Phase) {
    w.versions == versions && versions != [] && w.runs == [Run(events, phase, |versions| - 1, true)]
  }

  lemma AloneStep(w: World, s: Step, versions: seq<Conditions>, events: seq<Event>, phase: Phase)
    requires Alone(w, versions, events, phase) && Enabled(w, s)
    requires (s.Work? || (s.Store? && s.ok) || (s.Look? && s.version == Some(|versions| - 1))) && s.run == 0
    ensures var stored := if s.Store? then versions + [phase.conditions] else versions;
            Alone(Apply(w, s), stored, events + [Seen(w, s)], Next(phase, Seen(w, s)).value)
  {
  }

  lemma AloneMore(worlds: seq<World>, steps: seq<Step>, s: Step, versions: seq<Conditions>, events: seq<Event>, phase: Phase)
    returns (worlds': seq<World>, steps': seq<Step>)
    requires Behavior(worlds, steps) && Alone(worlds[|steps|], versions, events, phase) && Enabled(worlds[|steps|], s)
    requires (s.Work? || (s.Store? && s.ok) || (s.Look? && s.version == Some(|versions| - 1))) && s.run == 0
    ensures Behavior(worlds', steps') && steps' == steps + [s]
    ensures var stored, e := if s.Store? then versions + [phase.conditions] else versions, Seen(worlds[|steps|], s);
            Next(phase, e).Some? && Alone(worlds'[|steps'|], stored, events + [e], Next(phase, e).value)
  {
    worlds', steps' := Extended(worlds, steps, s);
    AloneStep(worlds[|steps|], s, versions, events, phase);
  }

  /** The last two steps of a first run, from the list it has written. */
  lemma CompletesFrom(worlds: seq<World>, steps: seq<Step>, o: Outcome, started: Conditions, completed: Conditions,
                      events: seq<Event>)
    returns (worlds': seq<World>, steps': seq<Step>)
    requires Completes(o) && completed == Completed(started)
    requires Behavior(worlds, steps) && Alone(worlds[|steps|], [[], started], events, Reconciling(started))
    ensures Behavior(worlds', steps') && steps' == steps + [Work(0, o)] + [Store(0, true, true)]
    ensures Alone(worlds'[|steps'|], [[], started] + [completed],
                  events + [Reconciled(o)] + [Wrote(completed, true)], Finished(false))
  {
    worlds', steps' := AloneMore(worlds, steps, Work(0, o), [[], started], events, Reconciling(started));
    worlds', steps' := AloneMore(worlds', steps', Store(0, true, true), [[], started], events + [Reconciled(o)],
                                 Writing(completed, true));
  }

  lemma FirstLists()
    ensures Started([]) == STARTED && Completed(STARTED) == COMPLETED && Holds(COMPLETED, Available)
  {
    ListsAreStages();
    PutAllIs([], STARTED);
    PutAllIs(STARTED, COMPLETED);
    assert COMPLETED[1] == Condition(Available, True);
  }

  /** The start of a first run. */
  lemma StartsAlone() returns (worlds: seq<World>, steps: seq<Step>)
    ensures Behavior(worlds, steps) && steps == [Begin] + [Look(0, Some(0))]
    ensures Alone(worlds[|steps|], [[]], [Read(Some([]))], Writing(STARTED, false))
  {
    worlds, steps := [World([[]], [])], [];
    worlds, steps := Extended(worlds, steps, Begin);
    FirstLists();
    worlds, steps := AloneMore(worlds, steps, Look(0, Some(0)), [[]], [], Reading);
    assert [] + [Read(Some([]))] == [Read(Some([]))];
  }

  lemma WritesAlone(started: Conditions, worlds: seq<World>, steps: seq<Step>) returns (worlds': seq<World>, steps': seq<Step>)
    requires Behavior(worlds, steps) && Alone(worlds[|steps|], [[]], [Read(Some([]))], Writing(started, false))
    ensures Behavior(worlds', steps') && steps' == steps + [Store(0, true, true)]
    ensures Alone(worlds'[|steps'|], [[], started], [Read(Some([])), Wrote(started, true)], Reconciling(started))
  {
    worlds', steps' := AloneMore(worlds, steps, Store(0, true, true), [[]], [Read(Some([]))], Writing(started, false));
    assert [[]] + [started] == [[], started];
    assert [Read(Some([]))] + [Wrote(started, true)] == [Read(Some([])), Wrote(started, true)];
  }

  /** What a first run with no refused write sees. */
  function FirstEvents(o: Outcome): seq<Event> {
    [Read(Some([])), Wrote(STARTED, true)] + [Reconciled(o)] + [Wrote(COMPLETED, true)]
  }

  /**
   * On an object without conditions a run with every write accepted and nothing reloaded stores Available
   * True, with whatever outcome that is no error, and does not ask to be run again.
   */
  lemma CompletesWith(o: Outcome) returns (worlds: seq<World>, steps: seq<Step>)
    requires Completes(o)
    ensures Behavior(worlds, steps) && Uses(steps, {o}, false)
    ensures Alone(worlds[|steps|], [[], STARTED] + [COMPLETED], FirstEvents(o), Finished(false)) && Holds(COMPLETED, Available)
  {
    FirstLists();
    worlds, steps := StartsAlone();
    worlds, steps := WritesAlone(STARTED, worlds, steps);
    worlds, steps := CompletesFrom(worlds, steps, o, STARTED, COMPLETED, [Read(Some([])), Wrote(STARTED, true)]);
  }

  /** Some run has had its base configuration go through. */
  ghost predicate HasBuilt(w: World) {
    exists i | 0 <= i < |w.runs| :: RunBuilt(w.runs[i].events)
  }

  predicate RunBuilt(events: seq<Event>) {
    exists k | 0 <= k < |events| :: events[k].Reconciled? && Builds(events[k].outcome)
  }

  /** Reconciles come to one of the given outcomes; no write is refused, unless refusals are allowed. */
  predicate Uses(steps: seq<Step>, outcomes: set<Outcome>, refusals: bool) {
    forall k | 0 <= k < |steps| :: Permitted(steps[k], outcomes, refusals)
  }

  predicate Permitted(s: Step, outcomes: set<Outcome>, refusals: bool) {
    (s.Work? ==> s.outcome in outcomes) && (s.Store? && !refusals ==> s.ok)
  }

  /** What a run without refused writes has seen. */
  predicate Noted(versions: seq<Conditions>, outcomes: set<Outcome>, events: seq<Event>) {
    forall i | 0 <= i < |events| :: NotedAt(versions, outcomes, events[i])
  }

  predicate NotedAt(versions: seq<Conditions>, outcomes: set<Outcome>, e: Event) {
    && (e.Read? && e.found.Some? ==> e.found.value in versions)
    && (e.Wrote? ==> e.ok)
    && (e.Reconciled? ==> e.outcome in outcomes)
  }

  ghost predicate AllNoted(w: World, outcomes: set<Outcome>) {
    forall i | 0 <= i < |w.runs| :: Noted(w.versions, outcomes, w.runs[i].events)
  }

  lemma NotedMore(versions: seq<Conditions>, more: seq<Conditions>, outcomes: set<Outcome>, events: seq<Event>)
    requires Noted(versions, outcomes, events) && versions <= more
    ensures Noted(more, outcomes, events)
  {
    forall i | 0 <= i < |events| ensures NotedAt(more, outcomes, events[i]) {
      assert NotedAt(versions, outcomes, events[i]);
    }
  }

  lemma StepNotes(w: World, s: Step, outcomes: set<Outcome>)
    requires Enabled(w, s) && (s.Look? || s.Work? || s.Store?) && Permitted(s, outcomes, false)
    ensures NotedAt(w.versions, outcomes, Seen(w, s))
  {
  }

  lemma StepKeepsNoted(w: World, s: Step, outcomes: set<Outcome>)
    requires AllNoted(w, outcomes) && Enabled(w, s) && Permitted(s, outcomes, false)
    ensures AllNoted(Apply(w, s), outcomes)
  {
    var w' := Apply(w, s);
    forall i | 0 <= i < |w'.runs| ensures Noted(w'.versions, outcomes, w'.runs[i].events) {
      if i < |w.runs| {
        NotedMore(w.versions, w'.versions, outcomes, w.runs[i].events);
        if (s.Look? || s.Work? || s.Store?) && s.run == i {
          StepNotes(w, s, outcomes);
        }
      }
    }
  }

  lemma {:induction false} AlwaysNoted(worlds: seq<World>, steps: seq<Step>, outcomes: set<Outcome>, k: nat)
    requires Behavior(worlds, steps) && Uses(steps, outcomes, false) && k < |worlds|
    ensures AllNoted(worlds[k], outcomes)
  {
    if k > 0 {
      AlwaysNoted(worlds, steps, outcomes, k - 1);
      assert Moves(worlds, steps, k - 1);
      StepKeepsNoted(worlds[k - 1], steps[k - 1], outcomes);
    }
  }

  /** A run without refused writes reads once, at its start. */
  lemma {:induction false} ReadsOnce(events: seq<Event>)
    requires Follow(events).Some? && forall i | 0 <= i < |events| && events[i].Wrote? :: events[i].ok
    ensures !Follow(events).value.Reloading? && (events != [] ==> !Follow(events).value.Reading?)
    ensures forall i | 0 < i < |events| :: !events[i].Read?
  {
    if events != [] {
      var before := events[..|events| - 1];
      assert forall i | 0 <= i < |before| :: before[i] == events[i];
      ReadsOnce(before);
    }
  }

  /** Why a run that is about to store Available True may do so. */
  lemma WriterBuilt(versions: seq<Conditions>, outcomes: set<Outcome>, events: seq<Event>)
    requires Follow(events).Some? && Noted(versions, outcomes, events) && MayComplete(events)
    requires forall o | o in outcomes && Completes(o) :: Builds(o)
    ensures RunBuilt(events) || exists v | 0 <= v < |versions| :: Holds(versions[v], Available)
  {
    forall i | 0 <= i < |events| && events[i].Wrote? ensures events[i].ok {
      assert NotedAt(versions, outcomes, events[i]);
    }
    ReadsOnce(events);
    var i :| 0 <= i < |events| && ((events[i].Reconciled? && Completes(events[i].outcome))
      || (events[i].Read? && events[i].found.Some? && (i > 0 || Holds(events[i].found.value, Available))));
    assert NotedAt(versions, outcomes, events[i]);
    if events[i].Read? {
      var v :| 0 <= v < |versions| && versions[v] == events[i].found.value;
      assert Holds(versions[v], Available);
    }
  }

  lemma StaysBuilt(w: World, s: Step)
    requires Enabled(w, s) && HasBuilt(w)
    ensures HasBuilt(Apply(w, s))
  {
    var i :| 0 <= i < |w.runs| && RunBuilt(w.runs[i].events);
    var k :| 0 <= k < |w.runs[i].events| && w.runs[i].events[k].Reconciled? && Builds(w.runs[i].events[k].outcome);
    assert Apply(w, s).runs[i].events[k] == w.runs[i].events[k];
    assert RunBuilt(Apply(w, s).runs[i].events);
  }

  lemma ReadsStored(w: World, outcomes: set<Outcome>, i: nat)
    requires Invariant(w) && AllNoted(w, outcomes) && i < |w.runs|
    ensures ReadsStages(w.runs[i].events)
  {
    var events := w.runs[i].events;
    forall k | 0 <= k < |events| && events[k].Read? && events[k].found.Some? ensures Stage(events[k].found.value).Some? {
      assert NotedAt(w.versions, outcomes, events[k]);
    }
  }

  /** A new version that is Available is written by a run with a reason. */
  lemma NewVersionHasReason(w: World, s: Step, outcomes: set<Outcome>)
    requires Invariant(w) && AllNoted(w, outcomes) && Enabled(w, s) && s.Store?
    requires Holds(w.runs[s.run].phase.conditions, Available)
    ensures MayComplete(w.runs[s.run].events)
  {
    var r := w.runs[s.run];
    ReadsStored(w, outcomes, s.run);
    AvailableIff(r.events, r.phase.conditions, s.ok);
  }

  lemma {:induction false} AvailableWasBuilt(worlds: seq<World>, steps: seq<Step>, outcomes: set<Outcome>, k: nat, v: nat)
    requires Behavior(worlds, steps) && Uses(steps, outcomes, false) && k < |worlds| && v < |worlds[k].versions|
    requires forall o | o in outcomes && Completes(o) :: Builds(o)
    requires Holds(worlds[k].versions[v], Available)
    ensures HasBuilt(worlds[k])
  {
    assert k > 0;
    var w, s := worlds[k - 1], steps[k - 1];
    assert Moves(worlds, steps, k - 1);
    Reachable(worlds, steps, k - 1);
    AlwaysNoted(worlds, steps, outcomes, k - 1);
    if v < |w.versions| {
      AvailableWasBuilt(worlds, steps, outcomes, k - 1, v);
      StaysBuilt(w, s);
    } else if s.Bump? {
      AvailableWasBuilt(worlds, steps, outcomes, k - 1, v - 1);
      StaysBuilt(w, s);
    } else {
      NewVersionHasReason(w, s, outcomes);
      WriterBuilt(w.versions, outcomes, w.runs[s.run].events);
      if RunBuilt(w.runs[s.run].events) {
        assert HasBuilt(w);
      } else {
        var u :| 0 <= u < |w.versions| && Holds(w.versions[u], Available);
        AvailableWasBuilt(worlds, steps, outcomes, k - 1, u);
      }
      StaysBuilt(w, s);
    }
  }

  /** Over all behaviors: wherever Available True is stored, some base configuration has gone through. */
  ghost predicate AvailableMeansBuilt(outcomes: set<Outcome>, refusals: bool) {
    forall worlds, steps | Behavior(worlds, steps) && Uses(steps, outcomes, refusals) :: BuiltIfAvailable(worlds[|steps|])
  }

  ghost predicate BuiltIfAvailable(w: World) {
    forall v | 0 <= v < |w.versions| && Holds(w.versions[v], Available) :: HasBuilt(w)
  }

  /**
   * That is so exactly if no write is ever refused and no reconcile ends without an error before its base
   * configuration has gone through: not for a spec that is not valid, and not for a base configuration that fails.
   */
  lemma AvailableMeansBuiltIff(outcomes: set<Outcome>, refusals: bool)
    ensures AvailableMeansBuilt(outcomes, refusals) <==>
              !refusals && outcomes !! {Rejected, BaseFailed, Terminating}
  {
    if refusals {
      var worlds, steps := AvailableUnreconciled();
      NeverReconciledIsUnbuilt(worlds[|steps|]);
      assert forall k | 0 <= k < |steps| :: Permitted(steps[k], {}, true);
      assert Uses(steps, outcomes, refusals) && !BuiltIfAvailable(worlds[|steps|]);
    } else if o: Outcome :| o in outcomes && o in {Rejected, BaseFailed, Terminating} {
      var worlds, steps := CompletesWith(o);
      UnbuiltFirst(worlds[|steps|], o);
      assert forall k | 0 <= k < |steps| :: Permitted(steps[k], {o}, false);
      assert Uses(steps, outcomes, refusals) && !BuiltIfAvailable(worlds[|steps|]);
    } else {
      forall worlds: seq<World>, steps: seq<Step>, v | Behavior(worlds, steps) && Uses(steps, outcomes, false)
                                && 0 <= v < |worlds[|steps|].versions| && Holds(worlds[|steps|].versions[v], Available)
        ensures HasBuilt(worlds[|steps|])
      {
        AvailableWasBuilt(worlds, steps, outcomes, |steps|, v);
      }
    }
  }

  lemma NeverReconciledIsUnbuilt(w: World)
    requires forall i, k | 0 <= i < |w.runs| && 0 <= k < |w.runs[i].events| :: !w.runs[i].events[k].Reconciled?
    ensures !HasBuilt(w)
  {
  }

  lemma UnbuiltFirst(w: World, o: Outcome)
    requires !Builds(o) && Alone(w, [[], STARTED] + [COMPLETED], FirstEvents(o), Finished(false))
    ensures !HasBuilt(w) && !BuiltIfAvailable(w)
  {
    FirstLists();
    assert forall k | 0 <= k < 4 && FirstEvents(o)[k].Reconciled? :: FirstEvents(o)[k].outcome == o;
    assert w.versions[2] == COMPLETED;
  }
}
