/**
 * The build history of a JenkinsImage. Every reconcile may leave a goroutine behind that waits for a
 * builder pod and then writes the status from the copy of the image it was started with, however old.
 */
module ImageBuilds {
  import opened Text

  datatype Build = Build(image: string, md5sum: string)
  datatype Phase = Pending | Successful
  datatype Status = Status(phase: Phase, builds: seq<Build>)

  predicate Distinct(builds: seq<Build>) {
    forall i, j | 0 <= i < j < |builds| :: builds[i] != builds[j]
  }

  /** The status a goroutine writes, given the one it was started with; None if the build is known. */
  function Recorded(status: Status, build: Build): (r: Status)
    requires build !in status.builds
    ensures r.phase == Successful && r.builds == status.builds + [build]
    ensures Distinct(status.builds) ==> Distinct(r.builds)
  {
    Status(Successful, status.builds + [build])
  }

  /** The image a Jenkins instance deploys from a successful JenkinsImage: its last build. */
  function LatestImage(status: Status): string
    requires status.builds != []
  {
    status.builds[|status.builds| - 1].image
  }

  method Contains(builds: seq<Build>, e: Build) returns (found: bool)
    ensures found <==> e in builds
  {
    for i := 0 to |builds|
      invariant e !in builds[..i]
    {
      if builds[i] == e {
        return true;
      }
    }
    return false;
  }

  /** How the wait for a builder pod ends: with an error, or with its containers, of which the terminated ones left a message. */
  datatype Pod = WaitFailed | Completed(containers: seq<Option<string>>)

  /** The build a pod has to show: only a single terminated container counts. */
  function BuiltBy(pod: Pod, md5sum: string, trim: string -> string): Option<Build> {
    if pod.Completed? && |pod.containers| == 1 && pod.containers[0].Some?
    then Some(Build(trim(pod.containers[0].value), md5sum))
    else None
  }

  /** The object a goroutine holds and updates in place. */
  class JenkinsImage {
    var status: Status

    constructor (status: Status)
      ensures this.status == status
    {
      this.status := status;
    }

    /** What happens once the wait is over; write says whether a status write is then attempted. */
    method UpdateStatusWhenPodIsCompleted(pod: Pod, md5sum: string, trim: string -> string) returns (write: bool)
      modifies this
      ensures var built := BuiltBy(pod, md5sum, trim);
              && (write <==> built.Some? && built.value !in old(status).builds)
              && status == if write then Recorded(old(status), built.value) else old(status)
    {
      if pod.WaitFailed? || |pod.containers| != 1 {
        return false;
      }
      if pod.containers[0].None? {
        return false;
      }
      var build := Build(trim(pod.containers[0].value), md5sum);
      var known := Contains(status.builds, build);
      if known {
        return false;
      }
      status := status.(builds := status.builds + [build]);
      status := status.(phase := Successful);
      return true;
    }
  }

  // ---- interleavings ----------------------------------------------------------------------

  /** A goroutine, with the version of the image it was started with. */
  datatype Writer = Writer(version: nat, live: bool)

  datatype World = World(versions: seq<Status>, writers: seq<Writer>)

  datatype Step =
    | Start(version: nat)                             // a reconcile reads some version and starts a goroutine
    | Finish(writer: nat, build: Build, commit: bool) // its pod is completed; its write may commit
    | Give(writer: nat)                               // it gives up: pod failed, or the operator stopped
    | Bump                                            // somebody else updates the image, not its status

  predicate Init(w: World) {
    w == World([Status(Pending, [])], [])
  }

  predicate Enabled(w: World, s: Step) {
    match s
    case Start(v) => v < |w.versions|
    case Finish(i, build, commit) =>
      && i < |w.writers| && w.writers[i].live && w.writers[i].version < |w.versions|
      && (commit ==> w.writers[i].version == |w.versions| - 1 && build !in w.versions[w.writers[i].version].builds)
    case Give(i) => i < |w.writers|
    case Bump => w.versions != []
  }

  function Apply(w: World, s: Step): World
    requires Enabled(w, s)
  {
    match s
    case Start(v) => w.(writers := w.writers + [Writer(v, true)])
    case Finish(i, build, commit) =>
      World(if commit then w.versions + [Recorded(w.versions[w.writers[i].version], build)] else w.versions,
            w.writers[i := w.writers[i].(live := false)])
    case Give(i) => w.(writers := w.writers[i := w.writers[i].(live := false)])
    case Bump => w.(versions := w.versions + [w.versions[|w.versions| - 1]])
  }

  ghost predicate Moves(worlds: seq<World>, steps: seq<Step>, k: nat)
    requires k < |steps| && k + 1 < |worlds|
  {
    Enabled(worlds[k], steps[k]) && worlds[k + 1] == Apply(worlds[k], steps[k])
  }

  ghost predicate Behavior(worlds: seq<World>, steps: seq<Step>) {
    && |worlds| == |steps| + 1
    && Init(worlds[0])
    && forall k: nat | k < |steps| :: Moves(worlds, steps, k)
  }

  predicate Good(s: Status) {
    Distinct(s.builds) && (s.phase == Successful ==> s.builds != [])
  }

  predicate Grows(s: Status, t: Status) {
    s.builds <= t.builds && (s.phase == Successful ==> t.phase == Successful)
  }

  predicate Invariant(w: World) {
    && w.versions != []
    && (forall v | 0 <= v < |w.versions| :: Good(w.versions[v]))
    && (forall u, v | 0 <= u <= v < |w.versions| :: Grows(w.versions[u], w.versions[v]))
  }

  lemma StepKeepsInvariant(w: World, s: Step)
    requires Invariant(w) && Enabled(w, s)
    ensures Invariant(Apply(w, s)) && w.versions <= Apply(w, s).versions
  {
    var w' := Apply(w, s);
    if |w'.versions| > |w.versions| {
      var last, new_ := w.versions[|w.versions| - 1], w'.versions[|w.versions|];
      assert Grows(last, new_) && Good(new_);
      forall u | 0 <= u < |w.versions| ensures Grows(w.versions[u], new_) {
        assert Grows(w.versions[u], last);
      }
    }
  }

  lemma {:induction false} Reachable(worlds: seq<World>, steps: seq<Step>, k: nat)
    requires Behavior(worlds, steps) && k < |worlds|
    ensures Invariant(worlds[k])
  {
    if k > 0 {
      Reachable(worlds, steps, k - 1);
      assert Moves(worlds, steps, k - 1);
      StepKeepsInvariant(worlds[k - 1], steps[k - 1]);
    }
  }

  /** In every interleaving, each stored history is free of duplicates and a prefix of every later one. */
  lemma HistoryOnlyGrows(worlds: seq<World>, steps: seq<Step>, k: nat, u: nat, v: nat)
    requires Behavior(worlds, steps) && k < |worlds| && u <= v < |worlds[k].versions|
    ensures Distinct(worlds[k].versions[v].builds)
    ensures worlds[k].versions[u].builds <= worlds[k].versions[v].builds
    ensures worlds[k].versions[u].phase == Successful ==> worlds[k].versions[v].phase == Successful
  {
    Reachable(worlds, steps, k);
    assert Good(worlds[k].versions[v]) && Grows(worlds[k].versions[u], worlds[k].versions[v]);
  }

  /** Whatever version a consumer reads, a successful image has a last build to deploy. */
  lemma ConsumerIsInRange(worlds: seq<World>, steps: seq<Step>, k: nat, v: nat)
    requires Behavior(worlds, steps) && k < |worlds| && v < |worlds[k].versions|
    requires worlds[k].versions[v].phase == Successful
    ensures 0 <= |worlds[k].versions[v].builds| - 1 < |worlds[k].versions[v].builds|
  {
    Reachable(worlds, steps, k);
    assert Good(worlds[k].versions[v]);
  }

  lemma {:induction false} VersionsGrow(worlds: seq<World>, steps: seq<Step>, k: nat, m: nat)
    requires Behavior(worlds, steps) && k <= m < |worlds|
    ensures worlds[k].versions <= worlds[m].versions
    decreases m - k
  {
    if k < m {
      VersionsGrow(worlds, steps, k, m - 1);
      Reachable(worlds, steps, m - 1);
      assert Moves(worlds, steps, m - 1);
      StepKeepsInvariant(worlds[m - 1], steps[m - 1]);
    }
  }

  /** Over a whole history, of the goroutines that started from one version at most one gets its build in. */
  lemma OneWriterPerVersion(worlds: seq<World>, steps: seq<Step>, k: nat, m: nat)
    requires Behavior(worlds, steps) && k < m < |steps|
    requires steps[k].Finish? && steps[k].commit && steps[m].Finish? && steps[m].commit
    ensures Enabled(worlds[k], steps[k]) && Enabled(worlds[m], steps[m])
    ensures worlds[k].writers[steps[k].writer].version < worlds[m].writers[steps[m].writer].version
  {
    assert Moves(worlds, steps, k) && Moves(worlds, steps, m);
    VersionsGrow(worlds, steps, k + 1, m);
  }
}
