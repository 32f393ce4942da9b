/**
 * What one reconcile of a Jenkins comes to: its spec is calculated and checked, and what it asks for is
 * built. Each request may be refused, or take effect and still report an error.
 */
module Building {
  import opened Faults
  import opened Text
  import Defaulting
  import JenkinsStatus
  import Pods
  import Rbac
  import ServiceMerge
  import Validation
  import Wiring

  // ---- what it depends on -----------------------------------------------------------------

  function Roles(s: Defaulting.Spec): seq<Rbac.RoleRef> {
    if s.roles.Some? then s.roles.value else []
  }

  function Labels(s: Defaulting.Service): ServiceMerge.Labels {
    if s.labels.Some? then s.labels.value else map[]
  }

  /** pods: none attached to the Deployment yet, or one and whether it terminates; present: the Jenkins is there in the end. */
  datatype Surroundings = Surroundings(
    bindings: Rbac.Bindings, services: ServiceMerge.Services, pods: Option<bool>, present: bool)

  predicate Writable(j: Pods.Instance, services: ServiceMerge.Services) {
    ServiceMerge.BothWritable(services, j.name, Labels(j.status.service), Labels(j.status.jnlpService))
  }

  ghost predicate RolesAgree(j: Pods.Instance, bindings: Rbac.Bindings) {
    Rbac.CanPass(bindings, j.name, Roles(j.status))
  }

  datatype Base = Ready | Failing | PodTerminating | Panicking

  /** What the base configuration comes to if no request goes wrong. */
  ghost function BaseVerdict(j: Pods.Instance, at: Surroundings): Base {
    if !RolesAgree(j, at.bindings) then Failing
    else if !Writable(j, at.services) then Panicking
    else match at.pods case None => Failing case Some(terminates) => if terminates then PodTerminating else Ready
  }

  /** The calculated spec of a Jenkins and the one it is calculated from. */
  function InstanceOf(name: string, s: Defaulting.Spec, e: Defaulting.Environment): (j: Pods.Instance)
    requires Defaulting.Stored(e) && Defaulting.Calculated(s, e).Ok?
    ensures Pods.Built(j)
  {
    Wiring.CalculatedKeeps(s, e, Defaulting.Calculated(s, e).value);
    Pods.Instance(name, s, Defaulting.Calculated(s, e).value)
  }

  /** The spec can be calculated, and every object that the check looks up is found or known to be missing. */
  ghost predicate Checkable(name: string, s: Defaulting.Spec, e: Defaulting.Environment, x: Validation.Context)
    requires Defaulting.Stored(e)
  {
    Defaulting.Calculated(s, e).Ok? && Validation.Reachable(InstanceOf(name, s, e), x)
  }

  ghost predicate Acceptable(name: string, s: Defaulting.Spec, e: Defaulting.Environment, x: Validation.Context)
    requires Defaulting.Stored(e)
  {
    Checkable(name, s, e, x) && Validation.Valid(InstanceOf(name, s, e), x)
  }

  /** What the reconcile comes to if no request goes wrong; None is a panic. */
  ghost function Verdict(name: string, s: Defaulting.Spec, e: Defaulting.Environment, x: Validation.Context, at: Surroundings)
    : Option<JenkinsStatus.Outcome>
    requires Defaulting.Stored(e)
  {
    if !Checkable(name, s, e, x) then Some(JenkinsStatus.Errored)
    else if !Acceptable(name, s, e, x) then Some(JenkinsStatus.Rejected)
    else AfterBase(BaseVerdict(InstanceOf(name, s, e), at), at.present)
  }

  function AfterBase(b: Base, present: bool): Option<JenkinsStatus.Outcome> {
    match b
    case Panicking => None
    case Failing => Some(JenkinsStatus.BaseFailed)
    case PodTerminating => Some(JenkinsStatus.Terminating)
    case Ready => Some(if present then JenkinsStatus.Built else JenkinsStatus.Gone)
  }

  // ---- the namespace of a Jenkins ---------------------------------------------------------

  /** fault(n) is what goes wrong in the n-th request that is about neither role bindings nor Services. */
  class Site {
    const bindings: Rbac.Cluster
    const services: ServiceMerge.Cluster
    var claimed: bool
    var deployment: Option<Pods.Deployment>
    var calls: nat
    const pods: Option<bool>
    const present: bool
    const fault: nat -> Fault

    constructor (bindings: Rbac.Cluster, services: ServiceMerge.Cluster, claimed: bool, deployment: Option<Pods.Deployment>,
                 pods: Option<bool>, present: bool, fault: nat -> Fault)
      ensures this.bindings == bindings && this.services == services && this.claimed == claimed
      ensures this.deployment == deployment && this.pods == pods && this.present == present && this.fault == fault && calls == 0
    {
      this.bindings, this.services, this.claimed, this.deployment := bindings, services, claimed, deployment;
      this.pods, this.present, this.fault, calls := pods, present, fault, 0;
    }

    function Around(): Surroundings
      reads this, bindings, services
    {
      Surroundings(bindings.bindings, services.services, pods, present)
    }

    /** How many requests there have been, of each kind. */
    function Mark(): (nat, nat, nat)
      reads this, bindings, services
    {
      (calls, bindings.calls, services.calls)
    }

    ghost predicate Since(m: (nat, nat, nat))
      reads this, bindings, services
    {
      m.0 <= calls && m.1 <= bindings.calls && m.2 <= services.calls
    }

    /** No request since then has gone wrong. */
    ghost predicate Fine(m: (nat, nat, nat))
      reads this, bindings, services
    {
      && (forall n: nat | m.0 <= n < calls :: fault(n) == NoFault)
      && bindings.Healthy(m.1, bindings.calls) && services.Healthy(m.2, services.calls)
    }

    /** A request about one object of some other kind, or a list. */
    method Request() returns (ok: bool)
      modifies this`calls
      ensures calls == old(calls) + 1 && (ok <==> fault(old(calls)) == NoFault)
    {
      ok := fault(calls) == NoFault;
      calls := calls + 1;
    }

    method Create(d: Pods.Deployment) returns (ok: bool)
      requires deployment.None?
      modifies this`calls, this`deployment
      ensures calls == old(calls) + 1 && (ok <==> fault(old(calls)) == NoFault)
      ensures deployment == if fault(old(calls)) == Refused then None else Some(d)
    {
      if fault(calls) != Refused {
        deployment := Some(d);
      }
      ok := fault(calls) == NoFault;
      calls := calls + 1;
    }
  }

  /** Credentials, scripts, initial configuration and plugin list. */
  method EnsureObjects(site: Site) returns (ok: bool)
    modifies site`calls
    ensures site.Since(old(site.Mark())) && (ok <==> site.Fine(old(site.Mark())))
  {
    ok := site.Request();
    if !ok {
      return;
    }
    ok := site.Request();
    if !ok {
      return;
    }
    ok := site.Request();
    if !ok {
      return;
    }
    ok := site.Request();
  }

  /** Service monitor and route, if asked for. */
  method EnsureExposed(site: Site, metrics: bool, routes: bool) returns (ok: bool)
    modifies site`calls
    ensures site.Since(old(site.Mark())) && (ok <==> site.Fine(old(site.Mark())))
  {
    ok := true;
    if metrics {
      ok := site.Request();
      if !ok {
        return;
      }
    }
    if routes {
      ok := site.Request();
    }
  }

  /** Once the role bindings are there. */
  method EnsureServices(site: Site, j: Pods.Instance, metrics: bool, routes: bool) returns (r: ServiceMerge.Result)
    modifies site`calls, site.services
    ensures site.Since(old(site.Mark()))
    ensures r == ServiceMerge.Done <==> site.Fine(old(site.Mark())) && Writable(j, old(site.services.services))
    ensures r == ServiceMerge.Panicked <==> site.Fine(old(site.Mark())) && !Writable(j, old(site.services.services))
  {
    r := ServiceMerge.EnsureServices(site.services, j.name, Labels(j.status.service), Labels(j.status.jnlpService));
    if r == ServiceMerge.Done {
      var ok := EnsureExposed(site, metrics, routes);
      if !ok {
        return ServiceMerge.Failed;
      }
    }
  }

  method EnsureResources(site: Site, j: Pods.Instance, metrics: bool, routes: bool) returns (r: ServiceMerge.Result)
    modifies site`calls, site.bindings, site.services
    ensures site.Since(old(site.Mark()))
    ensures r != ServiceMerge.Failed ==> site.Fine(old(site.Mark())) && RolesAgree(j, old(site.bindings.bindings))
    ensures r == ServiceMerge.Done ==> Writable(j, old(site.services.services))
    ensures r == ServiceMerge.Panicked ==> !Writable(j, old(site.services.services))
    ensures (site.Fine(old(site.Mark())) && site.bindings.UpToDate(old(site.bindings.calls), site.bindings.calls)
             && RolesAgree(j, old(site.bindings.bindings))) ==> r != ServiceMerge.Failed
  {
    var ok := EnsureObjects(site);
    if !ok {
      return ServiceMerge.Failed;
    }
    ghost var view;
    ok, view := Rbac.EnsureRBAC(site.bindings, j.name, Roles(j.status));
    if !ok {
      return ServiceMerge.Failed;
    }
    r := EnsureServices(site, j, metrics, routes);
  }

  /** A Deployment that is there is left as it is; if it cannot be read, what was read is used all the same, which panics. */
  method EnsureJenkinsDeploymentIsPresent(site: Site, d: Pods.Deployment) returns (r: Base)
    modifies site`calls, site`deployment
    ensures site.Since(old(site.Mark()))
    ensures r == Ready <==> site.Fine(old(site.Mark()))
    ensures r == Ready || r == Failing || r == Panicking
    ensures site.deployment == old(site.deployment) || (old(site.deployment).None? && site.deployment == Some(d))
    ensures r == Ready ==> site.deployment.Some?
  {
    var ok := site.Request();
    if !ok {
      return Panicking;
    }
    if site.deployment.None? {
      ok := site.Create(d);
      if !ok {
        return Failing;
      }
      ok := site.Request();
      if !ok {
        return Failing;
      }
    }
    return Ready;
  }

  /** The Deployment is read again, which panics if it fails; whether a replica is available makes no difference. */
  method EnsureJenkinsDeploymentIsReady(site: Site) returns (r: Base)
    modifies site`calls
    ensures site.Since(old(site.Mark()))
    ensures r == if site.Fine(old(site.Mark())) then Ready else Panicking
  {
    var ok := site.Request();
    r := if ok then Ready else Panicking;
  }

  /** The pod is looked for by way of the Deployment, its replica set and the pods of that. */
  method GetPodByDeployment(site: Site) returns (r: Base, terminates: bool)
    modifies site`calls
    ensures site.Since(old(site.Mark()))
    ensures !site.Fine(old(site.Mark())) ==> r == Failing || r == Panicking
    ensures site.Fine(old(site.Mark())) ==> r == if site.pods.Some? then Ready else Failing
    ensures r == Ready ==> site.pods == Some(terminates)
  {
    var ok := site.Request();
    if !ok {
      return Panicking, false;
    }
    ok := site.Request();
    if !ok {
      return Failing, false;
    }
    ok := site.Request();
    if !ok || site.pods.None? {
      return Failing, false;
    }
    return Ready, site.pods.value;
  }

  /**
   * The base configuration. It goes through only if no request went wrong, the roles agree with the bindings
   * that are there, the labels can be written to the Services, and a pod is attached that is not being
   * terminated; that is what it comes to if no request goes wrong and the list of bindings is up to date.
   * Any request that goes wrong makes it fail or panic.
   */
  method EnsureBase(site: Site, j: Pods.Instance, d: Pods.Deployment, metrics: bool, routes: bool) returns (r: Base)
    modifies site`calls, site`deployment, site.bindings, site.services
    ensures site.Since(old(site.Mark()))
    ensures site.Fine(old(site.Mark())) && site.bindings.UpToDate(old(site.bindings.calls), site.bindings.calls) ==>
              r == BaseVerdict(j, old(site.Around()))
    ensures !site.Fine(old(site.Mark())) ==> r == Failing || r == Panicking
    ensures r == Ready || r == PodTerminating ==> site.deployment.Some? && r == BaseVerdict(j, old(site.Around()))
    ensures site.deployment == old(site.deployment)
            || (old(site.deployment).None? && site.deployment == Some(d))
  {
    var resources := EnsureResources(site, j, metrics, routes);
    if resources == ServiceMerge.Failed {
      return Failing;
    }
    if resources == ServiceMerge.Panicked {
      return Panicking;
    }
    r := EnsureJenkinsDeploymentIsPresent(site, d);
    if r != Ready {
      return;
    }
    r := EnsureJenkinsDeploymentIsReady(site);
    if r != Ready {
      return;
    }
    var terminates;
    r, terminates := GetPodByDeployment(site);
    if r == Ready && terminates {
      return PodTerminating;
    }
  }

  /** A claim that cannot be read is passed over, one that is missing and cannot be created is not. */
  method EnsureClaim(site: Site) returns (ok: bool)
    modifies site`calls, site`claimed
    ensures site.Since(old(site.Mark())) && (site.Fine(old(site.Mark())) ==> ok && site.claimed)
    ensures var read, create := site.fault(old(site.calls)), site.fault(old(site.calls) + 1);
            && (read != NoFault ==> ok && site.claimed == old(site.claimed))
            && (read == NoFault ==> (ok <==> old(site.claimed) || create == NoFault))
            && (read == NoFault ==> (site.claimed <==> old(site.claimed) || create != Refused))
  {
    ok := site.Request();
    if !ok || site.claimed {
      return true;
    }
    site.claimed := site.fault(site.calls) != Refused;
    ok := site.Request();
  }

  /** The object is read again; it may be gone. */
  method Reread(site: Site) returns (o: JenkinsStatus.Outcome)
    modifies site`calls
    ensures site.Since(old(site.Mark()))
    ensures Some(o) == if site.Fine(old(site.Mark())) then AfterBase(Ready, site.present) else Some(JenkinsStatus.Errored)
  {
    var ok := site.Request();
    o := if !ok then JenkinsStatus.Errored else if site.present then JenkinsStatus.Built else JenkinsStatus.Gone;
  }

  /** Up to the check: None if nothing speaks against building. */
  method Prepare(site: Site, jenkins: Defaulting.Jenkins, name: string, e: Defaulting.Environment, x: Validation.Context)
    returns (o: Option<JenkinsStatus.Outcome>)
    requires Defaulting.Stored(e)
    modifies jenkins, site`calls, site`claimed
    ensures site.Since(old(site.Mark()))
    ensures o.None? ==> Acceptable(name, jenkins.spec, e, x) && jenkins.status != null
                        && Pods.Instance(name, jenkins.spec, jenkins.status.spec) == InstanceOf(name, jenkins.spec, e)
    ensures o.Some? ==> o.value == JenkinsStatus.Errored || o.value == JenkinsStatus.Rejected
    ensures o == Some(JenkinsStatus.Rejected) ==> Checkable(name, jenkins.spec, e, x) && !Acceptable(name, jenkins.spec, e, x)
    ensures site.Fine(old(site.Mark())) ==>
              && (o == Some(JenkinsStatus.Errored) <==> !Checkable(name, jenkins.spec, e, x))
              && (o.None? <==> Acceptable(name, jenkins.spec, e, x))
  {
    var error, update := Defaulting.SetDefaults(jenkins, e);
    if error.Some? {
      return Some(JenkinsStatus.Errored);
    }
    var ok := site.Request();
    if !ok {
      return Some(JenkinsStatus.Errored);
    }
    if jenkins.status.spec.persistent {
      ok := EnsureClaim(site);
      if !ok {
        return Some(JenkinsStatus.Errored);
      }
    }
    ghost var j := InstanceOf(name, jenkins.spec, e);
    var messages := Validation.Validate(Pods.Instance(name, jenkins.spec, jenkins.status.spec), x);
    if messages.None? {
      return Some(JenkinsStatus.Errored);
    }
    o := if messages.value != [] then Some(JenkinsStatus.Rejected) else None;
  }

  /** From a spec that passed the check. */
  method Build(site: Site, j: Pods.Instance, d: Pods.Deployment, metrics: bool, routes: bool)
    returns (o: Option<JenkinsStatus.Outcome>)
    modifies site`calls, site`deployment, site.bindings, site.services
    ensures site.Since(old(site.Mark()))
    ensures site.Fine(old(site.Mark())) && site.bindings.UpToDate(old(site.bindings.calls), site.bindings.calls) ==>
              o == AfterBase(BaseVerdict(j, old(site.Around())), site.present)
    ensures o.Some? && JenkinsStatus.Builds(o.value) ==>
              o == AfterBase(BaseVerdict(j, old(site.Around())), site.present) && site.deployment.Some?
    ensures o != Some(JenkinsStatus.Rejected)
    ensures site.deployment == old(site.deployment)
            || (old(site.deployment).None? && site.deployment == Some(d))
  {
    var r := EnsureBase(site, j, d, metrics, routes);
    match r {
      case Panicking => return None;
      case Failing => return Some(JenkinsStatus.BaseFailed);
      case PodTerminating => return Some(JenkinsStatus.Terminating);
      case Ready =>
        var outcome := Reread(site);
        return Some(outcome);
    }
  }

  /**
   * The rest of a reconcile. Whatever goes wrong: base configuration that went through was asked for by a spec
   * that passed the check, its roles and labels could be applied, and a pod was attached that is not being
   * terminated; a Deployment that was there is untouched. If the spec does not pass, nothing is built.
   */
  method Reconcile(site: Site, jenkins: Defaulting.Jenkins, name: string, e: Defaulting.Environment, x: Validation.Context,
                   proxy: seq<Defaulting.EnvVar>, images: Pods.Images, metrics: bool, routes: bool)
    returns (o: Option<JenkinsStatus.Outcome>)
    requires Defaulting.Stored(e)
    modifies jenkins, site`calls, site`claimed, site`deployment, site.bindings, site.services
    ensures site.Since(old(site.Mark()))
    ensures site.Fine(old(site.Mark())) && site.bindings.UpToDate(old(site.bindings.calls), site.bindings.calls) ==>
              o == Verdict(name, jenkins.spec, e, x, old(site.Around()))
    ensures o.Some? && JenkinsStatus.Builds(o.value) ==>
              o == Verdict(name, jenkins.spec, e, x, old(site.Around())) && site.deployment.Some?
    ensures !Acceptable(name, jenkins.spec, e, x) ==>
              && (o == Some(JenkinsStatus.Errored) || (o == Some(JenkinsStatus.Rejected) && Checkable(name, jenkins.spec, e, x)))
              && site.deployment == old(site.deployment) && site.Around() == old(site.Around())
    ensures Acceptable(name, jenkins.spec, e, x) ==> o != Some(JenkinsStatus.Rejected)
    ensures Makes(old(site.deployment), site.deployment, Wish(name, Revision(jenkins.spec, e, x, proxy, images)))
  {
    o := Prepare(site, jenkins, name, e, x);
    if o.Some? {
      return;
    }
    var j := Pods.Instance(name, jenkins.spec, jenkins.status.spec);
    o := Build(site, j, Pods.DeploymentOf(j, proxy, images), metrics, routes);
  }

  // ---- any number of reconciles -----------------------------------------------------------

  /** A spec, as a user edits it from time to time, with its surroundings when it is reconciled. */
  datatype Revision = Revision(
    spec: Defaulting.Spec, environment: Defaulting.Environment, context: Validation.Context,
    proxy: seq<Defaulting.EnvVar>, images: Pods.Images)

  /** The Deployment that a revision asks for, if it passes the check. */
  ghost function Wish(name: string, r: Revision): Option<Pods.Deployment> {
    if Defaulting.Stored(r.environment) && Acceptable(name, r.spec, r.environment, r.context)
    then Some(Pods.DeploymentOf(InstanceOf(name, r.spec, r.environment), r.proxy, r.images))
    else None
  }

  /** The Deployment before and after one reconcile, whatever it comes to. */
  predicate Makes(before: Option<Pods.Deployment>, after: Option<Pods.Deployment>, wish: Option<Pods.Deployment>) {
    after == before || (before.None? && wish.Some? && after == wish)
  }

  /** states[k] is the Deployment before the k-th reconcile, wishes[k] what the revision in force then asks for. */
  ghost predicate History(states: seq<Option<Pods.Deployment>>, wishes: seq<Option<Pods.Deployment>>) {
    && |states| == |wishes| + 1
    && forall k: nat | k < |wishes| :: Follows(states, wishes, k)
  }

  ghost predicate Follows(states: seq<Option<Pods.Deployment>>, wishes: seq<Option<Pods.Deployment>>, k: nat)
    requires k < |wishes| && k + 1 < |states|
  {
    Makes(states[k], states[k + 1], wishes[k])
  }

  /** An edit never reaches a Deployment: once there, it stays what it is. */
  lemma {:induction false} EditsNeverArrive(states: seq<Option<Pods.Deployment>>, wishes: seq<Option<Pods.Deployment>>, k: nat, n: nat)
    requires History(states, wishes) && k <= n < |states| && states[k].Some?
    ensures states[n] == states[k]
  {
    if k < n {
      EditsNeverArrive(states, wishes, k, n - 1);
      assert Follows(states, wishes, n - 1);
    }
  }

  lemma {:induction false} MadeOf(states: seq<Option<Pods.Deployment>>, wishes: seq<Option<Pods.Deployment>>, n: nat)
    returns (k: nat)
    requires History(states, wishes) && n < |states| && states[0].None? && states[n].Some?
    ensures k < n && states[k].None? && wishes[k].Some? && states[k + 1] == wishes[k]
  {
    assert Follows(states, wishes, n - 1);
    k := n - 1;
    if states[n - 1].Some? {
      k := MadeOf(states, wishes, n - 1);
    }
  }

  /**
   * Over any sequence of edits and reconciles that starts without a Deployment: what runs is what one revision
   * asked for, the one in force when the Deployment was made, and a later revision has what it asks for exactly
   * if it asks for the same.
   */
  lemma FirstRevisionRuns(states: seq<Option<Pods.Deployment>>, wishes: seq<Option<Pods.Deployment>>, n: nat) returns (k: nat)
    requires History(states, wishes) && n < |states| && states[0].None? && states[n].Some?
    ensures k < n && states[k].None? && wishes[k].Some?
    ensures forall m | k < m < |states| :: states[m] == wishes[k]
    ensures forall m | k < m < |wishes| :: states[m + 1] == wishes[m] <==> wishes[m] == wishes[k]
  {
    k := MadeOf(states, wishes, n);
    forall m | k < m < |states| ensures states[m] == wishes[k] {
      EditsNeverArrive(states, wishes, k + 1, m);
    }
  }

  /** And the Deployment that is made has every mount declared. */
  lemma AcceptableIsWired(name: string, s: Defaulting.Spec, e: Defaulting.Environment, x: Validation.Context,
                          proxy: seq<Defaulting.EnvVar>, images: Pods.Images)
    requires Defaulting.Stored(e) && Acceptable(name, s, e, x)
    ensures Wiring.Wired(Pods.DeploymentOf(InstanceOf(name, s, e), proxy, images))
  {
    Wiring.ValidSpecsBuildWiredPods(name, s, e, x, proxy, images);
  }

  // ---- what the status says of it ---------------------------------------------------------

  /** The conditions tell that the Jenkins is available, and its base configuration has not gone through. */
  predicate OnlyClaimed(o: Option<JenkinsStatus.Outcome>) {
    o.Some? && JenkinsStatus.Completes(o.value) && !JenkinsStatus.Builds(o.value)
  }

  lemma OnlyClaimedBase(j: Pods.Instance, at: Surroundings)
    ensures OnlyClaimed(AfterBase(BaseVerdict(j, at), at.present)) <==>
              !RolesAgree(j, at.bindings) || (Writable(j, at.services) && at.pods != Some(false))
  {
  }

  /**
   * With no request going wrong that is what a reconcile comes to if and only if its spec does not pass the
   * check, its roles do not agree with the bindings that are there, or no pod is attached or the one that is
   * terminates.
   */
  lemma OnlyClaimedIff(name: string, s: Defaulting.Spec, e: Defaulting.Environment, x: Validation.Context, at: Surroundings)
    requires Defaulting.Stored(e)
    ensures OnlyClaimed(Verdict(name, s, e, x, at)) <==>
              && Checkable(name, s, e, x)
              && var j := InstanceOf(name, s, e);
                 || !Validation.Valid(j, x) || !RolesAgree(j, at.bindings)
                 || (Writable(j, at.services) && at.pods != Some(false))
  {
    if Checkable(name, s, e, x) {
      OnlyClaimedBase(InstanceOf(name, s, e), at);
    }
  }

  /** Each such reconcile, on an object without conditions and with every write accepted, stores Available True. */
  lemma ClaimsAvailable(name: string, s: Defaulting.Spec, e: Defaulting.Environment, x: Validation.Context, at: Surroundings)
    returns (worlds: seq<JenkinsStatus.World>, steps: seq<JenkinsStatus.Step>)
    requires Defaulting.Stored(e) && OnlyClaimed(Verdict(name, s, e, x, at))
    ensures JenkinsStatus.Behavior(worlds, steps)
    ensures JenkinsStatus.Uses(steps, {Verdict(name, s, e, x, at).value}, false)
    ensures var w := worlds[|steps|];
            && |w.versions| > 0 && JenkinsStatus.Holds(w.versions[|w.versions| - 1], JenkinsStatus.Available)
            && !JenkinsStatus.HasBuilt(w)
  {
    var o := Verdict(name, s, e, x, at).value;
    worlds, steps := JenkinsStatus.CompletesWith(o);
    JenkinsStatus.UnbuiltFirst(worlds[|steps|], o);
  }

  /** A user's volume with a name of the operator's own is enough. */
  lemma ReservedVolumeIsClaimed(name: string, s: Defaulting.Spec, e: Defaulting.Environment, x: Validation.Context,
                                at: Surroundings, u: nat)
    requires Defaulting.Stored(e) && Checkable(name, s, e, x)
    requires var j := InstanceOf(name, s, e);
             u < |Validation.UserVolumes(j)| && Validation.Has(Pods.BaseVolumes(j), Validation.UserVolumes(j)[u].name)
    ensures Verdict(name, s, e, x, at) == Some(JenkinsStatus.Rejected)
  {
    assert !Validation.NoneReserved(InstanceOf(name, s, e));
  }

  /** A spec with such a volume. */
  function Reserving(): Defaulting.Spec {
    Defaulting.Spec(Some(Defaulting.Master([], [Defaulting.Volume(Pods.HOME_VOLUME, Defaulting.EmptyDir, false)], [])), "",
                    Defaulting.NO_SERVICE, Defaulting.NO_SERVICE, None, Some(Defaulting.Casc(false, false, false, "", [])), [],
                    false, false, false)
  }

  lemma RejectedHappens(name: string, e: Defaulting.Environment, x: Validation.Context, at: Surroundings)
    requires Defaulting.Stored(e)
    ensures Verdict(name, Reserving(), e, x, at) == Some(JenkinsStatus.Rejected)
  {
    Defaulting.KeepsWhatWasGiven(Reserving(), e);
    var j := InstanceOf(name, Reserving(), e);
    var volumes := [Defaulting.Volume(Pods.HOME_VOLUME, Defaulting.EmptyDir, false)];
    assert Validation.UserVolumes(j) == volumes;
    assert Validation.Availability(volumes[0], x) == None;
    HomeIsReserved(j);
    ReservedVolumeIsClaimed(name, Reserving(), e, x, at, 0);
  }

  lemma HomeIsReserved(j: Pods.Instance)
    requires Pods.Built(j)
    ensures Validation.Has(Pods.BaseVolumes(j), Pods.HOME_VOLUME)
  {
    assert Pods.BaseVolumes(j)[4].name == Pods.HOME_VOLUME;
  }

  /** So is a spec that passes the check, as long as its labels can be written and its Deployment has no pod yet. */
  lemma NoPodIsClaimed(name: string, s: Defaulting.Spec, e: Defaulting.Environment, x: Validation.Context, at: Surroundings)
    requires Defaulting.Stored(e) && Acceptable(name, s, e, x) && at.pods.None?
    requires Writable(InstanceOf(name, s, e), at.services)
    ensures Verdict(name, s, e, x, at) == Some(JenkinsStatus.BaseFailed)
  {
  }
}
