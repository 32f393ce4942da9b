/**
 * From the spec a user wrote to the spec the operator works with: what is left out is filled in, and
 * what was given is kept. The calculation goes on in the object that Status.Spec already points to.
 */
module Defaulting {
  import opened Text
  import ImageBuilds
  import Plugins
  import Rbac

  datatype EnvVar = EnvVar(name: string, value: string, fieldPath: string)
  datatype VolumeMount = VolumeMount(name: string, mountPath: string, subPath: string, readOnly: bool)
  datatype Resources = Unset | Resources(cpuRequest: string, memoryRequest: string, cpuLimit: string, memoryLimit: string)
  datatype Probe = Probe(uri: string, port: string, initialDelay: int, timeout: int, failureThreshold: int)

  datatype Container = Container(
    name: string, image: string, imagePullPolicy: string, resources: Resources,
    command: Option<seq<string>>, args: seq<string>, env: seq<EnvVar>, volumeMounts: seq<VolumeMount>,
    readiness: Option<Probe>, liveness: Option<Probe>)

  datatype Source = ConfigMap(name: string) | Secret(secret: string) | Claim(claim: string) | EmptyDir | Other
  datatype Volume = Volume(name: string, source: Source, optional: bool)

  datatype Master = Master(containers: seq<Container>, volumes: seq<Volume>, basePlugins: seq<Plugins.BasePlugin>)

  datatype Service = Service(kind: string, port: int, portName: string, nodePort: int, labels: Option<map<string, string>>)

  datatype Casc = Casc(enabled: bool, defaultConfig: bool, enableAutoReload: bool, secret: string, configurations: seq<string>)

  datatype Spec = Spec(
    master: Option<Master>, imageRef: string, service: Service, jnlpService: Service, roles: Option<seq<Rbac.RoleRef>>,
    casc: Option<Casc>, backupVolumes: seq<string>, persistent: bool, forceBasePluginsInstall: bool, proxyEnabled: bool)

  datatype Error = FirstContainerMisnamed | ImageNotFound(name: string)
  datatype Result<+T> = Ok(value: T) | Err(error: Error)

  /** What the calculation looks up: the operator's settings, the JenkinsImages and the edit role. */
  datatype Environment = Environment(
    defaultImage: string, useNodePort: bool, images: map<string, Image>, editRole: Option<Rbac.RoleRef>)

  datatype Image = Image(registry: string, name: string, status: ImageBuilds.Status)

  /** Every status that is ever stored is good (ImageBuilds.Reachable). */
  predicate Stored(e: Environment) {
    forall n | n in e.images :: ImageBuilds.Good(e.images[n].status)
  }

  const MASTER := "jenkins"
  const ALWAYS := "Always"
  const JAVA_OPTS_NAME := "JAVA_OPTS"
  const TRUST_NAME := "KUBERNETES_TRUST_CERTIFICATES"
  const RUN_NO_WIZARD := "-Djenkins.install." + "runSetupWizard=false"
  const HEADLESS := "-Djava.awt." + "headless=true"
  const UNLOCK := "-XX:+" + "UnlockExperimentalVMOptions"
  const MAX_RAM := "-XX:MaxRAMFraction=1"
  const CRUMBS := "-Dhudson.security.csrf." + "DefaultCrumbIssuer." + "EXCLUDE_SESSION_ID=true"
  const RELOAD := "-Dcasc.reload.token=" + "$(POD_NAME)"
  const JAVA_FLAGS: seq<string> := [UNLOCK, MAX_RAM, RUN_NO_WIZARD, HEADLESS, CRUMBS, RELOAD]
  const NO_SERVICE := Service("", 0, "", 0, None)
  const MASTER_RESOURCES := Resources("1", "500Mi", "1500m", "3Gi")
  const SIDE_RESOURCES := Resources("50m", "50Mi", "100m", "100Mi")
  const BASE_PLUGINS: seq<Plugins.BasePlugin> := [
    Plugins.BasePlugin("kubernetes", "1.25.2", ""), Plugins.BasePlugin("workflow-job", "2.40", ""),
    Plugins.BasePlugin("workflow-aggregator", "2.6", ""), Plugins.BasePlugin("git", "4.2.2", ""),
    Plugins.BasePlugin("job-dsl", "1.77", ""), Plugins.BasePlugin("configuration-as-code", "1.42", ""),
    Plugins.BasePlugin("configuration-as-code-groovy", "1.1", ""),
    Plugins.BasePlugin("kubernetes-credentials-provider", "0.13", "")]

  function JavaOpts(): string { Join(JAVA_FLAGS, ' ') }

  // ---- what is calculated -----------------------------------------------------------------

  function NewMasterContainer(image: string): Container {
    Container(MASTER, image, "", Unset, None, [], [], [], None, None)
  }

  function MasterContainer(s: Spec, e: Environment): Result<Container> {
    if s.master.None? || s.master.value.containers == [] then Ok(NewMasterContainer(e.defaultImage))
    else if s.master.value.containers[0].name != MASTER then Err(FirstContainerMisnamed)
    else Ok(s.master.value.containers[0])
  }

  function MasterWith(s: Spec, c: Container): (m: Master)
    ensures m.containers != [] && m.containers[0] == c
  {
    if s.master.None? then Master([c], [], [])
    else
      var m := s.master.value;
      m.(containers := if m.containers == [] then [c] else m.containers[0 := c])
  }

  function MasterImage(s: Spec, e: Environment, c: Container): Result<string>
    requires Stored(e)
  {
    var image := if c.image == "" then e.defaultImage else c.image;
    if s.imageRef == "" then Ok(image)
    else if s.imageRef !in e.images then Err(ImageNotFound(s.imageRef))
    else
      var i := e.images[s.imageRef];
      if i.status.phase != ImageBuilds.Successful then Ok(image)
      else Ok(i.registry + "/" + i.name + "@" + ImageBuilds.LatestImage(i.status))
  }

  predicate Sets(env: seq<EnvVar>, name: string) {
    exists i | 0 <= i < |env| :: env[i].name == name
  }

  function WithEnv(env: seq<EnvVar>, name: string, value: string): (r: seq<EnvVar>)
    ensures Sets(r, name) && env <= r
  {
    if Sets(env, name) then env
    else
      var r := env + [EnvVar(name, value, "")];
      assert r[|env|].name == name;
      r
  }

  function DefaultedMaster(c: Container, image: string): Container {
    c.(image := image, imagePullPolicy := ALWAYS,
       readiness := if c.readiness.None? then Some(Probe("login", "http", 30, 0, 0)) else c.readiness,
       liveness := if c.liveness.None? then Some(Probe("login", "http", 80, 5, 12)) else c.liveness,
       env := WithEnv(WithEnv(c.env, JAVA_OPTS_NAME, JavaOpts()), TRUST_NAME, "true"),
       resources := if c.resources.Unset? then MASTER_RESOURCES else c.resources)
  }

  function DefaultedSide(c: Container): Container {
    c.(imagePullPolicy := if c.imagePullPolicy == "" then ALWAYS else c.imagePullPolicy,
       resources := if c.resources.Unset? then SIDE_RESOURCES else c.resources)
  }

  function DefaultedSides(cs: seq<Container>): (r: seq<Container>)
    ensures |r| == |cs| && forall i | 0 <= i < |cs| :: r[i] == DefaultedSide(cs[i])
  {
    seq(|cs|, i requires 0 <= i < |cs| => DefaultedSide(cs[i]))
  }

  function DefaultedContainers(cs: seq<Container>, image: string): (r: seq<Container>)
    requires cs != []
    ensures |r| == |cs| && r[0] == DefaultedMaster(cs[0], image) && r[1..] == DefaultedSides(cs[1..])
    ensures forall i | 1 <= i < |cs| :: r[i] == DefaultedSide(cs[i])
  {
    var r := [DefaultedMaster(cs[0], image)] + DefaultedSides(cs[1..]);
    assert forall i | 1 <= i < |cs| :: r[i] == DefaultedSide(cs[1..][i - 1]);
    r
  }

  function DefaultedService(s: Service, kind: string, port: int, portName: string): Service {
    if s == NO_SERVICE then Service(kind, port, portName, 0, None) else s
  }

  function Finished(s: Spec, e: Environment, m: Master, image: string): Spec
    requires m.containers != []
  {
    s.(master := Some(Master(DefaultedContainers(m.containers, image), m.volumes,
                             if m.basePlugins == [] then BASE_PLUGINS else m.basePlugins)),
       service := DefaultedService(s.service, if e.useNodePort then "NodePort" else "ClusterIP", 8080, "web"),
       jnlpService := DefaultedService(s.jnlpService, "ClusterIP", 50000, "jnlp"),
       casc := if s.casc.None? then Some(Casc(true, true, true, "", [])) else s.casc,
       roles := if s.roles.None? && e.editRole.Some? then Some([e.editRole.value]) else s.roles)
  }

  /** The calculated spec, if there is one. */
  function Calculated(s: Spec, e: Environment): Result<Spec>
    requires Stored(e)
  {
    match MasterContainer(s, e)
    case Err(error) => Err(error)
    case Ok(c) =>
      match MasterImage(s, e, c)
      case Err(error) => Err(error)
      case Ok(image) => Ok(Finished(s, e, MasterWith(s, c), image))
  }

  // ---- the controller in its own form -----------------------------------------------------

  class SpecObject {
    var spec: Spec

    constructor (spec: Spec)
      ensures this.spec == spec
    {
      this.spec := spec;
    }
  }

  class Jenkins {
    const spec: Spec
    var status: SpecObject?

    constructor (spec: Spec)
      ensures this.spec == spec && status == null
    {
      this.spec, status := spec, null;
    }
  }

  method IsEnvVarNotSet(env: seq<EnvVar>, name: string) returns (notSet: bool)
    ensures notSet <==> !Sets(env, name)
  {
    for i := 0 to |env|
      invariant !Sets(env[..i], name)
    {
      assert env[..i + 1] == env[..i] + [env[i]];
      if env[i].name == name {
        return false;
      }
    }
    assert env[..|env|] == env;
    return true;
  }

  method SetEnvVarIfNotSet(c: Container, name: string, value: string) returns (r: Container)
    ensures r == c.(env := WithEnv(c.env, name, value))
  {
    r := c;
    var notSet := IsEnvVarNotSet(c.env, name);
    if notSet {
      r := c.(env := c.env + [EnvVar(name, value, "")]);
    }
  }

  /** Writes through Status.Spec, whoever else points to it. */
  method SetDefaultsForContainer(jenkins: Jenkins, index: nat)
    requires jenkins.status != null && jenkins.status.spec.master.Some?
    requires index < |jenkins.status.spec.master.value.containers|
    modifies jenkins.status
    ensures var m := old(jenkins.status.spec.master.value);
            jenkins.status.spec == old(jenkins.status.spec).(
              master := Some(m.(containers := m.containers[index := DefaultedSide(m.containers[index])])))
  {
    var actual := jenkins.status;
    var m := actual.spec.master.value;
    var c := m.containers[index];
    if c.imagePullPolicy == "" {
      c := c.(imagePullPolicy := ALWAYS);
    }
    if c.resources.Unset? {
      c := c.(resources := SIDE_RESOURCES);
    }
    actual.spec := actual.spec.(master := Some(m.(containers := m.containers[index := c])));
  }

  method DefaultSideContainers(jenkins: Jenkins)
    requires jenkins.status != null && jenkins.status.spec.master.Some?
    requires jenkins.status.spec.master.value.containers != []
    modifies jenkins.status
    ensures var m := old(jenkins.status.spec.master.value);
            jenkins.status.spec == old(jenkins.status.spec).(
              master := Some(m.(containers := [m.containers[0]] + DefaultedSides(m.containers[1..]))))
  {
    ghost var was := jenkins.status.spec;
    ghost var m := was.master.value;
    var n := |jenkins.status.spec.master.value.containers|;
    for i := 1 to n
      invariant jenkins.status == old(jenkins.status) && jenkins.status.spec.master.Some?
      invariant |jenkins.status.spec.master.value.containers| == n
      invariant jenkins.status.spec ==
                was.(master := Some(m.(containers := jenkins.status.spec.master.value.containers)))
      invariant forall k | 0 <= k < n ::
                  jenkins.status.spec.master.value.containers[k] ==
                  if 1 <= k < i then DefaultedSide(m.containers[k]) else m.containers[k]
    {
      SetDefaultsForContainer(jenkins, i);
    }
    assert jenkins.status.spec.master.value.containers == [m.containers[0]] + DefaultedSides(m.containers[1..]);
  }

  method DefaultMasterContainer(c: Container, image: string) returns (r: Container)
    ensures r == DefaultedMaster(c, image)
  {
    r := c.(image := image, imagePullPolicy := ALWAYS);
    if r.readiness.None? {
      r := r.(readiness := Some(Probe("login", "http", 30, 0, 0)));
    }
    if r.liveness.None? {
      r := r.(liveness := Some(Probe("login", "http", 80, 5, 12)));
    }
    r := SetEnvVarIfNotSet(r, JAVA_OPTS_NAME, JavaOpts());
    r := SetEnvVarIfNotSet(r, TRUST_NAME, "true");
    if r.resources.Unset? {
      r := r.(resources := MASTER_RESOURCES);
    }
  }

  method DefaultServices(s: Spec, e: Environment) returns (service: Service, jnlpService: Service)
    ensures service == DefaultedService(s.service, if e.useNodePort then "NodePort" else "ClusterIP", 8080, "web")
    ensures jnlpService == DefaultedService(s.jnlpService, "ClusterIP", 50000, "jnlp")
  {
    service, jnlpService := s.service, s.jnlpService;
    if s.service == NO_SERVICE {
      var kind := if e.useNodePort then "NodePort" else "ClusterIP";
      service := Service(kind, 8080, "web", 0, None);
    }
    if s.jnlpService == NO_SERVICE {
      jnlpService := Service("ClusterIP", 50000, "jnlp", 0, None);
    }
  }

  method DefaultCascAndRoles(s: Spec, e: Environment) returns (casc: Option<Casc>, roles: Option<seq<Rbac.RoleRef>>)
    ensures casc == if s.casc.None? then Some(Casc(true, true, true, "", [])) else s.casc
    ensures roles == if s.roles.None? && e.editRole.Some? then Some([e.editRole.value]) else s.roles
  {
    casc, roles := s.casc, s.roles;
    if casc.None? {
      casc := Some(Casc(true, true, true, "", []));
    }
    if roles.None? && e.editRole.Some? {
      roles := Some([e.editRole.value]);
    }
  }

  method GetCalculatedSpec(jenkins: Jenkins, e: Environment) returns (r: Result<SpecObject>)
    requires Stored(e)
    modifies jenkins
    ensures jenkins.status != null && fresh(jenkins.status)
    ensures match Calculated(jenkins.spec, e)
            case Ok(s) => r == Ok(jenkins.status) && jenkins.status.spec == s
            case Err(error) => r == Err(error)
    ensures MasterContainer(jenkins.spec, e).Err? ==> jenkins.status.spec == jenkins.spec
    ensures r.Err? && MasterContainer(jenkins.spec, e).Ok? ==>
              jenkins.status.spec == jenkins.spec.(master := Some(MasterWith(jenkins.spec, MasterContainer(jenkins.spec, e).value)))
  {
    var calculated := new SpecObject(jenkins.spec);
    jenkins.status := calculated;
    var found := MasterContainer(calculated.spec, e);
    if found.Err? {
      return Err(found.error);
    }
    var container := found.value;
    ghost var m := MasterWith(jenkins.spec, container);
    calculated.spec := calculated.spec.(master := Some(MasterWith(calculated.spec, container)));
    var image := MasterImage(jenkins.spec, e, container);
    if image.Err? {
      return Err(image.error);
    }
    container := DefaultMasterContainer(container, image.value);
    if |calculated.spec.master.value.basePlugins| == 0 {
      calculated.spec := calculated.spec.(master := Some(calculated.spec.master.value.(basePlugins := BASE_PLUGINS)));
    }
    var service, jnlpService := DefaultServices(jenkins.spec, e);
    calculated.spec := calculated.spec.(service := service, jnlpService := jnlpService);
    DefaultSideContainers(jenkins);
    var containers := [container] + calculated.spec.master.value.containers[1..];
    assert calculated.spec.master.value.containers[1..] == DefaultedSides(m.containers[1..]);
    calculated.spec := calculated.spec.(master := Some(calculated.spec.master.value.(containers := containers)));
    var casc, roles := DefaultCascAndRoles(jenkins.spec, e);
    calculated.spec := calculated.spec.(casc := casc, roles := roles);
    return Ok(calculated);
  }

  /** The status already holds the calculated spec when the two are compared: they never differ, and no update follows. */
  method SetDefaults(jenkins: Jenkins, e: Environment) returns (error: Option<Error>, update: bool)
    requires Stored(e)
    modifies jenkins
    ensures !update
    ensures error.None? <==> Calculated(jenkins.spec, e).Ok?
    ensures error.None? ==> jenkins.status != null && jenkins.status.spec == Calculated(jenkins.spec, e).value
  {
    var r := GetCalculatedSpec(jenkins, e);
    if r.Err? {
      return Some(r.error), false;
    }
    return None, jenkins.status.spec != r.value.spec;
  }

  // ---- what the calculation keeps ---------------------------------------------------------

  function UserContainers(s: Spec): seq<Container> {
    if s.master.None? then [] else s.master.value.containers
  }

  /** c with the fields that defaulting may change taken from d. */
  function Retaining(c: Container, d: Container): Container {
    c.(imagePullPolicy := d.imagePullPolicy, resources := d.resources)
  }

  /** env starts with what the user gave, followed by at most one entry for each of the two defaults that were missing. */
  ghost predicate Extends(env: seq<EnvVar>, given: seq<EnvVar>) {
    && given <= env && |env| <= |given| + 2
    && Sets(env, JAVA_OPTS_NAME) && Sets(env, TRUST_NAME)
    && (forall i | |given| <= i < |env| ::
          (env[i].name == JAVA_OPTS_NAME || env[i].name == TRUST_NAME) && !Sets(env[..i], env[i].name))
  }

  lemma DefaultEnvExtends(given: seq<EnvVar>)
    ensures Extends(WithEnv(WithEnv(given, JAVA_OPTS_NAME, JavaOpts()), TRUST_NAME, "true"), given)
  {
    TwoMoreExtend(given, JavaOpts(), "true");
  }

  lemma TwoMoreExtend(given: seq<EnvVar>, options: string, trust: string)
    ensures Extends(WithEnv(WithEnv(given, JAVA_OPTS_NAME, options), TRUST_NAME, trust), given)
  {
    var once := WithEnv(given, JAVA_OPTS_NAME, options);
    var twice := WithEnv(once, TRUST_NAME, trust);
    StillSets(once, twice, JAVA_OPTS_NAME);
    forall i | |given| <= i < |twice|
      ensures (twice[i].name == JAVA_OPTS_NAME || twice[i].name == TRUST_NAME) && !Sets(twice[..i], twice[i].name)
    {
      assert twice[..i] == if i < |once| then given else once;
    }
  }

  lemma StillSets(env: seq<EnvVar>, more: seq<EnvVar>, name: string)
    requires env <= more && Sets(env, name)
    ensures Sets(more, name)
  {
    var i :| 0 <= i < |env| && env[i].name == name;
    assert more[i] == env[i];
  }

  /** Outside the containers, what was set stays as it was, and configuration as code is never left open. */
  lemma KeepsWhatWasGiven(s: Spec, e: Environment)
    requires Stored(e) && Calculated(s, e).Ok?
    ensures var r := Calculated(s, e).value;
            && r.master.Some? && r.casc.Some? && (s.casc.Some? ==> r.casc == s.casc)
            && (s.roles.Some? ==> r.roles == s.roles) && r.backupVolumes == s.backupVolumes
            && (s.service != NO_SERVICE ==> r.service == s.service)
            && (s.jnlpService != NO_SERVICE ==> r.jnlpService == s.jnlpService)
            && (s.master.Some? ==> r.master.value.volumes == s.master.value.volumes)
            && (s.master.Some? && s.master.value.basePlugins != [] ==> r.master.value.basePlugins == s.master.value.basePlugins)
  {
  }

  lemma CalculatedContainers(s: Spec, e: Environment)
    requires Stored(e) && Calculated(s, e).Ok?
    ensures var ds := Calculated(s, e).value.master.value.containers;
            var c := MasterContainer(s, e);
            && c.Ok? && c.value.name == MASTER && MasterImage(s, e, c.value).Ok?
            && ds != [] && ds[0] == DefaultedMaster(c.value, MasterImage(s, e, c.value).value)
            && |ds| == (if UserContainers(s) == [] then 1 else |UserContainers(s)|)
            && forall i | 1 <= i < |ds| :: ds[i] == DefaultedSide(UserContainers(s)[i])
  {
  }

  /** Containers keep their number, their order and everything that was set; only the master's image is replaced. */
  lemma KeepsContainers(s: Spec, e: Environment)
    requires Stored(e) && Calculated(s, e).Ok?
    ensures var cs, ds := UserContainers(s), Calculated(s, e).value.master.value.containers;
            && |ds| == (if cs == [] then 1 else |cs|)
            && ds[0].name == MASTER && ds[0].imagePullPolicy == ALWAYS && ds[0].resources != Unset
            && Extends(ds[0].env, if cs == [] then [] else cs[0].env)
            && (cs != [] ==> ds[0].volumeMounts == cs[0].volumeMounts && ds[0].command == cs[0].command)
            && (forall i | 1 <= i < |cs| ::
                  && Retaining(ds[i], cs[i]) == cs[i]
                  && (cs[i].imagePullPolicy != "" ==> ds[i].imagePullPolicy == cs[i].imagePullPolicy)
                  && (cs[i].resources != Unset ==> ds[i].resources == cs[i].resources)
                  && ds[i].imagePullPolicy != "" && ds[i].resources != Unset)
  {
    CalculatedContainers(s, e);
    DefaultEnvExtends(MasterContainer(s, e).value.env);
  }

  /** Calculating again, in the same surroundings, changes nothing. */
  lemma CalculatingAgainChangesNothing(s: Spec, e: Environment)
    requires Stored(e) && Calculated(s, e).Ok?
    ensures Calculated(Calculated(s, e).value, e) == Calculated(s, e)
  {
    var c := MasterContainer(s, e).value;
    var m := MasterWith(s, c);
    var image := MasterImage(s, e, c).value;
    var d := DefaultedMaster(m.containers[0], image);
    var r := Finished(s, e, m, image);
    DefaultedMasterAgain(m.containers[0], image);
    DefaultedSidesAgain(m.containers[1..]);
    assert c.name == MASTER;
    assert r.master.value.containers[0] == d && r.master.value.containers[1..] == DefaultedSides(m.containers[1..]);
    assert MasterContainer(r, e) == Ok(d);
    assert MasterImage(r, e, d) == Ok(image);
    assert MasterWith(r, d) == r.master.value;
    FinishedAgain(s, e, m, image);
  }

  lemma FinishedAgain(s: Spec, e: Environment, m: Master, image: string)
    requires m.containers != []
    requires DefaultedMaster(DefaultedMaster(m.containers[0], image), image) == DefaultedMaster(m.containers[0], image)
    requires DefaultedSides(DefaultedSides(m.containers[1..])) == DefaultedSides(m.containers[1..])
    ensures var r := Finished(s, e, m, image); Finished(r, e, r.master.value, image) == r
  {
    var r := Finished(s, e, m, image);
    assert r.master.value.containers[1..] == DefaultedSides(m.containers[1..]);
  }

  lemma DefaultedMasterAgain(c: Container, image: string)
    ensures DefaultedMaster(DefaultedMaster(c, image), image) == DefaultedMaster(c, image)
  {
    DefaultEnvExtends(c.env);
  }

  lemma DefaultedSidesAgain(cs: seq<Container>)
    ensures DefaultedSides(DefaultedSides(cs)) == DefaultedSides(cs)
  {
  }
}
