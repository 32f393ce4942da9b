/**
 * The pod of a Jenkins instance, built from its spec and from the calculated spec in its status:
 * which volumes it declares and which volumes its containers mount.
 */
module Pods {
  import opened Text
  import opened Defaulting
  import Programs

  /** A Jenkins object as the builders read it: what the user wrote and what was calculated from it. */
  datatype Instance = Instance(name: string, spec: Spec, status: Spec)

  /** The containers of a calculated spec start with the master. */
  predicate Built(j: Instance) {
    j.status.master.Some? && j.status.master.value.containers != []
  }

  const SCRIPTS := "scripts"
  const INIT_CONFIGURATION := "init-configuration"
  const PLUGIN_LIST := "base-plugins"
  const CREDENTIALS := "operator-credentials"
  const HOME_VOLUME := "jenkins-home"
  const CASC := "casc-config"
  const DEFAULT_CONFIGURATION := "jenkins-default-configuration"
  const CASC_DEFAULT := "casc-default-" + DEFAULT_CONFIGURATION
  const CASC_SECRET := "casc-secret"
  const HELPERS := "helper-scripts"
  const SCRIPTS_PATH := "/var/jenkins/scripts"
  const CASC_PATH := "/var/jenkins/configuration-as-code"
  const SECRET_PATH := "/tmp/configuration-as-code-secrets"
  const HOME_VARIABLE := "JENKINS_HOME"

  function CascInit(configMap: string): string { "casc-init-" + configMap }
  function Pool(backupVolume: string): string { backupVolume + "-backup-pool" }

  // ---- volumes ----------------------------------------------------------------------------

  function ConfigMapVolume(name: string, configMap: string): Volume { Volume(name, ConfigMap(configMap), false) }
  function SecretVolume(name: string, secret: string): Volume { Volume(name, Secret(secret), false) }
  function ClaimVolume(name: string, claim: string): Volume { Volume(name, Claim(claim), false) }
  function EmptyVolume(name: string): Volume { Volume(name, EmptyDir, false) }

  function FixedVolumes(j: Instance): seq<Volume> {
    var prefix := "jenkins-" + j.name;
    [ConfigMapVolume(SCRIPTS, prefix + "-scripts"),
     ConfigMapVolume(INIT_CONFIGURATION, prefix + "-init-configuration"),
     ConfigMapVolume(PLUGIN_LIST, prefix + "-base-plugins"),
     SecretVolume(CREDENTIALS, prefix + "-credentials"),
     if j.spec.persistent then ClaimVolume(HOME_VOLUME, j.name) else EmptyVolume(HOME_VOLUME)]
  }

  function BackupClaims(names: seq<string>): seq<Volume> {
    seq(|names|, i requires 0 <= i < |names| => ClaimVolume(names[i], names[i] + "-jenkins-backup"))
  }

  function CascInits(configMaps: seq<string>): seq<Volume> {
    seq(|configMaps|, i requires 0 <= i < |configMaps| => ConfigMapVolume(CascInit(configMaps[i]), configMaps[i]))
  }

  function CascVolumes(casc: Option<Casc>): seq<Volume> {
    if casc.None? || !casc.value.enabled then []
    else
      [EmptyVolume(CASC)]
      + (if casc.value.defaultConfig then [ConfigMapVolume(CASC_DEFAULT, DEFAULT_CONFIGURATION)] else [])
      + CascInits(casc.value.configurations)
      + (if casc.value.secret != "" then [SecretVolume(CASC_SECRET, casc.value.secret)] else [])
  }

  function BaseVolumes(j: Instance): seq<Volume> {
    FixedVolumes(j) + BackupClaims(j.spec.backupVolumes) + CascVolumes(j.status.casc)
  }

  function Pools(names: seq<string>): seq<Volume> {
    seq(|names|, i requires 0 <= i < |names| => ClaimVolume(Pool(names[i]), names[i] + "-jenkins-backup"))
  }

  function PoolVolumes(names: seq<string>): seq<Volume> {
    if names == [] then [] else Pools(names) + [EmptyVolume(HELPERS)]
  }

  function JenkinsVolumes(j: Instance): seq<Volume>
    requires j.status.master.Some?
  {
    BaseVolumes(j) + j.status.master.value.volumes + PoolVolumes(j.spec.backupVolumes)
  }

  method GetJenkinsMasterPodBaseVolumes(j: Instance) returns (volumes: seq<Volume>)
    ensures volumes == BaseVolumes(j)
  {
    volumes := FixedVolumes(j);
    for i := 0 to |j.spec.backupVolumes|
      invariant volumes == FixedVolumes(j) + BackupClaims(j.spec.backupVolumes)[..i]
    {
      var name := j.spec.backupVolumes[i];
      volumes := volumes + [ClaimVolume(name, name + "-jenkins-backup")];
    }
    var casc := NewCascVolumes(j.status.casc);
    volumes := volumes + casc;
  }

  method NewCascInits(configMaps: seq<string>) returns (volumes: seq<Volume>)
    ensures volumes == CascInits(configMaps)
  {
    volumes := [];
    for i := 0 to |configMaps|
      invariant volumes == CascInits(configMaps)[..i]
    {
      volumes := volumes + [ConfigMapVolume(CascInit(configMaps[i]), configMaps[i])];
    }
  }

  method NewCascVolumes(configuration: Option<Casc>) returns (volumes: seq<Volume>)
    ensures volumes == CascVolumes(configuration)
  {
    volumes := [];
    if configuration.Some? {
      var casc := configuration.value;
      if casc.enabled {
        volumes := volumes + [EmptyVolume(CASC)];
        if casc.defaultConfig {
          volumes := volumes + [ConfigMapVolume(CASC_DEFAULT, DEFAULT_CONFIGURATION)];
        }
        var inits := NewCascInits(casc.configurations);
        volumes := volumes + inits;
        if casc.secret != "" {
          volumes := volumes + [SecretVolume(CASC_SECRET, casc.secret)];
        }
      }
    }
  }

  method GetJenkinsVolumes(j: Instance) returns (volumes: seq<Volume>)
    requires j.status.master.Some?
    ensures volumes == JenkinsVolumes(j)
  {
    volumes := GetJenkinsMasterPodBaseVolumes(j);
    volumes := volumes + j.status.master.value.volumes;
    ghost var before := volumes;
    var names := j.spec.backupVolumes;
    if |names| > 0 {
      for i := 0 to |names|
        invariant volumes == before + Pools(names)[..i]
      {
        volumes := volumes + [ClaimVolume(Pool(names[i]), names[i] + "-jenkins-backup")];
      }
      volumes := volumes + [EmptyVolume(HELPERS)];
    }
    assert volumes == before + PoolVolumes(names);
  }

  // ---- containers -------------------------------------------------------------------------

  function Mount(name: string, path: string, readOnly: bool): VolumeMount { VolumeMount(name, path, "", readOnly) }

  /** The first JENKINS_HOME of a list of variables, or the default. */
  function HomeIn(env: seq<EnvVar>): string {
    if env == [] then Programs.JENKINS_HOME else if env[0].name == HOME_VARIABLE then env[0].value else HomeIn(env[1..])
  }

  function HomePath(j: Instance): string
    requires Built(j)
  {
    HomeIn(j.status.master.value.containers[0].env)
  }

  method GetJenkinsHomePath(j: Instance) returns (path: string)
    requires Built(j)
    ensures path == HomePath(j)
  {
    var env := j.status.master.value.containers[0].env;
    for i := 0 to |env|
      invariant HomeIn(env[i..]) == HomeIn(env)
    {
      if env[i].name == HOME_VARIABLE {
        return env[i].value;
      }
      assert env[i..][1..] == env[i + 1..];
    }
    return Programs.JENKINS_HOME;
  }

  function CascMounts(casc: Option<Casc>): seq<VolumeMount> {
    if casc.None? || !casc.value.enabled then []
    else [Mount(CASC, CASC_PATH, false)] + if casc.value.secret != "" then [Mount(CASC_SECRET, SECRET_PATH, false)] else []
  }

  function FixedMounts(j: Instance): seq<VolumeMount>
    requires Built(j)
  {
    [Mount(HOME_VOLUME, HomePath(j), false), Mount(SCRIPTS, SCRIPTS_PATH, true),
     Mount(INIT_CONFIGURATION, "/var/jenkins/init-configuration", true),
     VolumeMount(PLUGIN_LIST, "/var/jenkins/base-plugins", "base-plugins", false)]
  }

  function MasterMounts(j: Instance): seq<VolumeMount>
    requires Built(j)
  {
    FixedMounts(j) + CascMounts(j.status.casc) + j.status.master.value.containers[0].volumeMounts
  }

  function BaseEnv(j: Instance): seq<EnvVar>
    requires Built(j)
  {
    var service := "jenkins-" + j.name;
    [EnvVar("POD_NAME", "", "metadata.name"), EnvVar("OPENSHIFT_ENABLE_OAUTH", "true", ""),
     EnvVar("JENKINS_SERVICE_NAME", service, ""), EnvVar("JNLP_SERVICE_NAME", service + "-jnlp", ""),
     EnvVar("OPENSHIFT_ENABLE_REDIRECT_PROMPT", "true", ""),
     EnvVar("COPY_REFERENCE_FILE_LOG", HomePath(j) + "/copy_reference_file.log", "")]
    + match j.status.casc
      case None => []
      case Some(casc) =>
        (if casc.secret != "" then [EnvVar("SECRETS", SECRET_PATH, "")] else [])
        + (if casc.enabled then [EnvVar("CASC_JENKINS_CONFIG", CASC_PATH, "")] else [])
  }

  function HomeEnv(j: Instance): seq<EnvVar>
    requires Built(j)
  {
    var given := j.status.master.value.containers[0].env;
    BaseEnv(j) + given + if Sets(given, HOME_VARIABLE) then [] else [EnvVar(HOME_VARIABLE, HomePath(j), "")]
  }

  predicate ProxyOverridden(env: seq<EnvVar>) {
    Sets(env, "http_proxy") || Sets(env, "https_proxy") || Sets(env, "no_proxy")
  }

  function NonEmpty(env: seq<EnvVar>): seq<EnvVar> {
    if env == [] then []
    else NonEmpty(env[..|env| - 1]) + if env[|env| - 1].value == "" then [] else [env[|env| - 1]]
  }

  predicate UsesProxy(j: Instance)
    requires Built(j)
  {
    j.spec.proxyEnabled && !ProxyOverridden(HomeEnv(j))
  }

  function MasterEnv(j: Instance, proxy: seq<EnvVar>): seq<EnvVar>
    requires Built(j)
  {
    HomeEnv(j) + if UsesProxy(j) then NonEmpty(proxy) else []
  }

  function JenkinsContainer(j: Instance, proxy: seq<EnvVar>): Container
    requires Built(j)
  {
    j.status.master.value.containers[0].(name := MASTER, args := [], env := MasterEnv(j, proxy), volumeMounts := MasterMounts(j))
  }

  /** A container the operator adds, by its image and its mounts. */
  function Added(name: string, image: string, policy: string, mounts: seq<VolumeMount>): Container {
    Container(name, image, policy, Unset, None, [], [], mounts, None, None)
  }

  function ConfigSidecar(j: Instance, image: string): Container
    requires Built(j)
  {
    Added("config", image, "IfNotPresent",
          [Mount(CASC, CASC_PATH, false), Mount(HOME_VOLUME, HomePath(j), true), Mount(SCRIPTS, SCRIPTS_PATH, true)])
  }

  function PoolMounts(names: seq<string>): seq<VolumeMount> {
    seq(|names|, i requires 0 <= i < |names| => Mount(Pool(names[i]), Programs.BACKUPS + "/" + names[i], false))
  }

  function BackupSidecar(j: Instance, image: string): Container
    requires Built(j)
  {
    Added("backup", image, "IfNotPresent",
          [Mount(HELPERS, "/jenkins-operator-scripts", false), Mount(HOME_VOLUME, HomePath(j), false)]
          + PoolMounts(j.spec.backupVolumes))
  }

  function PluginsInit(s: Spec): Container
    requires s.master.Some? && s.master.value.containers != []
  {
    var c := s.master.value.containers[0];
    Added("plugins-init", c.image, c.imagePullPolicy,
          [Mount(SCRIPTS, SCRIPTS_PATH, false), Mount(PLUGIN_LIST, "/var/jenkins/base-plugins", false)])
  }

  function CascInitMounts(names: seq<string>): seq<VolumeMount> {
    seq(|names|, i requires 0 <= i < |names| => Mount(CascInit(names[i]), "/var/jenkins/" + CascInit(names[i]), false))
  }

  function ConfigInitMounts(casc: Option<Casc>): seq<VolumeMount> {
    [Mount(CASC, CASC_PATH, false)]
    + (if casc.None? || casc.value.defaultConfig then [Mount(CASC_DEFAULT, "/var/jenkins/" + CASC_DEFAULT, false)] else [])
    + (if casc.Some? && casc.value.enabled then CascInitMounts(casc.value.configurations) else [])
  }

  function ConfigInit(s: Spec): Container
    requires s.master.Some? && s.master.value.containers != []
  {
    var c := s.master.value.containers[0];
    Added("config-init", c.image, c.imagePullPolicy, ConfigInitMounts(s.casc))
  }

  function BackupInit(s: Spec): Container
    requires s.master.Some? && s.master.value.containers != []
  {
    var c := s.master.value.containers[0];
    Added("backup-init", c.image, c.imagePullPolicy,
          [Mount(HELPERS, "/jenkins-operator-scripts", false)] + PoolMounts(s.backupVolumes))
  }

  /** The images of the two sidecars come from the operator's environment. */
  datatype Images = Images(config: string, backup: string)

  /** Without configuration as code, the user's own side containers are left out as well. */
  function SideContainers(j: Instance, image: string): seq<Container>
    requires Built(j)
  {
    match j.status.casc
    case None => []
    case Some(casc) =>
      (if casc.enabled && casc.enableAutoReload then [ConfigSidecar(j, image)] else [])
      + j.status.master.value.containers[1..]
  }

  function OtherContainers(j: Instance, images: Images): seq<Container>
    requires Built(j)
  {
    SideContainers(j, images.config) + (if j.status.backupVolumes != [] then [BackupSidecar(j, images.backup)] else [])
  }

  function Containers(j: Instance, proxy: seq<EnvVar>, images: Images): seq<Container>
    requires Built(j)
  {
    [JenkinsContainer(j, proxy)] + OtherContainers(j, images)
  }

  function InitContainers(s: Spec): seq<Container>
    requires s.master.Some? && s.master.value.containers != []
  {
    [PluginsInit(s)]
    + (if s.casc.None? || s.casc.value.enabled then [ConfigInit(s)] else [])
    + (if s.backupVolumes != [] then [BackupInit(s)] else [])
  }

  datatype Deployment = Deployment(
    name: string, serviceAccount: string, initContainers: seq<Container>, containers: seq<Container>, volumes: seq<Volume>)

  function DeploymentOf(j: Instance, proxy: seq<EnvVar>, images: Images): Deployment
    requires Built(j)
  {
    Deployment("jenkins-" + j.name, "jenkins-" + j.name, InitContainers(j.status), Containers(j, proxy, images), JenkinsVolumes(j))
  }

  // ---- the builders in their own form -----------------------------------------------------

  /** The proxy variables of the operator, shared by all instances. */
  class ProxyConfiguration {
    var envVars: seq<EnvVar>

    constructor (envVars: seq<EnvVar>)
      ensures this.envVars == envVars
    {
      this.envVars := envVars;
    }
  }

  method DropEmptyProxyEnv(env: seq<EnvVar>) returns (r: seq<EnvVar>)
    ensures r == NonEmpty(env)
  {
    r := [];
    for i := 0 to |env|
      invariant r == NonEmpty(env[..i])
    {
      assert env[..i + 1][..i] == env[..i];
      if env[i].value == "" {
        continue;
      }
      r := r + [env[i]];
    }
    assert env[..|env|] == env;
  }

  method NewJenkinsMasterContainer(j: Instance, proxy: ProxyConfiguration) returns (c: Container)
    requires Built(j)
    modifies proxy
    ensures c == JenkinsContainer(j, old(proxy.envVars))
    ensures proxy.envVars == if UsesProxy(j) then NonEmpty(old(proxy.envVars)) else old(proxy.envVars)
  {
    var given := j.status.master.value.containers[0];
    var home := GetJenkinsHomePath(j);
    var env := BaseEnv(j) + given.env;
    var homeNotSet := IsEnvVarNotSet(given.env, HOME_VARIABLE);
    if homeNotSet {
      env := env + [EnvVar(HOME_VARIABLE, home, "")];
    }
    assert env == HomeEnv(j);
    if j.spec.proxyEnabled && !ProxyOverridden(env) {
      proxy.envVars := DropEmptyProxyEnv(proxy.envVars);
      env := env + proxy.envVars;
    }
    c := given.(name := MASTER, args := [], env := env, volumeMounts := MasterMounts(j));
  }

  method NewPoolMounts(mounts: seq<VolumeMount>, names: seq<string>) returns (r: seq<VolumeMount>)
    ensures r == mounts + PoolMounts(names)
  {
    r := mounts;
    for i := 0 to |names|
      invariant r == mounts + PoolMounts(names)[..i]
    {
      r := r + [Mount(Pool(names[i]), Programs.BACKUPS + "/" + names[i], false)];
    }
  }

  method NewJenkinsBackupContainer(j: Instance, image: string) returns (c: Container)
    requires Built(j)
    ensures c == BackupSidecar(j, image)
  {
    var home := GetJenkinsHomePath(j);
    var mounts := [Mount(HELPERS, "/jenkins-operator-scripts", false), Mount(HOME_VOLUME, home, false)];
    mounts := NewPoolMounts(mounts, j.spec.backupVolumes);
    c := Added("backup", image, "IfNotPresent", mounts);
  }

  method NewJenkinsBackupInitContainer(s: Spec) returns (c: Container)
    requires s.master.Some? && s.master.value.containers != []
    ensures c == BackupInit(s)
  {
    var master := s.master.value.containers[0];
    var mounts := NewPoolMounts([Mount(HELPERS, "/jenkins-operator-scripts", false)], s.backupVolumes);
    c := Added("backup-init", master.image, master.imagePullPolicy, mounts);
  }

  method NewJenkinsConfigInitContainer(s: Spec) returns (c: Container)
    requires s.master.Some? && s.master.value.containers != []
    ensures c == ConfigInit(s)
  {
    var master := s.master.value.containers[0];
    var mounts := [Mount(CASC, CASC_PATH, false)];
    if s.casc.None? || s.casc.value.defaultConfig {
      mounts := mounts + [Mount(CASC_DEFAULT, "/var/jenkins/" + CASC_DEFAULT, false)];
    }
    ghost var before := mounts;
    if s.casc.Some? && s.casc.value.enabled {
      var names := s.casc.value.configurations;
      for i := 0 to |names|
        invariant mounts == before + CascInitMounts(names)[..i]
      {
        mounts := mounts + [Mount(CascInit(names[i]), "/var/jenkins/" + CascInit(names[i]), false)];
      }
    }
    assert mounts == ConfigInitMounts(s.casc);
    c := Added("config-init", master.image, master.imagePullPolicy, mounts);
  }

  method NewSideContainers(j: Instance, image: string) returns (containers: seq<Container>)
    requires Built(j)
    ensures containers == SideContainers(j, image)
  {
    containers := [];
    if j.status.casc.Some? {
      var casc := j.status.casc.value;
      if casc.enabled && casc.enableAutoReload {
        containers := containers + [ConfigSidecar(j, image)];
      }
      var sides := j.status.master.value.containers[1..];
      ghost var before := containers;
      for i := 0 to |sides|
        invariant containers == before + sides[..i]
      {
        containers := containers + [sides[i]];
      }
    }
  }

  method NewContainers(j: Instance, proxy: ProxyConfiguration, images: Images) returns (containers: seq<Container>)
    requires Built(j)
    modifies proxy
    ensures containers == Containers(j, old(proxy.envVars), images)
  {
    var master := NewJenkinsMasterContainer(j, proxy);
    containers := [master];
    var sides := NewSideContainers(j, images.config);
    containers := containers + sides;
    if |j.status.backupVolumes| > 0 {
      var backup := NewJenkinsBackupContainer(j, images.backup);
      containers := containers + [backup];
    }
  }

  method NewInitContainers(s: Spec) returns (containers: seq<Container>)
    requires s.master.Some? && s.master.value.containers != []
    ensures containers == InitContainers(s)
  {
    containers := [PluginsInit(s)];
    if s.casc.None? || s.casc.value.enabled {
      var config := NewJenkinsConfigInitContainer(s);
      containers := containers + [config];
    }
    if |s.backupVolumes| > 0 {
      var backup := NewJenkinsBackupInitContainer(s);
      containers := containers + [backup];
    }
  }

  method NewJenkinsDeployment(j: Instance, proxy: ProxyConfiguration, images: Images) returns (d: Deployment)
    requires Built(j)
    modifies proxy
    ensures d == DeploymentOf(j, old(proxy.envVars), images)
  {
    var init := NewInitContainers(j.status);
    var containers := NewContainers(j, proxy, images);
    var volumes := GetJenkinsVolumes(j);
    d := Deployment("jenkins-" + j.name, "jenkins-" + j.name, init, containers, volumes);
  }
}
