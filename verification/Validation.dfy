/**
 * What is checked of a calculated spec before anything is built from it. Looking up an object in the
 * cluster may fail, which ends the check without a verdict.
 */
module Validation {
  import opened Text
  import opened Defaulting
  import opened Pods
  import Plugins

  datatype Message =
    | Reserved(volume: string)
    | Unavailable(missing: Volume)
    | ImageNotSet(container: string)
    | InvalidImage(container: string)
    | PullPolicyNotSet(container: string)
    | MountPathNotSet(container: string, mount: string)
    | VolumeNotFound(container: string, mount: string)
    | PluginProblem(problem: Plugins.Message)
    | FlagNotSet(flag: string)
    | SecretWithoutConfigurations
    | ConfigurationWithoutName(index: nat)

  datatype Lookup = Found | NotFound | Failed

  /** What the check needs to know of its surroundings. */
  datatype Context = Context(
    configMaps: string -> Lookup, secrets: string -> Lookup, claims: string -> Lookup,
    defaultConfigCreated: bool, validImage: string -> bool, validUrl: string -> bool, required: seq<Plugins.Plugin>)

  predicate Has(volumes: seq<Volume>, name: string) {
    exists i | 0 <= i < |volumes| :: volumes[i].name == name
  }

  // ---- volumes ----------------------------------------------------------------------------

  function UserVolumes(j: Instance): seq<Volume>
    requires Built(j)
  {
    j.status.master.value.volumes
  }

  predicate NoneReserved(j: Instance)
    requires Built(j)
  {
    forall u | 0 <= u < |UserVolumes(j)| :: !Has(BaseVolumes(j), UserVolumes(j)[u].name)
  }

  method ValidateReservedVolumes(j: Instance) returns (messages: seq<Message>)
    requires Built(j)
    ensures forall m :: m in messages <==>
              m.Reserved? && Has(BaseVolumes(j), m.volume) && Has(UserVolumes(j), m.volume)
  {
    messages := [];
    var base := GetJenkinsMasterPodBaseVolumes(j);
    var users := j.status.master.value.volumes;
    for b := 0 to |base|
      invariant forall m :: m in messages <==> m.Reserved? && Has(base[..b], m.volume) && Has(users, m.volume)
    {
      HasNext(base, b);
      for u := 0 to |users|
        invariant forall m :: m in messages <==>
                    m.Reserved? && ((Has(base[..b], m.volume) && Has(users, m.volume))
                                    || (base[b].name == m.volume && Has(users[..u], m.volume)))
      {
        HasNext(users, u);
        if base[b].name == users[u].name {
          messages := messages + [Reserved(users[u].name)];
        }
      }
      assert users[..|users|] == users;
    }
    assert base[..|base|] == base;
  }

  lemma HasNext(volumes: seq<Volume>, k: nat)
    requires k < |volumes|
    ensures forall n :: Has(volumes[..k + 1], n) <==> Has(volumes[..k], n) || volumes[k].name == n
  {
    assert volumes[..k + 1] == volumes[..k] + [volumes[k]];
    forall n ensures Has(volumes[..k + 1], n) <==> Has(volumes[..k], n) || volumes[k].name == n {
      assert volumes[..k + 1][k] == volumes[k];
      assert forall i | 0 <= i < k :: volumes[..k + 1][i] == volumes[..k][i];
    }
  }

  /** How the lookup of what a volume refers to comes out; None if nothing is looked up. */
  function Availability(v: Volume, c: Context): Option<Lookup> {
    match v.source
    case ConfigMap(name) => if v.optional then None else Some(c.configMaps(name))
    case Secret(name) => if v.optional then None else Some(c.secrets(name))
    case Claim(name) => Some(c.claims(name))
    case _ => None
  }

  predicate NoLookupFails(volumes: seq<Volume>, c: Context) {
    forall i | 0 <= i < |volumes| :: Availability(volumes[i], c) != Some(Failed)
  }

  predicate AllAvailable(volumes: seq<Volume>, c: Context) {
    forall i | 0 <= i < |volumes| :: Availability(volumes[i], c) != Some(NotFound)
  }

  method ValidateVolumes(volumes: seq<Volume>, c: Context) returns (r: Option<seq<Message>>)
    ensures r.Some? <==> NoLookupFails(volumes, c)
    ensures r.Some? ==> forall m :: m in r.value <==>
              m.Unavailable? && m.missing in volumes && Availability(m.missing, c) == Some(NotFound)
  {
    var messages: seq<Message> := [];
    for i := 0 to |volumes|
      invariant forall k | 0 <= k < i :: Availability(volumes[k], c) != Some(Failed)
      invariant forall m :: m in messages <==>
                  m.Unavailable? && m.missing in volumes[..i] && Availability(m.missing, c) == Some(NotFound)
    {
      assert volumes[..i + 1] == volumes[..i] + [volumes[i]];
      var found := Availability(volumes[i], c);
      if found == Some(Failed) {
        return None;
      }
      if found == Some(NotFound) {
        messages := messages + [Unavailable(volumes[i])];
      }
    }
    assert volumes[..|volumes|] == volumes;
    return Some(messages);
  }

  // ---- containers -------------------------------------------------------------------------

  /** A mount is sound if it says where to and names a volume of the operator or of the user. */
  predicate Sound(m: VolumeMount, j: Instance)
    requires Built(j)
  {
    m.mountPath != "" && Has(BaseVolumes(j) + UserVolumes(j), m.name)
  }

  predicate Acceptable(c: Container, j: Instance, x: Context)
    requires Built(j)
  {
    && c.image != "" && x.validImage(c.image) && c.imagePullPolicy != ""
    && forall i | 0 <= i < |c.volumeMounts| :: Sound(c.volumeMounts[i], j)
  }

  predicate AllAcceptable(j: Instance, x: Context)
    requires Built(j)
  {
    forall i | 0 <= i < |j.status.master.value.containers| :: Acceptable(j.status.master.value.containers[i], j, x)
  }

  method ValidateContainerVolumeMounts(c: Container, j: Instance) returns (messages: seq<Message>)
    requires Built(j)
    ensures messages == [] <==> forall i | 0 <= i < |c.volumeMounts| :: Sound(c.volumeMounts[i], j)
    ensures forall n :: VolumeNotFound(c.name, n) in messages <==>
              exists i | 0 <= i < |c.volumeMounts| :: c.volumeMounts[i].name == n && !Has(BaseVolumes(j) + UserVolumes(j), n)
  {
    messages := [];
    var base := GetJenkinsMasterPodBaseVolumes(j);
    var all := base + j.status.master.value.volumes;
    for i := 0 to |c.volumeMounts|
      invariant messages == [] <==> forall k | 0 <= k < i :: Sound(c.volumeMounts[k], j)
      invariant forall n :: VolumeNotFound(c.name, n) in messages <==>
                  exists k | 0 <= k < i :: c.volumeMounts[k].name == n && !Has(all, n)
    {
      var mount := c.volumeMounts[i];
      if mount.mountPath == "" {
        messages := messages + [MountPathNotSet(c.name, mount.name)];
      }
      var found := false;
      for v := 0 to |all|
        invariant found <==> Has(all[..v], mount.name)
      {
        HasNext(all, v);
        if mount.name == all[v].name {
          found := true;
        }
      }
      assert all[..|all|] == all;
      if !found {
        messages := messages + [VolumeNotFound(c.name, mount.name)];
      }
    }
  }

  method ValidateContainer(c: Container, j: Instance, x: Context) returns (messages: seq<Message>)
    requires Built(j)
    ensures messages == [] <==> Acceptable(c, j, x)
  {
    messages := [];
    if c.image == "" {
      messages := messages + [ImageNotSet(c.name)];
    }
    if !x.validImage(c.image) {
      messages := messages + [InvalidImage(c.name)];
    }
    if c.imagePullPolicy == "" {
      messages := messages + [PullPolicyNotSet(c.name)];
    }
    var more := ValidateContainerVolumeMounts(c, j);
    messages := messages + more;
  }

  // ---- the master's variables -------------------------------------------------------------

  const REQUIRED_FLAGS := {RUN_NO_WIZARD, HEADLESS}

  /** The value of the last JAVA_OPTS; empty if there is none. */
  function LastJavaOpts(env: seq<EnvVar>): string {
    if env == [] then ""
    else if env[|env| - 1].name == JAVA_OPTS_NAME then env[|env| - 1].value
    else LastJavaOpts(env[..|env| - 1])
  }

  predicate FlagsSet(env: seq<EnvVar>) {
    forall f | f in REQUIRED_FLAGS :: f in Split(LastJavaOpts(env), ' ')
  }

  method ValidateJenkinsMasterPodEnvs(env: seq<EnvVar>) returns (messages: seq<Message>)
    ensures forall m :: m in messages <==>
              m.FlagNotSet? && m.flag in REQUIRED_FLAGS && m.flag !in Split(LastJavaOpts(env), ' ')
  {
    var opts := "";
    for i := 0 to |env|
      invariant opts == LastJavaOpts(env[..i])
    {
      assert env[..i + 1][..i] == env[..i];
      if env[i].name == JAVA_OPTS_NAME {
        opts := env[i].value;
      }
    }
    assert env[..|env|] == env;
    var flags := Split(opts, ' ');
    var missing := REQUIRED_FLAGS;
    for i := 0 to |flags|
      invariant missing == set f | f in REQUIRED_FLAGS && f !in flags[..i]
    {
      assert flags[..i + 1] == flags[..i] + [flags[i]];
      missing := missing - {flags[i]};
    }
    assert flags[..|flags|] == flags;
    messages := [];
    ghost var all := missing;
    while missing != {}
      invariant missing <= all
      invariant forall m :: m in messages <==> m.FlagNotSet? && m.flag in all - missing
      decreases |missing|
    {
      var f :| f in missing;
      messages, missing := messages + [FlagNotSet(f)], missing - {f};
    }
  }

  // ---- configuration as code --------------------------------------------------------------

  predicate CascAvailable(casc: Casc, c: Context) {
    && (casc.secret != "" ==> c.secrets(casc.secret) == Found)
    && (forall i | 0 <= i < |casc.configurations| ::
          casc.configurations[i] != "" ==> c.configMaps(casc.configurations[i]) == Found)
    && (casc.defaultConfig ==>
          var found := c.configMaps(DEFAULT_CONFIGURATION);
          found == Found || (found == NotFound && c.defaultConfigCreated))
  }

  predicate CascSound(casc: Casc) {
    && (casc.secret != "" ==> casc.configurations != [])
    && forall i | 0 <= i < |casc.configurations| :: casc.configurations[i] != ""
  }

  /** A default config map that is missing is created on the way. */
  method ValidateConfiguration(casc: Option<Casc>, c: Context) returns (r: Option<seq<Message>>)
    ensures casc.None? ==> r == Some([])
    ensures casc.Some? ==> (r.Some? <==> CascAvailable(casc.value, c))
    ensures casc.Some? && r.Some? ==> (r.value == [] <==> CascSound(casc.value))
  {
    var messages: seq<Message> := [];
    if casc.None? {
      return Some(messages);
    }
    var configuration := casc.value;
    if configuration.secret != "" && |configuration.configurations| == 0 {
      messages := messages + [SecretWithoutConfigurations];
    }
    if configuration.secret != "" {
      if c.secrets(configuration.secret) != Found {
        return None;
      }
    }
    ghost var before := messages;
    for i := 0 to |configuration.configurations|
      invariant forall k | 0 <= k < i ::
                  configuration.configurations[k] != "" ==> c.configMaps(configuration.configurations[k]) == Found
      invariant messages == [] <==> before == [] && forall k | 0 <= k < i :: configuration.configurations[k] != ""
    {
      if configuration.configurations[i] == "" {
        messages := messages + [ConfigurationWithoutName(i)];
        continue;
      }
      if c.configMaps(configuration.configurations[i]) != Found {
        return None;
      }
    }
    if configuration.defaultConfig {
      var found := c.configMaps(DEFAULT_CONFIGURATION);
      if found == Failed || (found == NotFound && !c.defaultConfigCreated) {
        return None;
      }
    }
    return Some(messages);
  }

  // ---- the whole check --------------------------------------------------------------------

  /** No lookup that the check makes fails. */
  ghost predicate Reachable(j: Instance, c: Context)
    requires Built(j)
  {
    && NoLookupFails(UserVolumes(j), c)
    && (j.status.casc.Some? ==> CascAvailable(j.status.casc.value, c))
  }

  ghost predicate Valid(j: Instance, c: Context)
    requires Built(j)
  {
    var m := j.status.master.value;
    && NoneReserved(j)
    && AllAvailable(m.volumes, c)
    && AllAcceptable(j, c)
    && Plugins.Coherent(c.required, m.basePlugins, c.validUrl)
    && FlagsSet(m.containers[0].env)
    && (j.status.casc.Some? ==> CascSound(j.status.casc.value))
  }

  method ValidateContainers(j: Instance, c: Context) returns (messages: seq<Message>)
    requires Built(j)
    ensures messages == [] <==> AllAcceptable(j, c)
  {
    messages := [];
    var containers := j.status.master.value.containers;
    for i := 0 to |containers|
      invariant messages == [] <==> forall k | 0 <= k < i :: Acceptable(containers[k], j, c)
    {
      var more := ValidateContainer(containers[i], j, c);
      messages := messages + more;
    }
  }

  method ValidateBasePlugins(j: Instance, c: Context) returns (messages: seq<Message>)
    requires Built(j)
    ensures messages == [] <==> Plugins.Coherent(c.required, j.status.master.value.basePlugins, c.validUrl)
  {
    var plugins := j.status.master.value.basePlugins;
    var problems := Plugins.ValidatePlugins(c.required, plugins, c.validUrl);
    messages := seq(|problems|, i requires 0 <= i < |problems| => PluginProblem(problems[i]));
  }

  /** The check comes to a verdict exactly if no lookup fails, and has no message exactly if the instance is valid. */
  method Validate(j: Instance, c: Context) returns (r: Option<seq<Message>>)
    requires Built(j)
    ensures r.Some? <==> Reachable(j, c)
    ensures r.Some? ==> (r.value == [] <==> Valid(j, c))
  {
    var messages := ValidateReservedVolumes(j);
    ghost var reserved := messages;
    var volumes := ValidateVolumes(j.status.master.value.volumes, c);
    if volumes.None? {
      return None;
    }
    var containers := ValidateContainers(j, c);
    var plugins := ValidateBasePlugins(j, c);
    var flags := ValidateJenkinsMasterPodEnvs(j.status.master.value.containers[0].env);
    var configuration := ValidateConfiguration(j.status.casc, c);
    if configuration.None? {
      return None;
    }
    messages := messages + volumes.value + containers + plugins + flags + configuration.value;
    SilentVolumes(j, c, reserved, volumes.value);
    SilentFlags(j.status.master.value.containers[0].env, flags);
    return Some(messages);
  }

  lemma SilentVolumes(j: Instance, c: Context, reserved: seq<Message>, unavailable: seq<Message>)
    requires Built(j)
    requires forall m :: m in reserved <==> m.Reserved? && Has(BaseVolumes(j), m.volume) && Has(UserVolumes(j), m.volume)
    requires forall m :: m in unavailable <==>
               m.Unavailable? && m.missing in UserVolumes(j) && Availability(m.missing, c) == Some(NotFound)
    ensures reserved == [] <==> NoneReserved(j)
    ensures unavailable == [] <==> AllAvailable(UserVolumes(j), c)
  {
    if reserved != [] {
      assert reserved[0] in reserved;
    } else {
      forall u | 0 <= u < |UserVolumes(j)| ensures !Has(BaseVolumes(j), UserVolumes(j)[u].name) {
        assert Reserved(UserVolumes(j)[u].name) !in reserved;
      }
    }
    if unavailable != [] {
      assert unavailable[0] in unavailable;
    } else {
      forall i | 0 <= i < |UserVolumes(j)| ensures Availability(UserVolumes(j)[i], c) != Some(NotFound) {
        assert Unavailable(UserVolumes(j)[i]) !in unavailable;
      }
    }
  }

  lemma SilentFlags(env: seq<EnvVar>, flags: seq<Message>)
    requires forall m :: m in flags <==>
               m.FlagNotSet? && m.flag in REQUIRED_FLAGS && m.flag !in Split(LastJavaOpts(env), ' ')
    ensures flags == [] <==> FlagsSet(env)
  {
    if flags != [] {
      assert flags[0] in flags;
    } else {
      forall f | f in REQUIRED_FLAGS ensures f in Split(LastJavaOpts(env), ' ') {
        assert FlagNotSet(f) !in flags;
      }
    }
  }
}
