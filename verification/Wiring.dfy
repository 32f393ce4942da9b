/** That the volumes of a pod and the mounts of its containers fit together. */
module Wiring {
  import opened Text
  import opened Defaulting
  import opened Pods
  import opened Validation
  import Programs

  predicate Resolve(mounts: seq<VolumeMount>, volumes: seq<Volume>) {
    forall i | 0 <= i < |mounts| :: Has(volumes, mounts[i].name)
  }

  predicate AllResolve(containers: seq<Container>, volumes: seq<Volume>) {
    forall i | 0 <= i < |containers| :: Resolve(containers[i].volumeMounts, volumes)
  }

  /** Every mount of every container and init container names a volume of the pod. */
  predicate Wired(d: Deployment) {
    AllResolve(d.initContainers, d.volumes) && AllResolve(d.containers, d.volumes)
  }

  lemma HasJoined(a: seq<Volume>, b: seq<Volume>, name: string)
    ensures Has(a + b, name) <==> Has(a, name) || Has(b, name)
  {
    if i :| 0 <= i < |a| && a[i].name == name {
      assert (a + b)[i].name == name;
    }
    if i :| 0 <= i < |b| && b[i].name == name {
      assert (a + b)[|a| + i].name == name;
    }
    if i :| 0 <= i < |a + b| && (a + b)[i].name == name {
      assert if i < |a| then a[i].name == name else b[i - |a|].name == name;
    }
  }

  /** Where a volume of the pod can come from. */
  lemma HasInPod(j: Instance, name: string)
    requires Built(j)
    ensures Has(BaseVolumes(j), name) <==>
              Has(FixedVolumes(j), name) || Has(BackupClaims(j.spec.backupVolumes), name) || Has(CascVolumes(j.status.casc), name)
    ensures Has(JenkinsVolumes(j), name) <==>
              Has(BaseVolumes(j), name) || Has(UserVolumes(j), name) || Has(PoolVolumes(j.spec.backupVolumes), name)
    ensures Has(BaseVolumes(j) + UserVolumes(j), name) ==> Has(JenkinsVolumes(j), name)
  {
    HasJoined(FixedVolumes(j), BackupClaims(j.spec.backupVolumes), name);
    HasJoined(FixedVolumes(j) + BackupClaims(j.spec.backupVolumes), CascVolumes(j.status.casc), name);
    HasJoined(BaseVolumes(j), UserVolumes(j), name);
    HasJoined(BaseVolumes(j) + UserVolumes(j), PoolVolumes(j.spec.backupVolumes), name);
  }

  predicate Fixed(name: string) {
    name == SCRIPTS || name == INIT_CONFIGURATION || name == PLUGIN_LIST || name == CREDENTIALS || name == HOME_VOLUME
  }

  lemma FixedNames(j: Instance, name: string)
    ensures Has(FixedVolumes(j), name) <==> Fixed(name)
  {
    var vs := FixedVolumes(j);
    assert vs[0].name == SCRIPTS && vs[1].name == INIT_CONFIGURATION && vs[2].name == PLUGIN_LIST;
    assert vs[3].name == CREDENTIALS && vs[4].name == HOME_VOLUME;
  }

  predicate InitName(configMaps: seq<string>, name: string) {
    exists i | 0 <= i < |configMaps| :: CascInit(configMaps[i]) == name
  }

  predicate CascName(casc: Option<Casc>, name: string) {
    && casc.Some? && casc.value.enabled
    && (name == CASC || (casc.value.defaultConfig && name == CASC_DEFAULT)
        || InitName(casc.value.configurations, name) || (casc.value.secret != "" && name == CASC_SECRET))
  }

  lemma CascNames(casc: Option<Casc>, name: string)
    ensures Has(CascVolumes(casc), name) <==> CascName(casc, name)
  {
    if casc.Some? && casc.value.enabled {
      var c := casc.value;
      var first := [EmptyVolume(CASC)];
      var second := if c.defaultConfig then [ConfigMapVolume(CASC_DEFAULT, DEFAULT_CONFIGURATION)] else [];
      var last := if c.secret != "" then [SecretVolume(CASC_SECRET, c.secret)] else [];
      HasJoined(first, second, name);
      HasJoined(first + second, CascInits(c.configurations), name);
      HasJoined(first + second + CascInits(c.configurations), last, name);
      InitNames(c.configurations, name);
      HasOne(EmptyVolume(CASC), name);
      HasOne(ConfigMapVolume(CASC_DEFAULT, DEFAULT_CONFIGURATION), name);
      HasOne(SecretVolume(CASC_SECRET, c.secret), name);
    }
  }

  lemma HasOne(v: Volume, name: string)
    ensures Has([v], name) <==> v.name == name
    ensures !Has([], name)
  {
    assert [v][0] == v;
  }

  lemma InitNames(configMaps: seq<string>, name: string)
    ensures Has(CascInits(configMaps), name) <==> InitName(configMaps, name)
  {
    var vs := CascInits(configMaps);
    assert forall i | 0 <= i < |configMaps| :: vs[i].name == CascInit(configMaps[i]);
  }

  lemma ClaimNames(names: seq<string>, name: string)
    ensures Has(BackupClaims(names), name) <==> name in names
  {
    var vs := BackupClaims(names);
    assert forall i | 0 <= i < |names| :: vs[i].name == names[i];
  }

  predicate PoolName(names: seq<string>, name: string) {
    exists i | 0 <= i < |names| :: Pool(names[i]) == name
  }

  lemma PoolNames(names: seq<string>, name: string)
    ensures Has(Pools(names), name) <==> PoolName(names, name)
    ensures Has(PoolVolumes(names), name) <==> PoolName(names, name) || (names != [] && name == HELPERS)
  {
    var vs := Pools(names);
    assert forall i | 0 <= i < |names| :: vs[i].name == Pool(names[i]);
    HasJoined(Pools(names), [EmptyVolume(HELPERS)], name);
    HasOne(EmptyVolume(HELPERS), name);
  }

  // ---- mounts -----------------------------------------------------------------------------

  lemma ResolveJoined(a: seq<VolumeMount>, b: seq<VolumeMount>, volumes: seq<Volume>)
    ensures Resolve(a + b, volumes) <==> Resolve(a, volumes) && Resolve(b, volumes)
  {
    if Resolve(a + b, volumes) {
      assert forall i | 0 <= i < |a| :: (a + b)[i] == a[i];
      assert forall i | 0 <= i < |b| :: (a + b)[|a| + i] == b[i];
    }
  }

  lemma AllResolveJoined(a: seq<Container>, b: seq<Container>, volumes: seq<Volume>)
    requires AllResolve(a, volumes) && AllResolve(b, volumes)
    ensures AllResolve(a + b, volumes)
  {
  }

  lemma FixedResolve(j: Instance, name: string)
    requires Built(j) && Fixed(name)
    ensures Has(JenkinsVolumes(j), name)
  {
    HasInPod(j, name);
    FixedNames(j, name);
  }

  lemma CascResolve(j: Instance, name: string)
    requires Built(j) && CascName(j.status.casc, name)
    ensures Has(JenkinsVolumes(j), name)
  {
    HasInPod(j, name);
    CascNames(j.status.casc, name);
  }

  lemma PoolMountsResolve(j: Instance, names: seq<string>)
    requires Built(j) && (forall i | 0 <= i < |names| :: names[i] in j.spec.backupVolumes)
    ensures Resolve(PoolMounts(names), JenkinsVolumes(j))
    ensures j.spec.backupVolumes != [] ==> Has(JenkinsVolumes(j), HELPERS)
  {
    HasInPod(j, HELPERS);
    PoolNames(j.spec.backupVolumes, HELPERS);
    forall i | 0 <= i < |names| ensures Has(JenkinsVolumes(j), PoolMounts(names)[i].name) {
      assert names[i] in j.spec.backupVolumes;
      PoolResolves(j, names[i]);
    }
  }

  lemma PoolResolves(j: Instance, name: string)
    requires Built(j) && name in j.spec.backupVolumes
    ensures Has(JenkinsVolumes(j), Pool(name))
  {
    IsPoolName(j.spec.backupVolumes, name);
    HasInPod(j, Pool(name));
    PoolNames(j.spec.backupVolumes, Pool(name));
  }

  lemma IsPoolName(names: seq<string>, name: string)
    requires name in names
    ensures PoolName(names, Pool(name))
  {
    var k :| 0 <= k < |names| && names[k] == name;
    assert Pool(names[k]) == Pool(name);
  }

  lemma UserMountsResolve(j: Instance, x: Context, k: nat)
    requires Built(j) && AllAcceptable(j, x) && k < |j.status.master.value.containers|
    ensures Resolve(j.status.master.value.containers[k].volumeMounts, JenkinsVolumes(j))
  {
    var mounts := j.status.master.value.containers[k].volumeMounts;
    assert Acceptable(j.status.master.value.containers[k], j, x);
    forall i | 0 <= i < |mounts| ensures Has(JenkinsVolumes(j), mounts[i].name) {
      assert Sound(mounts[i], j);
      HasInPod(j, mounts[i].name);
    }
  }

  lemma FixedMountsResolve(j: Instance)
    requires Built(j)
    ensures Resolve(FixedMounts(j), JenkinsVolumes(j))
  {
    FixedResolve(j, HOME_VOLUME);
    FixedResolve(j, SCRIPTS);
    FixedResolve(j, INIT_CONFIGURATION);
    FixedResolve(j, PLUGIN_LIST);
  }

  lemma CascMountsResolve(j: Instance)
    requires Built(j)
    ensures Resolve(CascMounts(j.status.casc), JenkinsVolumes(j))
  {
    if CascMounts(j.status.casc) != [] {
      CascResolve(j, CASC);
      if j.status.casc.value.secret != "" {
        CascResolve(j, CASC_SECRET);
      }
    }
  }

  lemma MasterResolves(j: Instance, x: Context)
    requires Built(j) && AllAcceptable(j, x)
    ensures Resolve(MasterMounts(j), JenkinsVolumes(j))
  {
    FixedMountsResolve(j);
    CascMountsResolve(j);
    UserMountsResolve(j, x, 0);
    ResolveJoined(FixedMounts(j), CascMounts(j.status.casc), JenkinsVolumes(j));
    ResolveJoined(FixedMounts(j) + CascMounts(j.status.casc), j.status.master.value.containers[0].volumeMounts, JenkinsVolumes(j));
  }

  lemma SidesResolve(j: Instance, x: Context, image: string)
    requires Built(j) && AllAcceptable(j, x)
    ensures AllResolve(SideContainers(j, image), JenkinsVolumes(j))
  {
    if j.status.casc.Some? {
      var volumes := JenkinsVolumes(j);
      var sides := j.status.master.value.containers[1..];
      forall i | 0 <= i < |sides| ensures Resolve(sides[i].volumeMounts, volumes) {
        UserMountsResolve(j, x, i + 1);
      }
      var sidecar := ConfigSidecar(j, image);
      if j.status.casc.value.enabled {
        CascResolve(j, CASC);
        FixedResolve(j, HOME_VOLUME);
        FixedResolve(j, SCRIPTS);
        assert Resolve(sidecar.volumeMounts, volumes);
        AllResolveJoined([sidecar], sides, volumes);
      }
    }
  }

  lemma BackupResolves(j: Instance, image: string)
    requires Built(j) && j.spec.backupVolumes != []
    ensures Resolve(BackupSidecar(j, image).volumeMounts, JenkinsVolumes(j))
  {
    var fixed := [Mount(HELPERS, "/jenkins-operator-scripts", false), Mount(HOME_VOLUME, HomePath(j), false)];
    PoolMountsResolve(j, j.spec.backupVolumes);
    FixedResolve(j, HOME_VOLUME);
    assert Resolve(fixed, JenkinsVolumes(j));
    ResolveJoined(fixed, PoolMounts(j.spec.backupVolumes), JenkinsVolumes(j));
  }

  lemma PluginsInitResolves(j: Instance)
    requires Built(j)
    ensures Resolve(PluginsInit(j.status).volumeMounts, JenkinsVolumes(j))
  {
    FixedResolve(j, SCRIPTS);
    FixedResolve(j, PLUGIN_LIST);
  }

  lemma ConfigInitResolves(j: Instance)
    requires Built(j) && j.status.casc.Some? && j.status.casc.value.enabled
    ensures Resolve(ConfigInitMounts(j.status.casc), JenkinsVolumes(j))
  {
    var c := j.status.casc.value;
    var volumes := JenkinsVolumes(j);
    var first := [Mount(CASC, CASC_PATH, false)];
    var second := if c.defaultConfig then [Mount(CASC_DEFAULT, "/var/jenkins/" + CASC_DEFAULT, false)] else [];
    CascResolve(j, CASC);
    if c.defaultConfig {
      CascResolve(j, CASC_DEFAULT);
    }
    var inits := CascInitMounts(c.configurations);
    forall i | 0 <= i < |inits| ensures Has(volumes, inits[i].name) {
      assert InitName(c.configurations, CascInit(c.configurations[i]));
      CascResolve(j, CascInit(c.configurations[i]));
    }
    ResolveJoined(first, second, volumes);
    ResolveJoined(first + second, inits, volumes);
  }

  lemma BackupInitResolves(j: Instance)
    requires Built(j) && j.spec.backupVolumes != [] && j.status.backupVolumes == j.spec.backupVolumes
    ensures Resolve(BackupInit(j.status).volumeMounts, JenkinsVolumes(j))
  {
    var fixed := [Mount(HELPERS, "/jenkins-operator-scripts", false)];
    PoolMountsResolve(j, j.spec.backupVolumes);
    assert Resolve(fixed, JenkinsVolumes(j));
    ResolveJoined(fixed, PoolMounts(j.spec.backupVolumes), JenkinsVolumes(j));
  }

  /**
   * If the containers of an instance pass the check, its configuration as code is not left open and the
   * two specs agree on the backup volumes, then its whole pod is wired.
   */
  lemma AcceptedInstancesAreWired(j: Instance, x: Context, proxy: seq<EnvVar>, images: Images)
    requires Built(j) && AllAcceptable(j, x)
    requires j.status.casc.Some? && j.status.backupVolumes == j.spec.backupVolumes
    ensures Wired(DeploymentOf(j, proxy, images))
  {
    var volumes := JenkinsVolumes(j);
    MasterResolves(j, x);
    SidesResolve(j, x, images.config);
    AllResolveJoined([JenkinsContainer(j, proxy)], SideContainers(j, images.config), volumes);
    PluginsInitResolves(j);
    if j.status.casc.value.enabled {
      ConfigInitResolves(j);
    }
    if j.status.backupVolumes != [] {
      BackupResolves(j, images.backup);
      BackupInitResolves(j);
      AllResolveJoined([JenkinsContainer(j, proxy)] + SideContainers(j, images.config), [BackupSidecar(j, images.backup)], volumes);
    }
  }

  /** From a user's spec to a wired pod: whatever is calculated and passes the check without a message. */
  lemma ValidSpecsBuildWiredPods(name: string, s: Spec, e: Environment, x: Context, proxy: seq<EnvVar>, images: Images)
    requires Stored(e) && Calculated(s, e).Ok?
    requires Valid(Instance(name, s, Calculated(s, e).value), x)
    ensures Wired(DeploymentOf(Instance(name, s, Calculated(s, e).value), proxy, images))
  {
    KeepsWhatWasGiven(s, e);
    AcceptedInstancesAreWired(Instance(name, s, Calculated(s, e).value), x, proxy, images);
  }

  /** Why configuration as code must not be left open: the init container would mount a volume that nobody declares. */
  lemma OpenCascDangles(j: Instance, proxy: seq<EnvVar>, images: Images)
    requires Built(j) && j.status.casc.None?
    requires !Has(UserVolumes(j), CASC) && CASC !in j.spec.backupVolumes && !PoolName(j.spec.backupVolumes, CASC)
    ensures !Wired(DeploymentOf(j, proxy, images))
  {
    HasInPod(j, CASC);
    FixedNames(j, CASC);
    ClaimNames(j.spec.backupVolumes, CASC);
    CascNames(j.status.casc, CASC);
    PoolNames(j.spec.backupVolumes, CASC);
    var init := DeploymentOf(j, proxy, images).initContainers;
    assert init[1] == ConfigInit(j.status) && init[1].volumeMounts[0].name == CASC;
  }

  /** Why the two specs must agree on the backup volumes: a volume known to the status alone is mounted but not declared. */
  lemma StaleBackupVolumeDangles(j: Instance, k: nat, proxy: seq<EnvVar>, images: Images)
    requires Built(j) && k < |j.status.backupVolumes|
    requires !Has(BaseVolumes(j), Pool(j.status.backupVolumes[k])) && !Has(UserVolumes(j), Pool(j.status.backupVolumes[k]))
    requires j.status.backupVolumes[k] !in j.spec.backupVolumes && Pool(j.status.backupVolumes[k]) != HELPERS
    ensures !Wired(DeploymentOf(j, proxy, images))
  {
    var stale := j.status.backupVolumes[k];
    HasInPod(j, Pool(stale));
    PoolNames(j.spec.backupVolumes, Pool(stale));
    forall i | 0 <= i < |j.spec.backupVolumes| ensures Pool(j.spec.backupVolumes[i]) != Pool(stale) {
      PoolInjective(j.spec.backupVolumes[i], stale);
    }
    var init := DeploymentOf(j, proxy, images).initContainers;
    var c := init[|init| - 1];
    assert c == BackupInit(j.status) && c.volumeMounts[1 + k].name == Pool(stale);
  }

  lemma PoolInjective(a: string, b: string)
    ensures Pool(a) == Pool(b) ==> a == b
  {
    assert Pool(a)[..|a|] == a && Pool(b)[..|b|] == b;
  }

  // ---- which containers there are ---------------------------------------------------------

  function Count(b: bool): nat { if b then 1 else 0 }

  function Reloads(casc: Option<Casc>): nat {
    Count(casc.Some? && casc.value.enabled && casc.value.enableAutoReload)
  }

  /** others: extra reload sidecars, the side containers cs[1..] as given but for defaults, backup sidecars. */
  predicate Arranged(others: seq<Container>, cs: seq<Container>, extra: nat, backups: nat) {
    && |others| + 1 == Count(cs == []) + |cs| + extra + backups && extra <= 1 && backups <= 1
    && (extra == 1 ==> others[0].name == "config")
    && (forall i | 1 <= i < |cs| :: Retaining(others[i - 1 + extra], cs[i]) == cs[i])
    && (backups == 1 ==> others[|others| - 1].name == "backup")
  }

  lemma LinedUp(pre: seq<Container>, cs: seq<Container>, post: seq<Container>)
    requires cs != [] && |pre| <= 1 && |post| <= 1
    requires (pre != [] ==> pre[0].name == "config") && (post != [] ==> post[0].name == "backup")
    ensures var others := (pre + cs[1..]) + post;
            Arranged(others, cs, |pre|, |post|) && forall i | 1 <= i < |cs| :: others[i - 1 + |pre|] == cs[i]
  {
    assert forall i | 1 <= i < |cs| :: cs[i] == cs[1..][i - 1];
  }

  /** The containers of a pod next to the master, by their places; the side containers are those of the calculated spec. */
  lemma ContainersAt(j: Instance, images: Images)
    requires Built(j) && j.status.casc.Some?
    ensures var cs, others, extra := j.status.master.value.containers, OtherContainers(j, images), Reloads(j.status.casc);
            && Arranged(others, cs, extra, Count(j.status.backupVolumes != []))
            && (forall i | 1 <= i < |cs| :: others[i - 1 + extra] == cs[i])
  {
    var pre, post := OthersAre(j, images);
    LinedUp(pre, j.status.master.value.containers, post);
  }

  lemma OthersAre(j: Instance, images: Images) returns (pre: seq<Container>, post: seq<Container>)
    requires Built(j) && j.status.casc.Some?
    ensures OtherContainers(j, images) == (pre + j.status.master.value.containers[1..]) + post
    ensures |pre| == Reloads(j.status.casc) && |post| == Count(j.status.backupVolumes != [])
    ensures (pre != [] ==> pre[0].name == "config") && (post != [] ==> post[0].name == "backup")
  {
    var casc := j.status.casc.value;
    pre := if casc.enabled && casc.enableAutoReload then [ConfigSidecar(j, images.config)] else [];
    post := if j.status.backupVolumes != [] then [BackupSidecar(j, images.backup)] else [];
  }

  lemma ArrangedForUser(others: seq<Container>, ks: seq<Container>, cs: seq<Container>, extra: nat, backups: nat)
    requires Arranged(others, ks, extra, backups) && ks != [] && |ks| == Count(cs == []) + |cs|
    requires forall i | 1 <= i < |ks| :: others[i - 1 + extra] == ks[i]
    requires forall i | 1 <= i < |cs| :: Retaining(ks[i], cs[i]) == cs[i]
    ensures Arranged(others, cs, extra, backups)
  {
  }

  lemma CalculatedKeeps(s: Spec, e: Environment, r: Spec)
    requires Stored(e) && Calculated(s, e) == Ok(r)
    ensures r.master.Some? && r.casc.Some? && r.backupVolumes == s.backupVolumes
    ensures var cs, ds := UserContainers(s), r.master.value.containers;
            && |ds| == Count(cs == []) + |cs| && ds[0].imagePullPolicy == ALWAYS
            && forall i | 1 <= i < |cs| :: Retaining(ds[i], cs[i]) == cs[i]
  {
    KeepsContainers(s, e);
    KeepsWhatWasGiven(s, e);
  }

  /**
   * The pod of a calculated spec runs, next to the master, the reload sidecar if asked for, then every side
   * container of the user in order and as given but for defaults, and the backup sidecar last.
   */
  lemma UserContainersReachThePod(name: string, s: Spec, e: Environment, r: Spec, images: Images)
    requires Stored(e) && Calculated(s, e) == Ok(r)
    ensures Built(Instance(name, s, r))
    ensures Arranged(OtherContainers(Instance(name, s, r), images), UserContainers(s), Reloads(r.casc), Count(s.backupVolumes != []))
  {
    CalculatedKeeps(s, e, r);
    ReachesThePod(Instance(name, s, r), UserContainers(s), images);
  }

  lemma ReachesThePod(j: Instance, cs: seq<Container>, images: Images)
    requires Built(j) && j.status.casc.Some? && |j.status.master.value.containers| == Count(cs == []) + |cs|
    requires forall i | 1 <= i < |cs| :: Retaining(j.status.master.value.containers[i], cs[i]) == cs[i]
    ensures Arranged(OtherContainers(j, images), cs, Reloads(j.status.casc), Count(j.status.backupVolumes != []))
  {
    ContainersAt(j, images);
    ArrangedForUser(OtherContainers(j, images), j.status.master.value.containers, cs, Reloads(j.status.casc),
                    Count(j.status.backupVolumes != []));
  }

  /** And the master goes first, under its name, with the image and the pull policy of the calculated spec. */
  lemma MasterGoesFirst(j: Instance, proxy: seq<EnvVar>, images: Images)
    requires Built(j)
    ensures var c, ds := j.status.master.value.containers[0], Containers(j, proxy, images);
            && |ds| == 1 + |OtherContainers(j, images)| && ds[1..] == OtherContainers(j, images)
            && ds[0].name == MASTER && ds[0].image == c.image && ds[0].imagePullPolicy == c.imagePullPolicy
  {
  }

  /** Without configuration as code nothing but the backup sidecar runs next to the master, whatever the user wants. */
  lemma OpenCascDropsSideContainers(j: Instance, images: Images)
    requires Built(j)
    ensures |OtherContainers(j, images)| == Count(j.status.backupVolumes != []) <==>
              j.status.casc.None? || (|j.status.master.value.containers| == 1 && Reloads(j.status.casc) == 0)
    ensures forall i | 0 <= i < |OtherContainers(j, images)| && j.status.casc.None? :: OtherContainers(j, images)[i].name == "backup"
  {
  }

  /** The init containers install plugins, copy configuration unless it is disabled, and prepare backups if there are volumes. */
  lemma InitContainersOf(j: Instance)
    requires Built(j)
    ensures var init := InitContainers(j.status);
            && |init| == 1 + Count(j.status.casc.None? || j.status.casc.value.enabled) + Count(j.status.backupVolumes != [])
            && init[0].name == "plugins-init"
            && (j.status.casc.None? || j.status.casc.value.enabled ==> init[1].name == "config-init")
            && (j.status.backupVolumes != [] ==> init[|init| - 1].name == "backup-init")
            && forall i | 0 <= i < |init| :: init[i].image == j.status.master.value.containers[0].image
  {
  }

  // ---- names ------------------------------------------------------------------------------

  predicate Distinct(volumes: seq<Volume>) {
    forall i, k | 0 <= i < k < |volumes| :: volumes[i].name != volumes[k].name
  }

  predicate NoRepeats(names: seq<string>) {
    forall i, k | 0 <= i < k < |names| :: names[i] != names[k]
  }

  ghost predicate Apart(a: seq<Volume>, b: seq<Volume>) {
    forall name :: !(Has(a, name) && Has(b, name))
  }

  lemma DistinctJoined(a: seq<Volume>, b: seq<Volume>)
    ensures Distinct(a + b) <==> Distinct(a) && Distinct(b) && Apart(a, b)
  {
    var c := a + b;
    assert forall i | 0 <= i < |a| :: c[i] == a[i] && Has(a, c[i].name);
    assert forall k | |a| <= k < |c| :: c[k] == b[k - |a|] && Has(b, c[k].name);
    if Distinct(c) {
      assert forall i | 0 <= i < |b| :: c[|a| + i] == b[i];
    }
  }

  lemma ClaimsDistinct(names: seq<string>)
    ensures Distinct(BackupClaims(names)) <==> NoRepeats(names)
  {
    assert forall i | 0 <= i < |names| :: BackupClaims(names)[i].name == names[i];
  }

  lemma PoolsDistinct(names: seq<string>)
    ensures Distinct(Pools(names)) <==> NoRepeats(names)
  {
    assert forall i | 0 <= i < |names| :: Pools(names)[i].name == Pool(names[i]);
    forall i, k | 0 <= i < |names| && 0 <= k < |names| ensures Pool(names[i]) == Pool(names[k]) <==> names[i] == names[k] {
      PoolInjective(names[i], names[k]);
    }
  }

  lemma InitsDistinct(names: seq<string>)
    ensures Distinct(CascInits(names)) <==> NoRepeats(names)
  {
    assert forall i | 0 <= i < |names| :: CascInits(names)[i].name == CascInit(names[i]);
    forall i, k | 0 <= i < |names| && 0 <= k < |names|
      ensures CascInit(names[i]) == CascInit(names[k]) <==> names[i] == names[k]
    {
      assert CascInit(names[i])[10..] == names[i] && CascInit(names[k])[10..] == names[k];
    }
  }

  lemma CascDistinct(c: Casc)
    requires c.enabled
    ensures Distinct(CascVolumes(Some(c))) <==> NoRepeats(c.configurations)
  {
    var first := [EmptyVolume(CASC)] + if c.defaultConfig then [ConfigMapVolume(CASC_DEFAULT, DEFAULT_CONFIGURATION)] else [];
    var last := if c.secret != "" then [SecretVolume(CASC_SECRET, c.secret)] else [];
    DistinctJoined(first, CascInits(c.configurations));
    DistinctJoined(first + CascInits(c.configurations), last);
    InitsDistinct(c.configurations);
    forall name | Has(CascInits(c.configurations), name) ensures !Has(first, name) && !Has(last, name) {
      InitNames(c.configurations, name);
      InitIsNoOther(name);
    }
    EndsDiffer(c, first, last);
  }

  lemma EndsDiffer(c: Casc, first: seq<Volume>, last: seq<Volume>)
    requires first == [EmptyVolume(CASC)] + if c.defaultConfig then [ConfigMapVolume(CASC_DEFAULT, DEFAULT_CONFIGURATION)] else []
    requires last == if c.secret != "" then [SecretVolume(CASC_SECRET, c.secret)] else []
    ensures Distinct(first) && Distinct(last)
    ensures forall name | Has(last, name) :: !Has(first, name)
  {
    OthersDiffer();
  }

  lemma InitIsNoOther(name: string)
    ensures forall x | CascInit(x) == name :: name != CASC && name != CASC_DEFAULT && name != CASC_SECRET
  {
    forall x | CascInit(x) == name ensures name != CASC && name != CASC_DEFAULT && name != CASC_SECRET {
      assert CascInit(x)[5] == 'i' && CASC[5] == 'c' && CASC_DEFAULT[5] == 'd' && CASC_SECRET[5] == 's';
    }
  }

  lemma OthersDiffer()
    ensures CASC != CASC_DEFAULT && CASC != CASC_SECRET && CASC_DEFAULT != CASC_SECRET
  {
    assert CASC[5] == 'c' && CASC_DEFAULT[5] == 'd' && CASC_SECRET[5] == 's';
  }

  lemma FixedDistinct(j: Instance)
    ensures Distinct(FixedVolumes(j))
  {
    assert SCRIPTS[0] == 's' && INIT_CONFIGURATION[0] == 'i' && PLUGIN_LIST[0] == 'b';
    assert CREDENTIALS[0] == 'o' && HOME_VOLUME[0] == 'j';
  }

  /** The operator's own names do not collide with one another, whatever their variable parts are. */
  lemma OwnNamesDiffer(j: Instance, name: string)
    ensures Fixed(name) ==> !CascName(j.status.casc, name) && name != HELPERS
    ensures CascName(j.status.casc, name) ==> name != HELPERS
  {
    if CascName(j.status.casc, name) {
      assert name[0] == 'c' by {
        assert CASC[0] == 'c' && CASC_DEFAULT[0] == 'c' && CASC_SECRET[0] == 'c';
        assert forall x :: CascInit(x)[0] == 'c';
      }
    }
    assert SCRIPTS[0] == 's' && INIT_CONFIGURATION[0] == 'i' && PLUGIN_LIST[0] == 'b';
    assert CREDENTIALS[0] == 'o' && HOME_VOLUME[0] == 'j' && HELPERS[0] == 'h';
  }

  lemma PoolsEndInL(x: string)
    ensures !Fixed(Pool(x)) && Pool(x) != HELPERS
    ensures Pool(x) != CASC && Pool(x) != CASC_DEFAULT && Pool(x) != CASC_SECRET
  {
    var last := Pool(x)[|Pool(x)| - 1];
    assert last == 'l';
    assert SCRIPTS[|SCRIPTS| - 1] == 's' && INIT_CONFIGURATION[|INIT_CONFIGURATION| - 1] == 'n';
    assert PLUGIN_LIST[|PLUGIN_LIST| - 1] == 's' && CREDENTIALS[|CREDENTIALS| - 1] == 's';
    assert HOME_VOLUME[|HOME_VOLUME| - 1] == 'e' && HELPERS[|HELPERS| - 1] == 's';
    assert CASC[|CASC| - 1] == 'g' && CASC_DEFAULT[|CASC_DEFAULT| - 1] == 'n' && CASC_SECRET[|CASC_SECRET| - 1] == 't';
  }

  predicate CascNamesSeparate(casc: Option<Casc>, backups: seq<string>) {
    casc.Some? && casc.value.enabled ==>
      && NoRepeats(casc.value.configurations)
      && forall i | 0 <= i < |casc.value.configurations| :: !PoolName(backups, CascInit(casc.value.configurations[i]))
  }

  predicate BackupNamesSeparate(casc: Option<Casc>, backups: seq<string>) {
    && NoRepeats(backups)
    && forall i | 0 <= i < |backups| ::
         !Fixed(backups[i]) && !CascName(casc, backups[i]) && backups[i] != HELPERS && !PoolName(backups, backups[i])
  }

  predicate UserNamesSeparate(users: seq<Volume>, backups: seq<string>) {
    && Distinct(users)
    && forall i | 0 <= i < |users| :: !PoolName(backups, users[i].name) && (backups != [] ==> users[i].name != HELPERS)
  }

  /** The names given by the user keep clear of one another and of the operator's. */
  predicate NamesSeparate(j: Instance)
    requires Built(j)
  {
    && BackupNamesSeparate(j.status.casc, j.spec.backupVolumes)
    && CascNamesSeparate(j.status.casc, j.spec.backupVolumes)
    && UserNamesSeparate(UserVolumes(j), j.spec.backupVolumes)
    && NoneReserved(j)
  }

  lemma BaseDistinct(j: Instance)
    ensures Distinct(BaseVolumes(j)) <==>
              && NoRepeats(j.spec.backupVolumes)
              && (forall i | 0 <= i < |j.spec.backupVolumes| ::
                    !Fixed(j.spec.backupVolumes[i]) && !CascName(j.status.casc, j.spec.backupVolumes[i]))
              && (j.status.casc.Some? && j.status.casc.value.enabled ==> NoRepeats(j.status.casc.value.configurations))
  {
    var fixed, claims, cascs := FixedVolumes(j), BackupClaims(j.spec.backupVolumes), CascVolumes(j.status.casc);
    DistinctJoined(fixed, claims);
    DistinctJoined(fixed + claims, cascs);
    FixedDistinct(j);
    ClaimsDistinct(j.spec.backupVolumes);
    if j.status.casc.Some? && j.status.casc.value.enabled {
      CascDistinct(j.status.casc.value);
    }
    FixedApart(j);
    CascApart(j);
  }

  lemma FixedApart(j: Instance)
    ensures Apart(FixedVolumes(j), BackupClaims(j.spec.backupVolumes)) <==>
              forall i | 0 <= i < |j.spec.backupVolumes| :: !Fixed(j.spec.backupVolumes[i])
  {
    forall name
      ensures Has(FixedVolumes(j), name) <==> Fixed(name)
      ensures Has(BackupClaims(j.spec.backupVolumes), name) <==> name in j.spec.backupVolumes
    {
      FixedNames(j, name);
      ClaimNames(j.spec.backupVolumes, name);
    }
  }

  lemma CascApart(j: Instance)
    ensures Apart(FixedVolumes(j) + BackupClaims(j.spec.backupVolumes), CascVolumes(j.status.casc)) <==>
              forall i | 0 <= i < |j.spec.backupVolumes| :: !CascName(j.status.casc, j.spec.backupVolumes[i])
  {
    forall name
      ensures Has(FixedVolumes(j) + BackupClaims(j.spec.backupVolumes), name) <==> Fixed(name) || name in j.spec.backupVolumes
      ensures Has(CascVolumes(j.status.casc), name) <==> CascName(j.status.casc, name)
      ensures Fixed(name) ==> !CascName(j.status.casc, name)
    {
      HasJoined(FixedVolumes(j), BackupClaims(j.spec.backupVolumes), name);
      FixedNames(j, name);
      ClaimNames(j.spec.backupVolumes, name);
      CascNames(j.status.casc, name);
      OwnNamesDiffer(j, name);
    }
  }

  lemma UsersApart(j: Instance)
    requires Built(j)
    ensures Apart(BaseVolumes(j), UserVolumes(j)) <==> NoneReserved(j)
  {
    if Apart(BaseVolumes(j), UserVolumes(j)) {
      forall u | 0 <= u < |UserVolumes(j)| ensures !Has(BaseVolumes(j), UserVolumes(j)[u].name) {
        assert Has(UserVolumes(j), UserVolumes(j)[u].name);
      }
    }
  }

  lemma PoolVolumesDistinct(names: seq<string>)
    ensures Distinct(PoolVolumes(names)) <==> NoRepeats(names)
  {
    PoolsDistinct(names);
    DistinctJoined(Pools(names), [EmptyVolume(HELPERS)]);
    HasPool(names);
  }

  lemma HasPool(names: seq<string>)
    ensures !Has(Pools(names), HELPERS)
    ensures Apart(Pools(names), [EmptyVolume(HELPERS)])
  {
    PoolNames(names, HELPERS);
    forall i | 0 <= i < |names| ensures Pool(names[i]) != HELPERS {
      PoolsEndInL(names[i]);
    }
    forall name | Has([EmptyVolume(HELPERS)], name) ensures name == HELPERS {
      HasOne(EmptyVolume(HELPERS), name);
    }
  }

  /** No volume of the operator or the user has a name of the backup pools. */
  predicate PoolsSeparate(j: Instance)
    requires Built(j)
  {
    var backups := j.spec.backupVolumes;
    && (forall i | 0 <= i < |backups| :: backups[i] != HELPERS && !PoolName(backups, backups[i]))
    && (j.status.casc.Some? && j.status.casc.value.enabled ==>
          forall i | 0 <= i < |j.status.casc.value.configurations| ::
            !PoolName(backups, CascInit(j.status.casc.value.configurations[i])))
    && (forall i | 0 <= i < |UserVolumes(j)| ::
          !PoolName(backups, UserVolumes(j)[i].name) && (backups != [] ==> UserVolumes(j)[i].name != HELPERS))
  }

  lemma PoolNameIsNew(j: Instance, name: string)
    requires Built(j) && PoolsSeparate(j) && Has(PoolVolumes(j.spec.backupVolumes), name)
    ensures !Has(BaseVolumes(j) + UserVolumes(j), name)
  {
    var backups := j.spec.backupVolumes;
    PoolNames(backups, name);
    HasJoined(BaseVolumes(j), UserVolumes(j), name);
    HasInPod(j, name);
    FixedNames(j, name);
    ClaimNames(backups, name);
    CascNames(j.status.casc, name);
    OwnNamesDiffer(j, name);
    if PoolName(backups, name) {
      var i :| 0 <= i < |backups| && Pool(backups[i]) == name;
      PoolsEndInL(backups[i]);
    }
  }

  lemma NewPoolNames(j: Instance)
    requires Built(j) && Apart(BaseVolumes(j) + UserVolumes(j), PoolVolumes(j.spec.backupVolumes))
    ensures PoolsSeparate(j)
  {
    var backups := j.spec.backupVolumes;
    forall name | PoolName(backups, name) || (backups != [] && name == HELPERS)
      ensures name !in backups && !CascName(j.status.casc, name) && !Has(UserVolumes(j), name)
    {
      PoolNames(backups, name);
      HasJoined(BaseVolumes(j), UserVolumes(j), name);
      HasInPod(j, name);
      ClaimNames(backups, name);
      CascNames(j.status.casc, name);
    }
    forall i | 0 <= i < |UserVolumes(j)| ensures Has(UserVolumes(j), UserVolumes(j)[i].name) {
    }
    if j.status.casc.Some? && j.status.casc.value.enabled {
      var names := j.status.casc.value.configurations;
      forall i | 0 <= i < |names| ensures CascName(j.status.casc, CascInit(names[i])) {
        assert InitName(names, CascInit(names[i]));
      }
    }
  }

  lemma PoolsApart(j: Instance)
    requires Built(j)
    ensures Apart(BaseVolumes(j) + UserVolumes(j), PoolVolumes(j.spec.backupVolumes)) <==> PoolsSeparate(j)
  {
    if PoolsSeparate(j) {
      forall name ensures !(Has(BaseVolumes(j) + UserVolumes(j), name) && Has(PoolVolumes(j.spec.backupVolumes), name)) {
        if Has(PoolVolumes(j.spec.backupVolumes), name) {
          PoolNameIsNew(j, name);
        }
      }
    } else if Apart(BaseVolumes(j) + UserVolumes(j), PoolVolumes(j.spec.backupVolumes)) {
      NewPoolNames(j);
    }
  }

  /** The volume names of a pod are pairwise distinct exactly when the names the user gave keep clear. */
  lemma VolumeNamesDistinctIff(j: Instance)
    requires Built(j)
    ensures Distinct(JenkinsVolumes(j)) <==> NamesSeparate(j)
  {
    DistinctJoined(BaseVolumes(j), UserVolumes(j));
    DistinctJoined(BaseVolumes(j) + UserVolumes(j), PoolVolumes(j.spec.backupVolumes));
    BaseDistinct(j);
    UsersApart(j);
    PoolVolumesDistinct(j.spec.backupVolumes);
    PoolsApart(j);
  }

  predicate EndsInPool(name: string) { HasSuffix(name, "-backup-pool") }

  /** A rule of thumb that is enough: no repeats, and none of the operator's fixed names, prefix and suffix. */
  lemma PlainNamesAreDistinct(j: Instance)
    requires Built(j) && NoneReserved(j)
    requires NoRepeats(j.spec.backupVolumes) && Distinct(UserVolumes(j))
    requires j.status.casc.Some? ==> NoRepeats(j.status.casc.value.configurations)
    requires forall i | 0 <= i < |UserVolumes(j)| :: UserVolumes(j)[i].name != HELPERS && !EndsInPool(UserVolumes(j)[i].name)
    requires forall i | 0 <= i < |j.spec.backupVolumes| ::
               var b := j.spec.backupVolumes[i]; !Fixed(b) && b != HELPERS && !("casc-" <= b) && !EndsInPool(b)
    ensures Distinct(JenkinsVolumes(j))
  {
    var backups := j.spec.backupVolumes;
    forall name | PoolName(backups, name) ensures EndsInPool(name) && !("casc-init-" <= name) {
      var i :| 0 <= i < |backups| && Pool(backups[i]) == name;
      PoolKeepsPrefix(backups[i]);
    }
    forall name | CascName(j.status.casc, name) ensures "casc-" <= name {
      CascPrefix(j.status.casc, name);
    }
    forall x ensures "casc-init-" <= CascInit(x) {
      assert CascInit(x)[..10] == "casc-init-";
    }
    VolumeNamesDistinctIff(j);
  }

  lemma PoolKeepsPrefix(b: string)
    requires !("casc-" <= b)
    ensures EndsInPool(Pool(b)) && !("casc-init-" <= Pool(b))
  {
    var pool, init := Pool(b), "casc-init-";
    assert pool[|b|..] == "-backup-pool";
    assert init[..5] == "casc-";
    if |b| < 5 {
      var k := if |b| == 4 then 5 else |b|;
      assert pool[k] != init[k];
    } else {
      assert pool[..5] == b[..5];
    }
  }

  lemma CascPrefix(casc: Option<Casc>, name: string)
    requires CascName(casc, name)
    ensures "casc-" <= name
  {
    assert CASC[..5] == "casc-" && CASC_SECRET[..5] == "casc-";
    assert CASC_DEFAULT[..5] == "casc-default-"[..5] == "casc-";
    assert forall x :: CascInit(x)[..5] == "casc-";
  }

  /** The check for reserved names misses one: with backup volumes, a user volume of this name is a duplicate. */
  lemma HelperScriptsSlipThrough(j: Instance, u: nat)
    requires Built(j) && j.spec.backupVolumes != [] && HELPERS !in j.spec.backupVolumes
    requires u < |UserVolumes(j)| && UserVolumes(j)[u].name == HELPERS
    ensures !Has(BaseVolumes(j), HELPERS) && !Distinct(JenkinsVolumes(j))
  {
    HasInPod(j, HELPERS);
    FixedNames(j, HELPERS);
    ClaimNames(j.spec.backupVolumes, HELPERS);
    CascNames(j.status.casc, HELPERS);
    OwnNamesDiffer(j, HELPERS);
    VolumeNamesDistinctIff(j);
  }

  // ---- variables --------------------------------------------------------------------------

  lemma FlagsHaveNoSpace()
    ensures Free(JAVA_FLAGS, ' ')
  {
    JvmFlagsHaveNoSpace();
    JenkinsFlagsHaveNoSpace();
    ReloadHasNoSpace();
  }

  lemma JvmFlagsHaveNoSpace()
    ensures ' ' !in UNLOCK && ' ' !in MAX_RAM && ' ' !in HEADLESS
  {
  }

  lemma JenkinsFlagsHaveNoSpace()
    ensures ' ' !in RUN_NO_WIZARD && ' ' !in CRUMBS
  {
  }

  lemma ReloadHasNoSpace()
    ensures ' ' !in RELOAD
  {
  }

  lemma {:induction false} LastIsLast(env: seq<EnvVar>)
    ensures !Sets(env, JAVA_OPTS_NAME) ==> LastJavaOpts(env) == ""
  {
    if env != [] {
      LastIsLast(env[..|env| - 1]);
      assert forall i | 0 <= i < |env| - 1 :: env[..|env| - 1][i] == env[i];
    }
  }

  lemma LastWith(env: seq<EnvVar>, name: string, value: string)
    ensures name != JAVA_OPTS_NAME ==> LastJavaOpts(WithEnv(env, name, value)) == LastJavaOpts(env)
    ensures name == JAVA_OPTS_NAME && !Sets(env, name) ==> LastJavaOpts(WithEnv(env, name, value)) == value
  {
    assert (env + [EnvVar(name, value, "")])[..|env|] == env;
  }

  /** The master of a calculated spec has the required flags unless the user set JAVA_OPTS without them. */
  lemma CalculatedFlags(s: Spec, e: Environment)
    requires Stored(e) && Calculated(s, e).Ok?
    ensures var given := MasterContainer(s, e).value.env;
            FlagsSet(Calculated(s, e).value.master.value.containers[0].env) <==>
            !Sets(given, JAVA_OPTS_NAME) || FlagsSet(given)
  {
    var given := MasterContainer(s, e).value.env;
    CalculatedContainers(s, e);
    DefaultFlags(given);
  }

  lemma DefaultFlags(given: seq<EnvVar>)
    ensures FlagsSet(WithEnv(WithEnv(given, JAVA_OPTS_NAME, JavaOpts()), TRUST_NAME, "true")) <==>
            !Sets(given, JAVA_OPTS_NAME) || FlagsSet(given)
  {
    var once := WithEnv(given, JAVA_OPTS_NAME, JavaOpts());
    assert TRUST_NAME[0] != JAVA_OPTS_NAME[0];
    LastWith(once, TRUST_NAME, "true");
    LastWith(given, JAVA_OPTS_NAME, JavaOpts());
    FlagsHaveNoSpace();
    SplitJoin(JAVA_FLAGS, ' ');
    assert JAVA_FLAGS[2] == RUN_NO_WIZARD && JAVA_FLAGS[3] == HEADLESS;
  }

  /** All values given to JENKINS_HOME in a list of variables are this one. */
  predicate HomesAre(env: seq<EnvVar>, value: string) {
    forall i | 0 <= i < |env| && env[i].name == HOME_VARIABLE :: env[i].value == value
  }

  lemma {:induction false} HomeIsFirst(env: seq<EnvVar>)
    ensures if Sets(env, HOME_VARIABLE)
            then exists i | 0 <= i < |env| :: env[i].name == HOME_VARIABLE && env[i].value == HomeIn(env)
            else HomeIn(env) == Programs.JENKINS_HOME
  {
    if env != [] {
      HomeIsFirst(env[1..]);
      if env[0].name == HOME_VARIABLE {
        assert env[0].value == HomeIn(env);
      } else if Sets(env[1..], HOME_VARIABLE) {
        var i :| 0 <= i < |env[1..]| && env[1..][i].name == HOME_VARIABLE && env[1..][i].value == HomeIn(env[1..]);
        assert env[i + 1].name == HOME_VARIABLE && env[i + 1].value == HomeIn(env);
      } else {
        assert forall i | 0 < i < |env| :: env[i] == env[1..][i - 1];
      }
    }
  }

  /**
   * The volume of JENKINS_HOME is mounted where the master's variable says, exactly if the user gives it
   * at most one value; if the user gives it none, that is where backups look for it.
   */
  lemma HomeIsWhereItIsMounted(j: Instance)
    requires Built(j)
    ensures var given := j.status.master.value.containers[0].env;
            && Sets(HomeEnv(j), HOME_VARIABLE)
            && (HomesAre(HomeEnv(j), HomePath(j)) <==> exists v :: HomesAre(given, v))
            && (!Sets(given, HOME_VARIABLE) ==> HomePath(j) == Programs.JENKINS_HOME)
  {
    var given := j.status.master.value.containers[0].env;
    HomeIsFirst(given);
    HomesOf(j, HomePath(j));
    if !Sets(given, HOME_VARIABLE) {
      assert HomesAre(given, HomePath(j));
    }
  }

  lemma HomesOf(j: Instance, v: string)
    requires Built(j)
    ensures var given := j.status.master.value.containers[0].env;
            && Sets(HomeEnv(j), HOME_VARIABLE)
            && (HomesAre(HomeEnv(j), v) <==>
                  HomesAre(given, v) && (!Sets(given, HOME_VARIABLE) ==> v == HomePath(j)))
  {
    var given := j.status.master.value.containers[0].env;
    BaseSetsNoHome(j);
    HomesJoined(BaseEnv(j), given, v);
    if !Sets(given, HOME_VARIABLE) {
      var added := [EnvVar(HOME_VARIABLE, HomePath(j), "")];
      assert added[0].name == HOME_VARIABLE;
      HomesJoined(BaseEnv(j) + given, added, v);
    } else {
      assert HomeEnv(j) == BaseEnv(j) + given;
    }
  }

  lemma HomesJoined(a: seq<EnvVar>, b: seq<EnvVar>, v: string)
    ensures Sets(a + b, HOME_VARIABLE) <==> Sets(a, HOME_VARIABLE) || Sets(b, HOME_VARIABLE)
    ensures HomesAre(a + b, v) <==> HomesAre(a, v) && HomesAre(b, v)
  {
    var env := a + b;
    assert forall i | 0 <= i < |a| :: env[i] == a[i];
    assert forall i | 0 <= i < |b| :: env[|a| + i] == b[i];
  }

  lemma BaseSetsNoHome(j: Instance)
    requires Built(j)
    ensures !Sets(BaseEnv(j), HOME_VARIABLE)
  {
    var env := BaseEnv(j);
    forall i | 0 <= i < |env| ensures env[i].name != HOME_VARIABLE {
      assert HOME_VARIABLE[0] == 'J' && |HOME_VARIABLE| == 12;
      assert |"JENKINS_SERVICE_NAME"| == 20 && |"JNLP_SERVICE_NAME"| == 17 && |"CASC_JENKINS_CONFIG"| == 19;
    }
  }
}
