/**
 * The labels and selectors of the two Services of a Jenkins. Maps are references here: the labels of
 * the metadata that one pass uses for everything it creates are also the labels and the selector of a
 * Service being created, and user labels are written into them.
 */
module ServiceMerge {
  import opened Faults
  import opened Text

  type Labels = map<string, string>

  /** A Service as the API server stores it; an empty map is read back as nil. */
  datatype Stored = Stored(labels: Labels, selector: Labels)
  type Services = map<string, Stored>

  datatype Result = Done | Failed | Panicked

  function BaseLabels(jenkins: string): Labels { map["app" := "jenkins", "jenkins-cr" := jenkins] }
  function HttpName(jenkins: string): string { "jenkins-" + jenkins }
  function JnlpName(jenkins: string): string { "jenkins-" + jenkins + "-jnlp" }

  // ---- what a pass leaves behind ----------------------------------------------------------

  /** The shared labels after one Service has been ensured: a creation writes the user's labels into them. */
  function SharedAfter(shared: Labels, there: bool, user: Labels): Labels {
    if there then shared else shared + user
  }

  function ServiceAfter(shared: Labels, before: Option<Stored>, user: Labels): Stored {
    match before
    case None => Stored(shared + user, shared + user)
    case Some(s) => Stored(s.labels + user, shared)
  }

  function Lookup(services: Services, name: string): Option<Stored> {
    if name in services then Some(services[name]) else None
  }

  /** Writing user labels into the nil labels of a Service that exists panics. */
  predicate Writable(before: Option<Stored>, user: Labels) {
    before.Some? && before.value.labels == map[] ==> user == map[]
  }

  function HttpAfter(services: Services, jenkins: string, http: Labels): Stored {
    ServiceAfter(BaseLabels(jenkins), Lookup(services, HttpName(jenkins)), http)
  }

  function JnlpAfter(services: Services, jenkins: string, http: Labels, jnlp: Labels): Stored {
    ServiceAfter(SharedAfter(BaseLabels(jenkins), HttpName(jenkins) in services, http),
                 Lookup(services, JnlpName(jenkins)), jnlp)
  }

  function PassAfter(services: Services, jenkins: string, http: Labels, jnlp: Labels): Services {
    services[HttpName(jenkins) := HttpAfter(services, jenkins, http)]
            [JnlpName(jenkins) := JnlpAfter(services, jenkins, http, jnlp)]
  }

  lemma NamesDiffer(jenkins: string)
    ensures HttpName(jenkins) != JnlpName(jenkins)
  {
    assert |JnlpName(jenkins)| == |HttpName(jenkins)| + 5;
  }

  // ---- the operator in its own form -------------------------------------------------------

  /** A map of the operator, which several fields may refer to. */
  class GoMap {
    var entries: Labels

    constructor (entries: Labels)
      ensures this.entries == entries
    {
      this.entries := entries;
    }
  }

  class Service {
    var labels: GoMap?
    var selector: GoMap?

    constructor (labels: GoMap?, selector: GoMap?)
      ensures this.labels == labels && this.selector == selector
    {
      this.labels, this.selector := labels, selector;
    }

    function AsStored(): Stored
      reads this, labels, selector
    {
      Stored(if labels == null then map[] else labels.entries, if selector == null then map[] else selector.entries)
    }
  }

  class Cluster {
    var services: Services
    var calls: nat
    const fault: nat -> Fault

    constructor (services: Services, fault: nat -> Fault)
      ensures this.services == services && this.fault == fault && calls == 0
    {
      this.services, this.fault, calls := services, fault, 0;
    }

    /** None of the calls from the i-th to the one before the j-th goes wrong. */
    ghost predicate Healthy(i: nat, j: nat) {
      forall n: nat | i <= n < j :: fault(n) == NoFault
    }

    /** A copy with maps of its own; nil for a map without entries. */
    method Get(name: string) returns (ok: bool, found: Service?)
      modifies this`calls
      ensures calls == old(calls) + 1 && (ok <==> fault(old(calls)) == NoFault)
      ensures ok ==> (found == null <==> name !in services)
      ensures ok && found != null ==>
                && fresh(found) && found.AsStored() == services[name]
                && (found.labels == null <==> services[name].labels == map[])
                && (found.labels != null ==> fresh(found.labels))
    {
      ok, found := fault(calls) == NoFault, null;
      calls := calls + 1;
      if name in services {
        var s := services[name];
        var labels: GoMap?, selector: GoMap? := null, null;
        if s.labels != map[] {
          labels := new GoMap(s.labels);
        }
        if s.selector != map[] {
          selector := new GoMap(s.selector);
        }
        found := new Service(labels, selector);
      }
    }

    method Create(name: string, s: Stored) returns (ok: bool)
      modifies this
      ensures calls == old(calls) + 1
      ensures services == old(services) || services == old(services)[name := s]
      ensures ok ==> services == old(services)[name := s]
      ensures ok <==> fault(old(calls)) == NoFault && name !in old(services)
    {
      var f := fault(calls);
      calls := calls + 1;
      if f == Refused || name in services {
        return false;
      }
      services := services[name := s];
      ok := f == NoFault;
    }

    method Update(name: string, s: Stored) returns (ok: bool)
      modifies this
      ensures calls == old(calls) + 1
      ensures services == old(services) || services == old(services)[name := s]
      ensures ok ==> services == old(services)[name := s]
      ensures ok <==> fault(old(calls)) == NoFault && name in old(services)
    {
      var f := fault(calls);
      calls := calls + 1;
      if f == Refused || name !in services {
        return false;
      }
      services := services[name := s];
      ok := f == NoFault;
    }
  }

  lemma OneEntry(m: Labels, rest: Labels, key: string)
    requires key in rest
    ensures m[key := rest[key]] + (rest - {key}) == m + rest
  {
  }

  /** Write the user's labels, in whatever order, into a map. */
  method WriteLabels(m: GoMap, user: Labels)
    modifies m
    ensures m.entries == old(m.entries) + user
  {
    var rest := user;
    while rest != map[]
      invariant m.entries + rest == old(m.entries) + user
      decreases |rest|
    {
      var key :| key in rest;
      OneEntry(m.entries, rest, key);
      m.entries := m.entries[key := rest[key]];
      rest := rest - {key};
    }
  }

  /** The labels may be shared; a nil map cannot be written to. */
  method UpdateService(service: Service, user: Labels) returns (panicked: bool)
    modifies service.labels
    ensures panicked <==> service.labels == null && user != map[]
    ensures service.labels != null ==> service.labels.entries == old(service.labels.entries) + user
  {
    if service.labels == null {
      return user != map[];
    }
    WriteLabels(service.labels, user);
    return false;
  }

  /** A Service that does not exist yet: its labels and its selector are the shared map. */
  method CreateFromShared(c: Cluster, shared: GoMap, name: string, user: Labels) returns (ok: bool, service: Service)
    modifies c, shared
    ensures fresh(service) && service.labels == service.selector == shared
    ensures shared.entries == old(shared.entries) + user
    ensures c.services == old(c.services) || c.services == old(c.services)[name := Stored(shared.entries, shared.entries)]
    ensures ok ==> name in c.services
    ensures c.calls == old(c.calls) + 1 && (ok <==> c.fault(old(c.calls)) == NoFault && name !in old(c.services))
  {
    service := new Service(shared, shared);
    var _ := UpdateService(service, user);
    ok := c.Create(name, service.AsStored());
  }

  /** The selector becomes the shared map, which the labels may be too. */
  method WriteBack(c: Cluster, shared: GoMap, name: string, service: Service, user: Labels) returns (r: Result)
    requires name in c.services
    modifies c, service, service.labels
    ensures var panics := old(service.labels) == null && user != map[];
            && (r == Panicked <==> panics)
            && (panics ==> c.calls == old(c.calls) && c.services == old(c.services))
            && (!panics ==> c.calls == old(c.calls) + 1 && (r == Done <==> c.fault(old(c.calls)) == NoFault))
    ensures shared.entries == old(if service.labels == shared then shared.entries + user else shared.entries)
    ensures var after := Stored(old(if service.labels == null then map[] else service.labels.entries) + user, shared.entries);
            && (c.services == old(c.services) || c.services == old(c.services)[name := after])
            && (r == Done ==> c.services == old(c.services)[name := after])
  {
    service.selector := shared;
    var panicked := UpdateService(service, user);
    if panicked {
      return Panicked;
    }
    ghost var none: Labels := map[];
    assert none + user == user;
    var ok := c.Update(name, service.AsStored());
    r := if ok then Done else Failed;
  }

  /**
   * However the call ends, the Service is as it was or as it is meant to be, and no other is touched; the
   * shared labels have the user's added only if the Service was not there. If no request goes wrong, it
   * completes exactly if the labels can be written, and panics otherwise.
   */
  method CreateService(c: Cluster, shared: GoMap, name: string, user: Labels) returns (r: Result)
    modifies c, shared
    ensures var before, after := old(Lookup(c.services, name)), ServiceAfter(old(shared.entries), old(Lookup(c.services, name)), user);
            && (c.services == old(c.services) || c.services == old(c.services)[name := after])
            && (r == Done ==> c.services == old(c.services)[name := after]
                              && shared.entries == SharedAfter(old(shared.entries), before.Some?, user))
            && (!Writable(before, user) ==> c.services == old(c.services))
            && (r == Done <==> c.Healthy(old(c.calls), c.calls) && Writable(before, user))
            && (r == Panicked <==> c.Healthy(old(c.calls), c.calls) && !Writable(before, user))
    ensures shared.entries == old(shared.entries) || shared.entries == SharedAfter(old(shared.entries), name in old(c.services), user)
    ensures c.calls >= old(c.calls)
  {
    var ok, service := c.Get(name);
    if !ok {
      return Failed;
    }
    if service == null {
      ok, service := CreateFromShared(c, shared, name, user);
      if !ok {
        return Failed;
      }
    }
    assert (old(shared.entries) + user) + user == old(shared.entries) + user;
    r := WriteBack(c, shared, name, service, user);
  }

  /** What a pass may leave, wherever it is cut off: nothing done, the first Service done, or both. */
  ghost predicate Passes(before: Services, after: Services, p: Pass) {
    && (p.result == Done ==> after == PassAfter(before, p.jenkins, p.http, p.jnlp))
    && (|| after == before
        || after == before[HttpName(p.jenkins) := HttpAfter(before, p.jenkins, p.http)]
        || after == PassAfter(before, p.jenkins, p.http, p.jnlp))
    && (p.result == Panicked ==> !BothWritable(before, p.jenkins, p.http, p.jnlp))
    && (p.result == Done ==> BothWritable(before, p.jenkins, p.http, p.jnlp))
  }

  datatype Pass = Pass(jenkins: string, http: Labels, jnlp: Labels, result: Result)

  /** The user's labels can be written to both Services. */
  predicate BothWritable(services: Services, jenkins: string, http: Labels, jnlp: Labels) {
    Writable(Lookup(services, HttpName(jenkins)), http) && Writable(Lookup(services, JnlpName(jenkins)), jnlp)
  }

  /**
   * The part of a pass that ensures both Services, with one metadata object for both. If no request goes
   * wrong, it completes exactly if the labels can be written to both, and panics otherwise.
   */
  method EnsureServices(c: Cluster, jenkins: string, http: Labels, jnlp: Labels) returns (r: Result)
    modifies c
    ensures Passes(old(c.services), c.services, Pass(jenkins, http, jnlp, r))
    ensures c.calls >= old(c.calls)
    ensures r == Done <==> c.Healthy(old(c.calls), c.calls) && BothWritable(old(c.services), jenkins, http, jnlp)
    ensures r == Panicked <==> c.Healthy(old(c.calls), c.calls) && !BothWritable(old(c.services), jenkins, http, jnlp)
  {
    NamesDiffer(jenkins);
    ghost var before := c.services;
    var shared := new GoMap(BaseLabels(jenkins));
    r := CreateService(c, shared, HttpName(jenkins), http);
    if r != Done {
      return;
    }
    ghost var between := c.services;
    assert Lookup(between, JnlpName(jenkins)) == Lookup(before, JnlpName(jenkins));
    r := CreateService(c, shared, JnlpName(jenkins), jnlp);
  }

  // ---- selectors --------------------------------------------------------------------------

  /** The user's labels repeat labels that are there anyway. */
  predicate AddsNothing(user: Labels, labels: Labels) {
    forall k | k in user :: k in labels && labels[k] == user[k]
  }

  lemma AddsNothingIff(user: Labels, labels: Labels)
    ensures labels + user == labels <==> AddsNothing(user, labels)
  {
    if labels + user == labels {
      forall k | k in user ensures k in labels && labels[k] == user[k] {
        assert (labels + user)[k] == user[k];
      }
    }
  }

  /** A pass gives the HTTP Service the right selector exactly if it was there before or needs no labels of its own. */
  lemma HttpSelectorIff(services: Services, jenkins: string, http: Labels)
    ensures HttpAfter(services, jenkins, http).selector == BaseLabels(jenkins) <==>
            HttpName(jenkins) in services || AddsNothing(http, BaseLabels(jenkins))
  {
    AddsNothingIff(http, BaseLabels(jenkins));
  }

  /**
   * The JNLP Service also gets the labels that the creation of the other one left in the shared map: if
   * it was there before, its selector is right exactly if the other one's is; if both are created, exactly
   * if together the labels of both change nothing.
   */
  lemma JnlpSelectorIff(services: Services, jenkins: string, http: Labels, jnlp: Labels)
    ensures JnlpAfter(services, jenkins, http, jnlp).selector == BaseLabels(jenkins) <==>
            if JnlpName(jenkins) in services
            then HttpAfter(services, jenkins, http).selector == BaseLabels(jenkins)
            else if HttpName(jenkins) in services
            then AddsNothing(jnlp, BaseLabels(jenkins))
            else AddsNothing(http + jnlp, BaseLabels(jenkins))
  {
    var base := BaseLabels(jenkins);
    AddsNothingIff(jnlp, base);
    AddsNothingIff(http + jnlp, base);
    assert (base + http) + jnlp == base + (http + jnlp);
  }

  // ---- histories --------------------------------------------------------------------------

  datatype Step = Run(pass: Pass) | Edit

  /** Somebody edits Services by hand, in any way that leaves them in place. */
  ghost predicate Edited(before: Services, after: Services) {
    before.Keys <= after.Keys
  }

  /** Wherever there were labels, and on whatever is new, there are labels. */
  ghost predicate LabelsStay(before: Services, after: Services) {
    forall n | n in after && (n in before ==> before[n].labels != map[]) :: after[n].labels != map[]
  }

  ghost predicate Moves(states: seq<Services>, steps: seq<Step>, k: nat)
    requires k < |steps| && k + 1 < |states|
  {
    match steps[k]
    case Run(p) => Passes(states[k], states[k + 1], p)
    case Edit => Edited(states[k], states[k + 1])
  }

  /** The HTTP Service of the one is the JNLP Service of the other. */
  predicate Clash(j: string, k: string) {
    j == k + "-jnlp" || k == j + "-jnlp"
  }

  /**
   * Passes of one Jenkins and of any others in its namespace whose names do not clash with its own, complete
   * or not, with any user labels, and edits by hand, in any order.
   */
  ghost predicate History(states: seq<Services>, steps: seq<Step>, jenkins: string) {
    && |states| == |steps| + 1
    && (forall k | 0 <= k < |steps| && steps[k].Run? :: Compatible(steps[k].pass.jenkins, jenkins))
    && forall k: nat | k < |steps| :: Moves(states, steps, k)
  }

  predicate Compatible(j: string, k: string) {
    j == k || !Clash(j, k)
  }

  predicate RunOf(s: Step, jenkins: string) {
    s.Run? && s.pass.jenkins == jenkins
  }

  /** It is a completed pass of this Jenkins. */
  predicate Completes(s: Step, jenkins: string) {
    RunOf(s, jenkins) && s.pass.result == Done
  }

  predicate Existing(services: Services, jenkins: string) {
    HttpName(jenkins) in services && JnlpName(jenkins) in services
  }

  predicate Labelled(services: Services, jenkins: string) {
    && (HttpName(jenkins) in services ==> services[HttpName(jenkins)].labels != map[])
    && (JnlpName(jenkins) in services ==> services[JnlpName(jenkins)].labels != map[])
  }

  predicate RightSelectors(services: Services, jenkins: string) {
    && Existing(services, jenkins)
    && services[HttpName(jenkins)].selector == BaseLabels(jenkins)
    && services[JnlpName(jenkins)].selector == BaseLabels(jenkins)
  }

  lemma MoreLabels(m: Labels, user: Labels)
    requires m != map[]
    ensures m + user != map[]
  {
    var k :| k in m;
    assert k in m + user;
  }

  predicate Owned(jenkins: string, name: string) {
    name == HttpName(jenkins) || name == JnlpName(jenkins)
  }

  /** Two instances share a Service exactly if their names clash. */
  lemma SharedServicesIffClash(j: string, k: string)
    requires j != k
    ensures (exists name :: Owned(j, name) && Owned(k, name)) <==> Clash(j, k)
  {
    assert HttpName(j)[8..] == j && HttpName(k)[8..] == k;
    assert JnlpName(j)[8..] == j + "-jnlp" && JnlpName(k)[8..] == k + "-jnlp";
    assert (j + "-jnlp")[..|j + "-jnlp"| - 5] == j && (k + "-jnlp")[..|k + "-jnlp"| - 5] == k;
    if j == k + "-jnlp" {
      assert HttpName(j) == JnlpName(k);
      assert Owned(j, HttpName(j)) && Owned(k, HttpName(j));
    } else if k == j + "-jnlp" {
      assert HttpName(k) == JnlpName(j);
      assert Owned(j, HttpName(k)) && Owned(k, HttpName(k));
    }
  }

  /** A pass of another instance, however it ends, leaves the Services of this one alone. */
  lemma PassSparesOthers(before: Services, after: Services, p: Pass, jenkins: string, name: string)
    requires Passes(before, after, p) && p.jenkins != jenkins && !Clash(p.jenkins, jenkins) && Owned(jenkins, name)
    ensures Lookup(after, name) == Lookup(before, name)
  {
    SharedServicesIffClash(p.jenkins, jenkins);
    assert !Owned(p.jenkins, name);
  }

  lemma PassSparesAll(before: Services, after: Services, p: Pass, jenkins: string)
    requires Passes(before, after, p) && p.jenkins != jenkins && !Clash(p.jenkins, jenkins)
    ensures Existing(after, jenkins) <==> Existing(before, jenkins)
    ensures Labelled(after, jenkins) <==> Labelled(before, jenkins)
    ensures RightSelectors(after, jenkins) <==> RightSelectors(before, jenkins)
  {
    PassSparesOthers(before, after, p, jenkins, HttpName(jenkins));
    PassSparesOthers(before, after, p, jenkins, JnlpName(jenkins));
  }

  /** The selectors of two instances can be right at the same time exactly if their names do not clash. */
  lemma BothRightIff(j: string, k: string)
    requires j != k
    ensures (exists services :: RightSelectors(services, j) && RightSelectors(services, k)) <==> !Clash(j, k)
  {
    SharedServicesIffClash(j, k);
    if Clash(j, k) {
      var name :| Owned(j, name) && Owned(k, name);
      assert BaseLabels(j)["jenkins-cr"] == j && BaseLabels(k)["jenkins-cr"] == k;
      forall services: Services ensures !(RightSelectors(services, j) && RightSelectors(services, k)) {
        assert RightSelectors(services, j) ==> services[name].selector == BaseLabels(j);
      }
    } else {
      var services := BothRight(j, k);
    }
  }

  lemma BothRight(j: string, k: string) returns (services: Services)
    requires j != k && !Clash(j, k)
    ensures RightSelectors(services, j) && RightSelectors(services, k)
  {
    SharedServicesIffClash(j, k);
    assert forall name | Owned(j, name) :: !Owned(k, name);
    assert Owned(j, HttpName(j)) && Owned(j, JnlpName(j)) && Owned(k, HttpName(k)) && Owned(k, JnlpName(k));
    var one, other := Stored(map[], BaseLabels(j)), Stored(map[], BaseLabels(k));
    services := map[HttpName(j) := one, JnlpName(j) := one] + map[HttpName(k) := other, JnlpName(k) := other];
  }

  /** If they clash, every pass that completes for the one over existing Services takes a selector from the other. */
  lemma ClashBreaks(before: Services, after: Services, p: Pass, jenkins: string)
    requires Passes(before, after, p) && p.result == Done && Existing(before, p.jenkins)
    requires p.jenkins != jenkins && Clash(p.jenkins, jenkins)
    ensures !RightSelectors(after, jenkins)
  {
    PassKeepsSelectors(before, after, p);
    BothRightIff(p.jenkins, jenkins);
  }

  /** A pass, however it ends, leaves labels where there were some, and gives labels to what it creates. */
  lemma PassKeepsLabels(before: Services, after: Services, p: Pass)
    requires Passes(before, after, p) && Labelled(before, p.jenkins)
    ensures Labelled(after, p.jenkins) && before.Keys <= after.Keys
  {
    NamesDiffer(p.jenkins);
    var base := BaseLabels(p.jenkins);
    assert "app" in base;
    MoreLabels(base, p.http);
    MoreLabels(base, p.jnlp);
    MoreLabels(base + p.http, p.jnlp);
    if HttpName(p.jenkins) in before {
      MoreLabels(before[HttpName(p.jenkins)].labels, p.http);
    }
    if JnlpName(p.jenkins) in before {
      MoreLabels(before[JnlpName(p.jenkins)].labels, p.jnlp);
    }
  }

  lemma {:induction false} StaysInPlace(states: seq<Services>, steps: seq<Step>, jenkins: string, k: nat, m: nat)
    requires History(states, steps, jenkins) && k <= m < |states|
    ensures Existing(states[k], jenkins) ==> Existing(states[m], jenkins)
    decreases m - k
  {
    if k < m {
      StaysInPlace(states, steps, jenkins, k, m - 1);
      assert Moves(states, steps, m - 1);
      if steps[m - 1].Run? && steps[m - 1].pass.jenkins != jenkins {
        PassSparesAll(states[m - 1], states[m], steps[m - 1].pass, jenkins);
      }
    }
  }

  lemma {:induction false} StaysLabelled(states: seq<Services>, steps: seq<Step>, jenkins: string, m: nat)
    requires History(states, steps, jenkins) && m < |states| && Labelled(states[0], jenkins)
    requires forall i | 0 <= i < m && steps[i].Edit? :: LabelsStay(states[i], states[i + 1])
    ensures Labelled(states[m], jenkins)
  {
    if m > 0 {
      StaysLabelled(states, steps, jenkins, m - 1);
      assert Moves(states, steps, m - 1);
      if RunOf(steps[m - 1], jenkins) {
        PassKeepsLabels(states[m - 1], states[m], steps[m - 1].pass);
      } else if steps[m - 1].Run? {
        PassSparesAll(states[m - 1], states[m], steps[m - 1].pass, jenkins);
      } else {
        assert LabelsStay(states[m - 1], states[m]);
      }
    }
  }

  /** A pass over existing Services leaves right selectors right, even if it is cut off. */
  lemma PassKeepsSelectors(before: Services, after: Services, p: Pass)
    requires Passes(before, after, p) && Existing(before, p.jenkins)
    ensures p.result == Done || RightSelectors(before, p.jenkins) ==> RightSelectors(after, p.jenkins)
  {
    NamesDiffer(p.jenkins);
  }

  /**
   * Over any history: once both Services exist, every pass that completes leaves both selectors right,
   * whatever user labels, cut-off passes, passes of other instances and edits by hand came before; they stay
   * right through every later pass of any instance, complete or not, until the next edit.
   */
  lemma {:induction false} SelectorsAreMended(states: seq<Services>, steps: seq<Step>, jenkins: string, k: nat, m: nat, n: nat)
    requires History(states, steps, jenkins) && k <= m < n < |states|
    requires Existing(states[k], jenkins)
    requires Completes(steps[m], jenkins)
    requires forall i | m < i < n :: steps[i].Run?
    ensures RightSelectors(states[n], jenkins)
    decreases n
  {
    StaysInPlace(states, steps, jenkins, k, n - 1);
    assert Moves(states, steps, n - 1);
    if n > m + 1 {
      SelectorsAreMended(states, steps, jenkins, k, m, n - 1);
    }
    if RunOf(steps[n - 1], jenkins) {
      PassKeepsSelectors(states[n - 1], states[n], steps[n - 1].pass);
    } else {
      PassSparesAll(states[n - 1], states[n], steps[n - 1].pass, jenkins);
    }
  }

  /** A completed pass is what it takes for both to exist. */
  lemma CompletedPassCreates(states: seq<Services>, steps: seq<Step>, jenkins: string, k: nat)
    requires History(states, steps, jenkins) && k < |steps| && Completes(steps[k], jenkins)
    ensures Existing(states[k + 1], jenkins)
  {
    assert Moves(states, steps, k);
  }

  /** And if no Service starts without labels, and no edit takes the last one away, no pass of this Jenkins panics. */
  lemma NoPassPanics(states: seq<Services>, steps: seq<Step>, jenkins: string, k: nat)
    requires History(states, steps, jenkins) && k < |steps| && RunOf(steps[k], jenkins) && Labelled(states[0], jenkins)
    requires forall i | 0 <= i < k && steps[i].Edit? :: LabelsStay(states[i], states[i + 1])
    ensures steps[k].pass.result != Panicked
  {
    StaysLabelled(states, steps, jenkins, k);
    assert Moves(states, steps, k);
  }

  /**
   * So two completed passes are enough from any start, however many were cut off before, between and after
   * them, and whatever was edited before the second.
   */
  lemma TwoPassesAreEnough(states: seq<Services>, steps: seq<Step>, jenkins: string, k: nat, m: nat, n: nat)
    requires History(states, steps, jenkins) && k < m < n < |states|
    requires Completes(steps[k], jenkins) && Completes(steps[m], jenkins)
    requires forall i | m < i < n :: steps[i].Run?
    ensures RightSelectors(states[n], jenkins)
  {
    CompletedPassCreates(states, steps, jenkins, k);
    SelectorsAreMended(states, steps, jenkins, k + 1, m, n);
  }
}
