/**
 * The role bindings of Jenkins instances that share a namespace. A pass creates or updates the wanted
 * bindings and then deletes every other binding whose name starts with one of the instance's prefixes.
 * Each API call may be refused, or take effect and still report an error, which ends the pass; the answer
 * to the list of bindings to delete from may be the present state or any earlier one.
 */
module Rbac {
  import opened Faults

  datatype RoleRef = RoleRef(apiGroup: string, kind: string, name: string)
  datatype Binding = Binding(role: RoleRef, serviceAccount: string)
  type Bindings = map<string, Binding>

  // ---- names ------------------------------------------------------------------------------

  function ResourceName(jenkins: string): string { "jenkins-" + jenkins }

  function TypeName(kind: string): string { if kind == "ClusterRole" then "cr" else "r" }

  function ExtraName(jenkins: string, role: RoleRef): string {
    ResourceName(jenkins) + "-" + TypeName(role.kind) + "-" + role.name
  }

  function RolePrefix(jenkins: string): string { ResourceName(jenkins) + "-r-" }
  function ClusterRolePrefix(jenkins: string): string { ResourceName(jenkins) + "-cr-" }

  /** The names under which a pass for jenkins deletes whatever is not wanted. */
  predicate Managed(jenkins: string, name: string) {
    RolePrefix(jenkins) <= name || ClusterRolePrefix(jenkins) <= name
  }

  /** The names a Jenkins instance uses: those, and that of its base binding. */
  predicate Owned(jenkins: string, name: string) {
    name == ResourceName(jenkins) || Managed(jenkins, name)
  }

  lemma ExtraIsManaged(jenkins: string, role: RoleRef)
    ensures Managed(jenkins, ExtraName(jenkins, role))
    ensures ExtraName(jenkins, RoleRef(role.apiGroup, "Role", "")) == RolePrefix(jenkins)
    ensures ExtraName(jenkins, RoleRef(role.apiGroup, "ClusterRole", "")) == ClusterRolePrefix(jenkins)
    ensures !Managed(jenkins, ResourceName(jenkins))
  {
    var base := ResourceName(jenkins);
    assert base + "-" + "r" + "-" == base + "-r-" && base + "-" + "cr" + "-" == base + "-cr-";
    assert base + "-" + "r" + "-" + "" == base + "-r-" && base + "-" + "cr" + "-" + "" == base + "-cr-";
    var name := ExtraName(jenkins, role);
    assert name[..|name| - |role.name|] == base + "-" + TypeName(role.kind) + "-";
  }

  // ---- what a pass is meant to achieve ----------------------------------------------------

  function ExtraBinding(jenkins: string, role: RoleRef): Binding {
    Binding(role, ResourceName(jenkins))
  }

  function BaseBinding(jenkins: string): Binding {
    Binding(RoleRef("rbac.authorization.k8s.io", "Role", ResourceName(jenkins)), ResourceName(jenkins))
  }

  predicate Names(jenkins: string, roles: seq<RoleRef>, name: string) {
    exists k | 0 <= k < |roles| :: ExtraName(jenkins, roles[k]) == name
  }

  /** The wanted extra bindings; of two roles with one binding name the later one counts. */
  function Wanted(jenkins: string, roles: seq<RoleRef>): (r: Bindings)
    ensures forall n | n in r :: Managed(jenkins, n)
    ensures forall n :: n in r <==> Names(jenkins, roles, n)
  {
    if roles == [] then map[]
    else
      var last := roles[|roles| - 1];
      ExtraIsManaged(jenkins, last);
      Wanted(jenkins, roles[..|roles| - 1])[ExtraName(jenkins, last) := ExtraBinding(jenkins, last)]
  }

  function Unmanaged(jenkins: string, bindings: Bindings): Bindings {
    map n | n in bindings && !Managed(jenkins, n) :: bindings[n]
  }

  /** The cluster once the extra bindings are reconciled. */
  function Converged(before: Bindings, jenkins: string, roles: seq<RoleRef>): Bindings {
    Unmanaged(jenkins, before) + Wanted(jenkins, roles)
  }

  /** What every pass keeps to, wherever it was cut off. */
  ghost predicate Confined(before: Bindings, after: Bindings, jenkins: string, roles: seq<RoleRef>) {
    && Unmanaged(jenkins, after) == Unmanaged(jenkins, before)
    && (forall n | n in before && n in Wanted(jenkins, roles) :: n in after)
    && forall n | n in after && Managed(jenkins, n) ::
         || (n in before && after[n] == before[n])
         || exists k | 0 <= k < |roles| :: ExtraName(jenkins, roles[k]) == n && after[n] == ExtraBinding(jenkins, roles[k])
  }

  /** The listed names that have to go: managed and not wanted. */
  ghost function Unwanted(listed: set<string>, jenkins: string, roles: seq<RoleRef>): set<string> {
    set n | n in listed && Managed(jenkins, n) && n !in Wanted(jenkins, roles)
  }

  ghost function Pruned(upserted: Bindings, listed: set<string>, jenkins: string, roles: seq<RoleRef>): Bindings {
    upserted - Unwanted(listed, jenkins, roles)
  }

  /** What a completed run leaves, given the bindings it saw when it listed them. */
  ghost function Left(before: Bindings, jenkins: string, roles: seq<RoleRef>, view: Bindings): Bindings {
    Pruned(before + Wanted(jenkins, roles), view.Keys, jenkins, roles)
  }

  /** Every name under the prefixes that is not wanted was seen. */
  ghost predicate Covers(view: Bindings, before: Bindings, jenkins: string, roles: seq<RoleRef>) {
    forall n | n in before && Managed(jenkins, n) && n !in Wanted(jenkins, roles) :: n in view
  }

  /** Every name that is to be deleted is there. */
  ghost predicate Present(listed: set<string>, there: Bindings, jenkins: string, roles: seq<RoleRef>) {
    Unwanted(listed, jenkins, roles) <= there.Keys
  }

  /** An update cannot change the role of a binding: the k-th role agrees with what is there and with earlier roles of its name. */
  ghost predicate SteadyAt(before: Bindings, jenkins: string, roles: seq<RoleRef>, k: nat)
    requires k < |roles|
  {
    var name := ExtraName(jenkins, roles[k]);
    && (name in before ==> before[name].role == roles[k])
    && forall j | 0 <= j < k && ExtraName(jenkins, roles[j]) == name :: roles[j] == roles[k]
  }

  ghost predicate Steady(before: Bindings, jenkins: string, roles: seq<RoleRef>, n: nat)
    requires n <= |roles|
  {
    forall k | 0 <= k < n :: SteadyAt(before, jenkins, roles, k)
  }

  /** The bindings that belong to nobody or to another instance. */
  function Others(jenkins: string, bindings: Bindings): Bindings {
    map n | n in bindings && !Owned(jenkins, n) :: bindings[n]
  }

  /** The cluster once the base binding is there. */
  function Based(before: Bindings, jenkins: string): Bindings {
    before[ResourceName(jenkins) := BaseBinding(jenkins)]
  }

  /** The cluster after a complete pass over the base binding and the extra ones. */
  function Reconciled(before: Bindings, jenkins: string, roles: seq<RoleRef>): Bindings {
    Converged(Based(before, jenkins), jenkins, roles)
  }

  ghost function LeftByPass(before: Bindings, p: Pass): Bindings {
    Left(Based(before, p.jenkins), p.jenkins, p.roles, p.view)
  }

  /** view: the bindings a complete pass saw when it listed them. */
  datatype Pass = Pass(jenkins: string, roles: seq<RoleRef>, view: Bindings, complete: bool)

  ghost predicate Passed(before: Bindings, after: Bindings, p: Pass) {
    && Others(p.jenkins, after) == Others(p.jenkins, before)
    && (p.complete ==> after == LeftByPass(before, p))
  }

  /** The pass saw the bindings as they were when it listed them. */
  ghost predicate Fresh(before: Bindings, p: Pass) {
    p.view == Based(before, p.jenkins) + Wanted(p.jenkins, p.roles)
  }

  lemma ConfinedSparesOthers(before: Bindings, after: Bindings, jenkins: string, roles: seq<RoleRef>)
    requires Confined(before, after, jenkins, roles)
    ensures Others(jenkins, after) == Others(jenkins, before)
  {
    var b, a := Unmanaged(jenkins, before), Unmanaged(jenkins, after);
    forall n | !Owned(jenkins, n)
      ensures n in before <==> n in after
      ensures n in before ==> before[n] == after[n]
    {
      assert n in before <==> n in b;
      assert n in after <==> n in a;
    }
  }

  // ---- the API server ---------------------------------------------------------------------

  datatype Reply = Done | AlreadyExists | Error

  datatype Age = Latest | Old(at: nat)

  /** The role bindings of one namespace; fault(n) is what goes wrong in the n-th call, age(n) how old its answer is. */
  class Cluster {
    var bindings: Bindings
    var past: seq<Bindings>
    var calls: nat
    const fault: nat -> Fault
    const age: nat -> Age

    constructor (bindings: Bindings, past: seq<Bindings>, fault: nat -> Fault, age: nat -> Age)
      ensures this.bindings == bindings && this.past == past && this.fault == fault && this.age == age && calls == 0
    {
      this.bindings, this.past, this.fault, this.age, calls := bindings, past, fault, age, 0;
    }

    /** Every state so far, the present one last. */
    function States(): seq<Bindings>
      reads this
    {
      past + [bindings]
    }

    /** None of the calls from the i-th to the one before the j-th goes wrong. */
    ghost predicate Healthy(i: nat, j: nat) {
      forall n: nat | i <= n < j :: fault(n) == NoFault
    }

    /** All of them are answered from the present state. */
    ghost predicate UpToDate(i: nat, j: nat) {
      forall n: nat | i <= n < j :: age(n) == Latest
    }

    /** The state now belongs to the past. */
    method Put(b: Bindings)
      modifies this`bindings, this`past
      ensures bindings == b && old(States()) <= States()
    {
      past := past + [bindings];
      bindings := b;
    }

    /** A call about some other kind of object, such as the service account or the role. */
    method Other() returns (ok: bool)
      modifies this`calls
      ensures calls == old(calls) + 1 && (ok <==> fault(old(calls)) == NoFault)
    {
      ok := fault(calls) == NoFault;
      calls := calls + 1;
    }

    method Create(name: string, b: Binding) returns (r: Reply)
      modifies this
      ensures calls == old(calls) + 1 && old(States()) <= States()
      ensures r == Error <==> fault(old(calls)) != NoFault
      ensures r == AlreadyExists ==> name in old(bindings)
      ensures r == Done ==> name !in old(bindings)
      ensures bindings == if fault(old(calls)) != Refused && name !in old(bindings)
                          then old(bindings)[name := b] else old(bindings)
    {
      var f, there := fault(calls), name in bindings;
      calls := calls + 1;
      if f != Refused && !there {
        Put(bindings[name := b]);
      }
      r := if f != NoFault then Error else if there then AlreadyExists else Done;
    }

    /** The role of a binding is immutable. */
    method Update(name: string, b: Binding) returns (ok: bool)
      modifies this
      ensures calls == old(calls) + 1 && old(States()) <= States()
      ensures var valid := name in old(bindings) && old(bindings)[name].role == b.role;
              && (ok <==> fault(old(calls)) == NoFault && valid)
              && bindings == if fault(old(calls)) != Refused && valid then old(bindings)[name := b] else old(bindings)
    {
      var f := fault(calls);
      calls := calls + 1;
      if f == Refused || name !in bindings || bindings[name].role != b.role {
        return false;
      }
      Put(bindings[name := b]);
      ok := f == NoFault;
    }

    method Delete(name: string) returns (ok: bool)
      modifies this
      ensures calls == old(calls) + 1 && old(States()) <= States()
      ensures ok <==> fault(old(calls)) == NoFault && name in old(bindings)
      ensures bindings == if fault(old(calls)) != Refused then old(bindings) - {name} else old(bindings)
    {
      var f := fault(calls);
      calls := calls + 1;
      if f == Refused || name !in bindings {
        return false;
      }
      Put(bindings - {name});
      ok := f == NoFault;
    }

    /** Every name of some state, past or present, once and in whatever order; view is that state. */
    method List() returns (ok: bool, names: seq<string>, ghost view: Bindings)
      modifies this`calls
      ensures calls == old(calls) + 1 && (ok <==> fault(old(calls)) == NoFault)
      ensures Listed(names) == view.Keys && Distinct(names)
      ensures view in States() && (age(old(calls)) == Latest ==> view == bindings)
    {
      ok, names := fault(calls) == NoFault, [];
      var seen := bindings;
      if age(calls).Old? && age(calls).at < |past| {
        seen := past[age(calls).at];
      }
      calls := calls + 1;
      var rest := seen.Keys;
      while rest != {}
        invariant forall n :: n in seen <==> n in names || n in rest
        invariant forall n | n in names :: n !in rest
        invariant Distinct(names)
        decreases |rest|
      {
        var n :| n in rest;
        names, rest := names + [n], rest - {n};
      }
      view := seen;
    }
  }

  function Listed(names: seq<string>): set<string> {
    set n | n in names
  }

  predicate Distinct(names: seq<string>) {
    forall i, j | 0 <= i < j < |names| :: names[i] != names[j]
  }

  /** Create, or update if it is there already; an existing binding keeps its role or the call fails. */
  method CreateOrUpdate(c: Cluster, name: string, b: Binding) returns (ok: bool)
    modifies c
    ensures c.calls >= old(c.calls) && old(c.States()) <= c.States()
    ensures c.bindings == old(c.bindings) || c.bindings == old(c.bindings)[name := b]
    ensures ok ==> c.bindings == old(c.bindings)[name := b]
    ensures ok <==> c.Healthy(old(c.calls), c.calls) && Agrees(old(c.bindings), name, b.role)
  {
    var r := c.Create(name, b);
    match r {
      case Done => ok := true;
      case Error => ok := false;
      case AlreadyExists => ok := c.Update(name, b);
    }
  }

  /** The binding of this name has this role, if there is one. */
  predicate Agrees(bindings: Bindings, name: string, role: RoleRef) {
    name in bindings ==> bindings[name].role == role
  }

  /** The service account, the role and the base binding. */
  method CreateRBAC(c: Cluster, jenkins: string) returns (ok: bool)
    modifies c
    ensures c.calls >= old(c.calls) && old(c.States()) <= c.States()
    ensures c.bindings == old(c.bindings) || c.bindings == Based(old(c.bindings), jenkins)
    ensures ok ==> c.bindings == Based(old(c.bindings), jenkins)
    ensures ok <==> c.Healthy(old(c.calls), c.calls)
                    && Agrees(old(c.bindings), ResourceName(jenkins), BaseBinding(jenkins).role)
  {
    ok := c.Other();
    if !ok {
      return;
    }
    ok := c.Other();
    if !ok {
      return;
    }
    var binding := Binding(RoleRef("rbac.authorization.k8s.io", "Role", ResourceName(jenkins)), ResourceName(jenkins));
    ok := CreateOrUpdate(c, ResourceName(jenkins), binding);
  }

  method IsWanted(jenkins: string, roles: seq<RoleRef>, name: string) returns (found: bool)
    ensures found <==> name in Wanted(jenkins, roles)
  {
    found := false;
    for k := 0 to |roles|
      invariant found <==> exists j | 0 <= j < k :: ExtraName(jenkins, roles[j]) == name
    {
      if name == ExtraName(jenkins, roles[k]) {
        found := true;
      }
    }
  }

  /** One round of the loop over the roles, before being the bindings it started with. */
  method UpsertRoleBinding(c: Cluster, jenkins: string, roles: seq<RoleRef>, k: nat, ghost before: Bindings) returns (ok: bool)
    requires k < |roles| && Steady(before, jenkins, roles, k) && Confined(before, c.bindings, jenkins, roles)
    requires c.bindings == before + Wanted(jenkins, roles[..k])
    modifies c
    ensures c.calls >= old(c.calls) && old(c.States()) <= c.States()
    ensures Confined(before, c.bindings, jenkins, roles)
    ensures ok ==> c.bindings == before + Wanted(jenkins, roles[..k + 1])
    ensures ok <==> c.Healthy(old(c.calls), c.calls) && SteadyAt(before, jenkins, roles, k)
  {
    UpsertIsConfined(before, c.bindings, jenkins, roles, k);
    WantedNext(before, jenkins, roles, k);
    SteadyIff(before, c.bindings, jenkins, roles, k);
    ok := CreateOrUpdate(c, ExtraName(jenkins, roles[k]), ExtraBinding(jenkins, roles[k]));
  }

  method UpsertRoleBindings(c: Cluster, jenkins: string, roles: seq<RoleRef>) returns (ok: bool)
    modifies c
    ensures c.calls >= old(c.calls) && old(c.States()) <= c.States()
    ensures Confined(old(c.bindings), c.bindings, jenkins, roles)
    ensures ok ==> c.bindings == old(c.bindings) + Wanted(jenkins, roles)
    ensures ok <==> c.Healthy(old(c.calls), c.calls) && Steady(old(c.bindings), jenkins, roles, |roles|)
  {
    ghost var before := c.bindings;
    StartsConfined(before, jenkins, roles);
    for k := 0 to |roles|
      invariant c.calls >= old(c.calls) && old(c.States()) <= c.States()
      invariant c.bindings == before + Wanted(jenkins, roles[..k]) && Steady(before, jenkins, roles, k)
      invariant c.Healthy(old(c.calls), c.calls)
      invariant Confined(before, c.bindings, jenkins, roles)
    {
      ok := UpsertRoleBinding(c, jenkins, roles, k, before);
      if !ok {
        return;
      }
    }
    ok := true;
  }

  method DeleteUnwanted(c: Cluster, names: seq<string>, jenkins: string, roles: seq<RoleRef>) returns (ok: bool)
    requires Distinct(names)
    modifies c
    ensures c.calls >= old(c.calls) && old(c.States()) <= c.States()
    ensures exists i | 0 <= i <= |names| :: c.bindings == Pruned(old(c.bindings), Listed(names[..i]), jenkins, roles)
    ensures ok ==> c.bindings == Pruned(old(c.bindings), Listed(names), jenkins, roles)
    ensures ok <==> c.Healthy(old(c.calls), c.calls) && Present(Listed(names), old(c.bindings), jenkins, roles)
  {
    ghost var before := c.bindings;
    for i := 0 to |names|
      invariant c.calls >= old(c.calls) && old(c.States()) <= c.States()
      invariant c.bindings == Pruned(before, Listed(names[..i]), jenkins, roles)
      invariant c.Healthy(old(c.calls), c.calls) && Present(Listed(names[..i]), before, jenkins, roles)
    {
      UnwantedNext(names, i, jenkins, roles);
      RemoveOneMore(before, Unwanted(Listed(names[..i]), jenkins, roles), names[i]);
      if !(RolePrefix(jenkins) <= names[i]) && !(ClusterRolePrefix(jenkins) <= names[i]) {
        continue;
      }
      var found := IsWanted(jenkins, roles, names[i]);
      if !found {
        ok := c.Delete(names[i]);
        if !ok {
          return;
        }
      }
    }
    assert names[..|names|] == names;
    ok := true;
  }

  /**
   * A run completes exactly if no call goes wrong, every role agrees with what is bound under its name, and
   * what it deletes is still there. What it leaves is given by a state of the cluster, the one it listed; if
   * its calls are answered from the present state, it leaves exactly the wanted bindings under the prefixes,
   * and whether it completes depends on the calls and the roles alone.
   */
  method EnsureExtraRBACArePresent(c: Cluster, jenkins: string, roles: seq<RoleRef>)
    returns (ok: bool, ghost view: Bindings)
    modifies c
    ensures c.calls >= old(c.calls) && old(c.States()) <= c.States() && view in c.States()
    ensures Confined(old(c.bindings), c.bindings, jenkins, roles)
    ensures ok <==> && c.Healthy(old(c.calls), c.calls) && Steady(old(c.bindings), jenkins, roles, |roles|)
                    && Present(view.Keys, old(c.bindings) + Wanted(jenkins, roles), jenkins, roles)
    ensures ok ==> c.bindings == Left(old(c.bindings), jenkins, roles, view)
    ensures c.UpToDate(old(c.calls), c.calls) ==>
              && (ok <==> c.Healthy(old(c.calls), c.calls) && Steady(old(c.bindings), jenkins, roles, |roles|))
              && (ok ==> view == old(c.bindings) + Wanted(jenkins, roles))
              && (ok ==> c.bindings == Converged(old(c.bindings), jenkins, roles))
  {
    ghost var before := c.bindings;
    view := before;
    assert view == c.States()[|c.States()| - 1];
    ok := UpsertRoleBindings(c, jenkins, roles);
    if !ok {
      return;
    }
    ghost var upserted, first := c.bindings, c.calls;
    var names;
    ok, names, view := c.List();
    if !ok {
      assert c.fault(first) != NoFault;
      return;
    }
    ok := DeleteUnwanted(c, names, jenkins, roles);
    ghost var i :| 0 <= i <= |names| && c.bindings == Pruned(upserted, Listed(names[..i]), jenkins, roles);
    PrunedIsConfined(before, upserted, Listed(names[..i]), jenkins, roles);
    if view == upserted {
      FreshListCovers(before, jenkins, roles, view);
      LeftIsConverged(before, jenkins, roles, view);
    }
  }

  /**
   * Both steps, in the order in which the resources of a deployment are ensured: what a pass is, when it
   * completes, and that a complete pass whose calls are answered from the present state is exact.
   */
  method EnsureRBAC(c: Cluster, jenkins: string, roles: seq<RoleRef>) returns (ok: bool, ghost view: Bindings)
    modifies c
    ensures c.calls >= old(c.calls) && old(c.States()) <= c.States() && view in c.States()
    ensures Passed(old(c.bindings), c.bindings, Pass(jenkins, roles, view, ok))
    ensures ok <==> && c.Healthy(old(c.calls), c.calls) && CanPass(old(c.bindings), jenkins, roles)
                    && Present(view.Keys, Based(old(c.bindings), jenkins) + Wanted(jenkins, roles), jenkins, roles)
    ensures c.UpToDate(old(c.calls), c.calls) ==>
              && (ok <==> c.Healthy(old(c.calls), c.calls) && CanPass(old(c.bindings), jenkins, roles))
              && (ok ==> Fresh(old(c.bindings), Pass(jenkins, roles, view, ok)))
              && (ok ==> c.bindings == Reconciled(old(c.bindings), jenkins, roles))
  {
    ghost var before := c.bindings;
    view := before;
    assert view == c.States()[|c.States()| - 1];
    ExtraIsManaged(jenkins, RoleRef("", "", ""));
    ok := CreateRBAC(c, jenkins);
    ghost var based := c.bindings;
    assert Others(jenkins, based) == Others(jenkins, before);
    if ok {
      ok, view := EnsureExtraRBACArePresent(c, jenkins, roles);
      ConfinedSparesOthers(based, c.bindings, jenkins, roles);
    }
  }

  /** The roles agree with the bindings that are there, so that no update has to change one. */
  ghost predicate CanPass(before: Bindings, jenkins: string, roles: seq<RoleRef>) {
    && Agrees(before, ResourceName(jenkins), BaseBinding(jenkins).role)
    && Steady(Based(before, jenkins), jenkins, roles, |roles|)
  }

  /** An upsert has the role that is bound under its name exactly if this role is as steady as the ones before. */
  lemma SteadyIff(before: Bindings, now: Bindings, jenkins: string, roles: seq<RoleRef>, k: nat)
    requires k < |roles| && now == before + Wanted(jenkins, roles[..k]) && Steady(before, jenkins, roles, k)
    ensures Agrees(now, ExtraName(jenkins, roles[k]), roles[k]) <==> SteadyAt(before, jenkins, roles, k)
  {
    if Names(jenkins, roles[..k], ExtraName(jenkins, roles[k])) {
      var last := LastBelow(jenkins, roles, k, ExtraName(jenkins, roles[k]));
      assert SteadyAt(before, jenkins, roles, last);
      if roles[last] == roles[k] {
        SteadyLike(before, jenkins, roles, k, last);
      }
    } else {
      SteadyNew(before, now, jenkins, roles, k);
    }
  }

  lemma SteadyNew(before: Bindings, now: Bindings, jenkins: string, roles: seq<RoleRef>, k: nat)
    requires k < |roles| && now == before + Wanted(jenkins, roles[..k])
    requires !Names(jenkins, roles[..k], ExtraName(jenkins, roles[k]))
    ensures Agrees(now, ExtraName(jenkins, roles[k]), roles[k]) <==> SteadyAt(before, jenkins, roles, k)
  {
    forall j | 0 <= j < k ensures ExtraName(jenkins, roles[j]) != ExtraName(jenkins, roles[k]) {
      assert roles[..k][j] == roles[j];
    }
  }

  lemma SteadyLike(before: Bindings, jenkins: string, roles: seq<RoleRef>, k: nat, last: nat)
    requires last < k < |roles| && roles[last] == roles[k] && SteadyAt(before, jenkins, roles, last)
    requires forall j | last < j < k :: ExtraName(jenkins, roles[j]) != ExtraName(jenkins, roles[k])
    ensures SteadyAt(before, jenkins, roles, k)
  {
  }

  lemma LastBelow(jenkins: string, roles: seq<RoleRef>, k: nat, name: string) returns (last: nat)
    requires k <= |roles| && Names(jenkins, roles[..k], name)
    ensures last < k && ExtraName(jenkins, roles[last]) == name
    ensures forall j | last < j < k :: ExtraName(jenkins, roles[j]) != name
    ensures Wanted(jenkins, roles[..k])[name] == ExtraBinding(jenkins, roles[last])
  {
    last := LastRole(jenkins, roles[..k], name);
    forall j | last < j < k ensures ExtraName(jenkins, roles[j]) != name {
      assert roles[..k][j] == roles[j];
    }
  }

  lemma WantedNext(before: Bindings, jenkins: string, roles: seq<RoleRef>, k: nat)
    requires k < |roles|
    ensures before + Wanted(jenkins, roles[..k + 1]) ==
            (before + Wanted(jenkins, roles[..k]))[ExtraName(jenkins, roles[k]) := ExtraBinding(jenkins, roles[k])]
  {
    assert roles[..k + 1][..k] == roles[..k];
  }

  lemma StartsConfined(before: Bindings, jenkins: string, roles: seq<RoleRef>)
    ensures Confined(before, before, jenkins, roles) && before + Wanted(jenkins, roles[..0]) == before
    ensures roles[..|roles|] == roles
  {
  }

  lemma UpsertIsConfined(before: Bindings, now: Bindings, jenkins: string, roles: seq<RoleRef>, k: nat)
    requires Confined(before, now, jenkins, roles) && k < |roles|
    ensures Confined(before, now[ExtraName(jenkins, roles[k]) := ExtraBinding(jenkins, roles[k])], jenkins, roles)
  {
    ExtraIsManaged(jenkins, roles[k]);
    UnmanagedStays(jenkins, now, ExtraName(jenkins, roles[k]), ExtraBinding(jenkins, roles[k]));
  }

  lemma UnmanagedStays(jenkins: string, now: Bindings, name: string, b: Binding)
    requires Managed(jenkins, name)
    ensures Unmanaged(jenkins, now[name := b]) == Unmanaged(jenkins, now)
  {
  }

  lemma PrunedIsConfined(before: Bindings, upserted: Bindings, listed: set<string>, jenkins: string, roles: seq<RoleRef>)
    requires Confined(before, upserted, jenkins, roles)
    ensures Confined(before, Pruned(upserted, listed, jenkins, roles), jenkins, roles)
  {
    assert Unmanaged(jenkins, Pruned(upserted, listed, jenkins, roles)) == Unmanaged(jenkins, upserted);
  }

  lemma UnwantedNext(names: seq<string>, i: nat, jenkins: string, roles: seq<RoleRef>)
    requires i < |names| && Distinct(names)
    ensures var goes := Managed(jenkins, names[i]) && names[i] !in Wanted(jenkins, roles);
            && Unwanted(Listed(names[..i + 1]), jenkins, roles) ==
                 Unwanted(Listed(names[..i]), jenkins, roles) + (if goes then {names[i]} else {})
            && names[i] !in Unwanted(Listed(names[..i]), jenkins, roles)
            && (goes ==> names[i] in Unwanted(Listed(names), jenkins, roles))
  {
    assert names[..i + 1] == names[..i] + [names[i]];
    assert Listed(names[..i + 1]) == Listed(names[..i]) + {names[i]};
    assert names[i] in Listed(names) && names[i] !in Listed(names[..i]);
  }

  lemma RemoveOneMore(b: Bindings, gone: set<string>, n: string)
    ensures b - gone - {n} == b - (gone + {n})
  {
  }

  lemma LeftAt(before: Bindings, jenkins: string, roles: seq<RoleRef>, view: Bindings, n: string)
    ensures n in Left(before, jenkins, roles, view) <==>
              n in Converged(before, jenkins, roles)
              || (n in before && Managed(jenkins, n) && n !in Wanted(jenkins, roles) && n !in view)
    ensures n in Left(before, jenkins, roles, view) && n in Converged(before, jenkins, roles) ==>
              Left(before, jenkins, roles, view)[n] == Converged(before, jenkins, roles)[n]
    ensures n in Converged(before, jenkins, roles) ==> n in Wanted(jenkins, roles) || !Managed(jenkins, n)
  {
  }

  /** A completed run is exact if and only if it saw every name that had to go. */
  lemma ExactIffListed(before: Bindings, jenkins: string, roles: seq<RoleRef>, view: Bindings)
    ensures Left(before, jenkins, roles, view) == Converged(before, jenkins, roles) <==>
            Covers(view, before, jenkins, roles)
  {
    if Covers(view, before, jenkins, roles) {
      LeftIsConverged(before, jenkins, roles, view);
    } else {
      var n :| n in before && Managed(jenkins, n) && n !in Wanted(jenkins, roles) && n !in view;
      LeftAt(before, jenkins, roles, view, n);
    }
  }

  lemma LeftIsConverged(before: Bindings, jenkins: string, roles: seq<RoleRef>, view: Bindings)
    requires Covers(view, before, jenkins, roles)
    ensures Left(before, jenkins, roles, view) == Converged(before, jenkins, roles)
  {
    var left, converged := Left(before, jenkins, roles, view), Converged(before, jenkins, roles);
    forall n
      ensures n in left <==> n in converged
      ensures n in left && n in converged ==> left[n] == converged[n]
    {
      LeftAt(before, jenkins, roles, view, n);
    }
    assert left == converged;
  }

  /** A run that lists the present state sees every name that has to go, and nothing that is no longer there. */
  lemma FreshListCovers(before: Bindings, jenkins: string, roles: seq<RoleRef>, view: Bindings)
    requires view == before + Wanted(jenkins, roles)
    ensures Covers(view, before, jenkins, roles) && Present(view.Keys, before + Wanted(jenkins, roles), jenkins, roles)
  {
  }

  // ---- convergence ------------------------------------------------------------------------

  /** What a complete pass leaves behind depends only on the bindings that are not the instance's own. */
  lemma ReconciledFromOthers(before: Bindings, jenkins: string, roles: seq<RoleRef>)
    ensures Reconciled(before, jenkins, roles) ==
            Others(jenkins, before)[ResourceName(jenkins) := BaseBinding(jenkins)] + Wanted(jenkins, roles)
  {
    ExtraIsManaged(jenkins, RoleRef("", "", ""));
  }

  ghost predicate Follows(states: seq<Bindings>, passes: seq<Pass>, k: nat)
    requires k < |passes| && k + 1 < |states|
  {
    Passed(states[k], states[k + 1], passes[k])
  }

  ghost predicate History(states: seq<Bindings>, passes: seq<Pass>) {
    && |states| == |passes| + 1
    && forall k: nat | k < |passes| :: Follows(states, passes, k)
  }

  /** The bindings of before under the prefixes that have to go were all seen by the pass. */
  ghost predicate PassCovers(before: Bindings, p: Pass) {
    Covers(p.view, Based(before, p.jenkins), p.jenkins, p.roles)
  }

  /**
   * However many passes of one instance were cut off, or completed on an old list, with whatever roles:
   * if one more completes, the outcome is that of this pass alone on the first state, if and only if it saw
   * every name that had to go; it did if its list was of the present state.
   */
  lemma RetriesConverge(states: seq<Bindings>, passes: seq<Pass>, jenkins: string)
    requires History(states, passes) && passes != [] && passes[|passes| - 1].complete
    requires forall k | 0 <= k < |passes| :: passes[k].jenkins == jenkins
    ensures var n := |passes| - 1;
            && (states[|passes|] == Reconciled(states[0], jenkins, passes[n].roles) <==> PassCovers(states[n], passes[n]))
            && (Fresh(states[n], passes[n]) ==> states[|passes|] == Reconciled(states[0], jenkins, passes[n].roles))
  {
    var n := |passes| - 1;
    OthersStay(states, passes, jenkins, n);
    assert Follows(states, passes, n);
    ReconciledFromOthers(states[0], jenkins, passes[n].roles);
    ReconciledFromOthers(states[n], jenkins, passes[n].roles);
    ExactIffListed(Based(states[n], jenkins), jenkins, passes[n].roles, passes[n].view);
    if Fresh(states[n], passes[n]) {
      FreshListCovers(Based(states[n], jenkins), jenkins, passes[n].roles, passes[n].view);
    }
  }

  lemma ReconciledSparesOthers(before: Bindings, jenkins: string, roles: seq<RoleRef>)
    ensures Others(jenkins, Reconciled(before, jenkins, roles)) == Others(jenkins, before)
  {
    var after := Reconciled(before, jenkins, roles);
    ReconciledFromOthers(before, jenkins, roles);
    forall n | !Owned(jenkins, n)
      ensures n in before <==> n in after
      ensures n in before ==> before[n] == after[n]
    {
      assert n in before <==> n in Others(jenkins, before);
    }
  }

  /** A further pass changes nothing, and none of its updates has to change a role if the first one's did not. */
  lemma PassingAgainChangesNothing(before: Bindings, jenkins: string, roles: seq<RoleRef>)
    ensures Reconciled(Reconciled(before, jenkins, roles), jenkins, roles) == Reconciled(before, jenkins, roles)
    ensures CanPass(before, jenkins, roles) ==> CanPass(Reconciled(before, jenkins, roles), jenkins, roles)
  {
    ReconciledFromOthers(before, jenkins, roles);
    ReconciledFromOthers(Reconciled(before, jenkins, roles), jenkins, roles);
    ReconciledSparesOthers(before, jenkins, roles);
    if CanPass(before, jenkins, roles) {
      CanPassAgain(before, Reconciled(before, jenkins, roles), jenkins, roles);
    }
  }

  lemma CanPassAgain(before: Bindings, after: Bindings, jenkins: string, roles: seq<RoleRef>)
    requires CanPass(before, jenkins, roles) && after == Reconciled(before, jenkins, roles)
    ensures CanPass(after, jenkins, roles)
  {
    ExtraIsManaged(jenkins, RoleRef("", "", ""));
    assert ResourceName(jenkins) !in Wanted(jenkins, roles);
    assert after[ResourceName(jenkins)] == BaseBinding(jenkins);
    assert Based(after, jenkins) == after;
    forall k: nat | k < |roles| ensures SteadyAt(after, jenkins, roles, k) {
      SteadyAfter(Based(before, jenkins), after, jenkins, roles, k);
    }
  }

  lemma SteadyAfter(before: Bindings, after: Bindings, jenkins: string, roles: seq<RoleRef>, k: nat)
    requires k < |roles| && Steady(before, jenkins, roles, |roles|)
    requires forall n | n in Wanted(jenkins, roles) && n in after :: after[n] == Wanted(jenkins, roles)[n]
    ensures SteadyAt(after, jenkins, roles, k)
  {
    var name := ExtraName(jenkins, roles[k]);
    assert Names(jenkins, roles, name);
    var last := LastRole(jenkins, roles, name);
    assert SteadyAt(before, jenkins, roles, k) && SteadyAt(before, jenkins, roles, last);
    assert last > k ==> roles[k] == roles[last];
    SteadyStays(before, after, jenkins, roles, k);
  }

  lemma SteadyStays(before: Bindings, after: Bindings, jenkins: string, roles: seq<RoleRef>, k: nat)
    requires k < |roles| && SteadyAt(before, jenkins, roles, k)
    requires Agrees(after, ExtraName(jenkins, roles[k]), roles[k])
    ensures SteadyAt(after, jenkins, roles, k)
  {
  }

  lemma {:induction false} OthersStay(states: seq<Bindings>, passes: seq<Pass>, jenkins: string, n: nat)
    requires History(states, passes) && n <= |passes|
    requires forall k | 0 <= k < n :: passes[k].jenkins == jenkins
    ensures Others(jenkins, states[n]) == Others(jenkins, states[0])
  {
    if n > 0 {
      OthersStay(states, passes, jenkins, n - 1);
      assert Follows(states, passes, n - 1);
    }
  }

  /**
   * Under its prefixes a completed run leaves every wanted name, and of the others exactly those that it
   * did not see; elsewhere, the base binding included, every binding is as before.
   */
  lemma CompletedRunIsExact(before: Bindings, jenkins: string, roles: seq<RoleRef>, view: Bindings, name: string)
    ensures var after := Left(before, jenkins, roles, view);
            if name in Wanted(jenkins, roles)
            then name in after && exists k: nat :: IsLast(jenkins, roles, name, k) && after[name] == ExtraBinding(jenkins, roles[k])
            else && (name in after <==> name in before && !(Managed(jenkins, name) && name in view))
                 && (name in after ==> after[name] == before[name])
    ensures !Managed(jenkins, ResourceName(jenkins))
  {
    ExtraIsManaged(jenkins, RoleRef("", "", ""));
    if name in Wanted(jenkins, roles) {
      var k := LastRole(jenkins, roles, name);
    }
  }

  /** k is the last role that is bound under this name. */
  predicate IsLast(jenkins: string, roles: seq<RoleRef>, name: string, k: nat) {
    && k < |roles| && ExtraName(jenkins, roles[k]) == name
    && forall j | k < j < |roles| :: ExtraName(jenkins, roles[j]) != name
  }

  lemma LastOfMore(jenkins: string, roles: seq<RoleRef>, name: string, k: nat)
    requires roles != [] && IsLast(jenkins, roles[..|roles| - 1], name, k)
    requires ExtraName(jenkins, roles[|roles| - 1]) != name
    ensures IsLast(jenkins, roles, name, k)
  {
    forall j | k < j < |roles| ensures ExtraName(jenkins, roles[j]) != name {
      assert j < |roles| - 1 ==> roles[..|roles| - 1][j] == roles[j];
    }
  }

  lemma {:induction false} LastRole(jenkins: string, roles: seq<RoleRef>, name: string) returns (k: nat)
    requires name in Wanted(jenkins, roles)
    ensures IsLast(jenkins, roles, name, k) && Wanted(jenkins, roles)[name] == ExtraBinding(jenkins, roles[k])
  {
    var n := |roles| - 1;
    k := n;
    if ExtraName(jenkins, roles[n]) != name {
      k := LastRole(jenkins, roles[..n], name);
      LastOfMore(jenkins, roles, name, k);
    }
  }

  // ---- isolation --------------------------------------------------------------------------

  predicate Shadows(j: string, k: string) {
    j + "-r-" <= k + "-" || j + "-cr-" <= k + "-"
  }

  predicate Clash(j: string, k: string) {
    Shadows(j, k) || Shadows(k, j)
  }

  /** One string that starts with both "j-t-" and "k-u-", j being shorter, shows that "k-" starts with "j-t-". */
  lemma PrefixesNest(j: string, t: string, k: string, u: string, s: string)
    requires |j| < |k| && (t == "r" || t == "cr")
    requires j + "-" + t + "-" <= s && k + "-" + u + "-" <= s
    ensures j + "-" + t + "-" <= k + "-"
  {
    var p, q := j + "-" + t + "-", k + "-";
    assert q == s[..|q|] && p == s[..|p|];
    assert s[|k|] == q[|k|] == '-';
    assert forall i | 0 <= i < |t| :: s[|j| + 1 + i] == p[|j| + 1 + i] == t[i];
    if |p| > |q| {
      assert false;
    }
  }

  /** A name below a prefix of jenkins, without the part all names start with. */
  lemma ManagedTag(jenkins: string, name: string) returns (t: string)
    requires Managed(jenkins, name)
    ensures t == "r" || t == "cr"
    ensures |name| >= 8 && jenkins + "-" + t + "-" <= name[8..]
  {
    t := if RolePrefix(jenkins) <= name then "r" else "cr";
    var p := ResourceName(jenkins) + "-" + t + "-";
    assert p == (if t == "r" then RolePrefix(jenkins) else ClusterRolePrefix(jenkins));
    assert p[8..] == jenkins + "-" + t + "-";
    assert p == name[..|p|] && p[8..] == name[..|p|][8..] == name[8..|p|];
  }

  lemma SharedNameClashes(j: string, k: string, name: string)
    requires |j| < |k| && Owned(j, name) && Owned(k, name)
    ensures Shadows(j, k)
  {
    var rest := name[8..];
    if Managed(j, name) {
      var t := ManagedTag(j, name);
      if Managed(k, name) {
        var u := ManagedTag(k, name);
        PrefixesNest(j, t, k, u, rest);
      } else {
        assert rest == k;
      }
      assert j + "-" + t + "-" <= k + "-";
      assert t == "r" ==> j + "-" + t + "-" == j + "-r-";
      assert t == "cr" ==> j + "-" + t + "-" == j + "-cr-";
    } else {
      assert |name| == 8 + |j|;
      if Managed(k, name) {
        var u := ManagedTag(k, name);
      }
      assert false;
    }
  }

  /** A name below the prefixes of both, if k is shadowed by j. */
  lemma ShadowedName(j: string, k: string)
    requires Shadows(j, k)
    ensures Managed(j, RolePrefix(k)) && Managed(k, RolePrefix(k))
  {
    var name := RolePrefix(k);
    var tail := if j + "-r-" <= k + "-" then "-r-" else "-cr-";
    var p := ResourceName(j) + tail;
    assert p == (if tail == "-r-" then RolePrefix(j) else ClusterRolePrefix(j));
    assert name == "jenkins-" + (k + "-") + "r-";
    assert p == "jenkins-" + (j + tail);
    assert name[..|p|] == "jenkins-" + (k + "-")[..|j + tail|];
  }

  lemma SharedName(j: string, k: string) returns (name: string)
    requires Clash(j, k)
    ensures Managed(j, name) && Managed(k, name)
  {
    if Shadows(j, k) {
      ShadowedName(j, k);
      name := RolePrefix(k);
    } else {
      ShadowedName(k, j);
      name := RolePrefix(j);
    }
  }

  /** Two instances share a name, whatever their roles, exactly when their names clash. */
  lemma SharedNamesIffClash(j: string, k: string)
    requires j != k
    ensures (exists name :: Owned(j, name) && Owned(k, name)) <==> Clash(j, k)
  {
    if Clash(j, k) {
      var name := SharedName(j, k);
      assert Owned(j, name) && Owned(k, name);
    }
    forall name | Owned(j, name) && Owned(k, name) ensures Clash(j, k) {
      if |j| < |k| {
        SharedNameClashes(j, k, name);
      } else if |k| < |j| {
        SharedNameClashes(k, j, name);
      } else {
        SameLength(j, k, name);
      }
    }
  }

  lemma SameLength(j: string, k: string, name: string)
    requires |j| == |k| && Owned(j, name) && Owned(k, name)
    ensures j == k
  {
    assert ResourceName(j) <= name && ResourceName(k) <= name by {
      BaseIsPrefix(j, name);
      BaseIsPrefix(k, name);
    }
    var p, q := ResourceName(j), ResourceName(k);
    assert p == name[..|p|] == q;
    assert p[8..] == j && q[8..] == k;
  }

  lemma BaseIsPrefix(jenkins: string, name: string)
    requires Owned(jenkins, name)
    ensures ResourceName(jenkins) <= name
  {
  }

  /** A pass of j, cut off or complete, does not touch a binding of an instance it does not clash with. */
  lemma PassSparesOthers(before: Bindings, after: Bindings, p: Pass, k: string, name: string)
    requires Passed(before, after, p) && p.jenkins != k && !Clash(p.jenkins, k) && Owned(k, name)
    ensures name in before <==> name in after
    ensures name in before ==> before[name] == after[name]
  {
    SharedNamesIffClash(p.jenkins, k);
    assert !Owned(p.jenkins, name);
    assert name in before <==> name in Others(p.jenkins, before);
    assert name in after <==> name in Others(p.jenkins, after);
  }

  /** Whenever a pass of j completes that saw this name and does not want it, the name is gone. */
  ghost predicate Lost(j: string, name: string) {
    forall p: Pass, before: Bindings | Loses(p, j, name) :: name !in LeftByPass(before, p)
  }

  predicate Loses(p: Pass, j: string, name: string) {
    p.jenkins == j && name in p.view && !Names(j, p.roles, name)
  }

  lemma LostIffManaged(j: string, name: string)
    requires name != ResourceName(j)
    ensures Lost(j, name) <==> Managed(j, name)
  {
    if !Managed(j, name) {
      var before := map[name := BaseBinding(j)];
      var p := Pass(j, [], before, true);
      assert Loses(p, j, name) && name in LeftByPass(before, p);
    }
  }

  /** If k's name with a dash starts with one of j's prefixes, j takes k for roles of its own: k loses every extra binding. */
  lemma ShadowLosesAll(j: string, k: string, role: RoleRef)
    requires Shadows(j, k)
    ensures Lost(j, ExtraName(k, role))
  {
    var name := ExtraName(k, role);
    var tail := if j + "-r-" <= k + "-" then "-r-" else "-cr-";
    var p := ResourceName(j) + tail;
    assert p == (if tail == "-r-" then RolePrefix(j) else ClusterRolePrefix(j));
    assert name == "jenkins-" + (k + "-") + (TypeName(role.kind) + "-" + role.name);
    assert p == "jenkins-" + (j + tail);
    assert name[..|p|] == "jenkins-" + (k + "-")[..|j + tail|];
    assert |name| > |ResourceName(j)|;
    LostIffManaged(j, name);
  }

  /** And its base binding, which Jenkins itself runs with, exactly if already k's name starts with such a prefix. */
  lemma BaseLostIff(j: string, k: string)
    requires j != k
    ensures Lost(j, ResourceName(k)) <==> j + "-r-" <= k || j + "-cr-" <= k
  {
    assert ResourceName(j)[8..] == j && ResourceName(k)[8..] == k;
    LostIffManaged(j, ResourceName(k));
    PrefixBehind("jenkins-", j + "-r-", k);
    PrefixBehind("jenkins-", j + "-cr-", k);
    assert RolePrefix(j) == "jenkins-" + (j + "-r-") && ClusterRolePrefix(j) == "jenkins-" + (j + "-cr-");
  }

  lemma PrefixBehind(head: string, a: string, b: string)
    ensures head + a <= head + b <==> a <= b
  {
    if head + a <= head + b {
      assert (head + b)[|head|..] == b && (head + a)[|head|..] == a;
      assert head + a == (head + b)[..|head + a|];
      assert a == b[..|a|];
    }
  }

  /** The other way round j takes some of k's names for its own, namely those of roles that look like j's. */
  lemma ShadowedLosesSome(j: string, k: string, suffix: string) returns (role: RoleRef)
    requires Shadows(k, j)
    ensures HasSuffixOf(role.name, suffix) && role.name != ""
    ensures Lost(j, ExtraName(k, role))
  {
    var t := if k + "-r-" <= j + "-" then "r" else "cr";
    var rest := (j + "-")[|k + "-" + t + "-"|..];
    role := RoleRef("rbac.authorization.k8s.io", if t == "r" then "Role" else "ClusterRole", rest + "r-" + suffix);
    assert t == "r" ==> k + "-" + t + "-" == k + "-r-";
    assert t == "cr" ==> k + "-" + t + "-" == k + "-cr-";
    LooksLikeMine(j, k, t, rest, suffix);
    assert role.name[|role.name| - |suffix|..] == suffix;
    LostIffManaged(j, ExtraName(k, role));
  }

  lemma LooksLikeMine(j: string, k: string, t: string, rest: string, suffix: string)
    requires k + "-" + t + "-" + rest == j + "-"
    ensures var name := ResourceName(k) + "-" + t + "-" + (rest + "r-" + suffix);
            RolePrefix(j) <= name && name != ResourceName(j)
  {
    var name := ResourceName(k) + "-" + t + "-" + (rest + "r-" + suffix);
    assert name == "jenkins-" + (k + "-" + t + "-" + rest) + "r-" + suffix;
    assert RolePrefix(j) == "jenkins-" + (j + "-") + "r-";
    assert name == RolePrefix(j) + suffix;
  }

  predicate HasSuffixOf(s: string, suffix: string) {
    |suffix| <= |s| && s[|s| - |suffix|..] == suffix
  }

  /** If two names clash, passes of the one delete bindings for named roles of the other. */
  lemma ClashLosesBindings(j: string, k: string) returns (role: RoleRef)
    requires Clash(j, k)
    ensures role.name != "" && Lost(j, ExtraName(k, role))
  {
    if Shadows(j, k) {
      role := RoleRef("rbac.authorization.k8s.io", "Role", "admin");
      ShadowLosesAll(j, k, role);
    } else {
      role := ShadowedLosesSome(j, k, "admin");
    }
  }

  /**
   * Any number of instances whose names do not clash with k's, in any order of passes, each complete or
   * cut off: what k's last pass completed is what k still has in the end, and of its unwanted bindings
   * exactly those that this pass did not see.
   */
  lemma {:induction false} InstancesCoexist(states: seq<Bindings>, passes: seq<Pass>, last: nat, n: nat, name: string)
    requires History(states, passes) && last < n <= |passes| && passes[last].complete
    requires forall i | last < i < n :: passes[i].jenkins != passes[last].jenkins
    requires forall i | last < i < n :: !Clash(passes[i].jenkins, passes[last].jenkins)
    requires Owned(passes[last].jenkins, name)
    ensures var p := passes[last];
            if name == ResourceName(p.jenkins) then name in states[n] && states[n][name] == BaseBinding(p.jenkins)
            else if name in Wanted(p.jenkins, p.roles)
            then name in states[n] && states[n][name] == Wanted(p.jenkins, p.roles)[name]
            else && (name in states[n] <==> name in states[last] && name !in p.view)
                 && (name in states[n] ==> states[n][name] == states[last][name])
  {
    assert Follows(states, passes, n - 1);
    if n == last + 1 {
      ExtraIsManaged(passes[last].jenkins, RoleRef("", "", ""));
    } else {
      InstancesCoexist(states, passes, last, n - 1, name);
      PassSparesOthers(states[n - 1], states[n], passes[n - 1], passes[last].jenkins, name);
    }
  }
}
