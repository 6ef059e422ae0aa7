/** Authorization profiles: a named, ordered list of role bindings applied to
    the cluster one after the other, stopping at the first failure. The
    cluster's binding APIs are modelled by a store keyed by scope, namespace
    and name that records every patch call it receives. */
module Profiles {
  import opened Primitives
  import opened Errors
  import Structure

  /** The field manager under which bindings are applied. */
  const FIELD_MANAGER: string := "kaccess"
  const RBAC_API_GROUP: string := "rbac.authorization.k8s.io"
  const PATCH_REJECTED: string := "patch rejected by the API server"

  datatype ObjectMeta = ObjectMeta(name: Option<string>, namespace: Option<string>)
  datatype Subject = Subject(kind: string, name: string, apiGroup: Option<string>, namespace: Option<string>)
  datatype RoleRef = RoleRef(kind: string, name: string, apiGroup: string)

  /** A role binding at cluster scope (ClusterRoleBinding) or inside a
      namespace (RoleBinding). */
  datatype Binding =
    | ClusterScoped(metadata: ObjectMeta, subjects: Option<seq<Subject>>, roleRef: RoleRef)
    | NamespaceScoped(metadata: ObjectMeta, subjects: Option<seq<Subject>>, roleRef: RoleRef)

  /** Where the cluster keeps a binding. */
  datatype ResourceKey = ClusterKey(name: string) | NamespacedKey(namespace: string, name: string)

  /** A patch call as the cluster receives it. */
  datatype PatchCall = PatchCall(key: ResourceKey, fieldManager: string, force: bool)

  /** The stored bindings and the patch calls received so far. */
  datatype ClusterState = ClusterState(store: map<ResourceKey, Binding>, patches: seq<PatchCall>)

  // ---------------------------------------------------------------------
  // Specification of applying bindings

  /** The key a binding is applied under, or the error its missing identity
      causes; for a namespaced binding the namespace is checked first. */
  function Identity(b: Binding): (r: Result<ResourceKey>)
    ensures r.Ok? <==> b.metadata.name.Some? && (b.NamespaceScoped? ==> b.metadata.namespace.Some?)
    ensures r.Ok? ==> r.value.name == b.metadata.name.value
    ensures r.Ok? ==> (r.value.ClusterKey? <==> b.ClusterScoped?)
    ensures r.Ok? && b.NamespaceScoped? ==> r.value.namespace == b.metadata.namespace.value
    ensures b.ClusterScoped? && r.Err? ==> r.error == MissingName("Cluster Role binding")
    ensures b.NamespaceScoped? && b.metadata.namespace.None? ==> r == Err(MissingNamespace("Role binding"))
    ensures b.NamespaceScoped? && b.metadata.namespace.Some? && r.Err? ==> r.error == MissingName("Role Binding")
  {
    match b
    case ClusterScoped(meta, _, _) =>
      if meta.name.None? then Err(MissingName("Cluster Role binding"))
      else Ok(ClusterKey(meta.name.value))
    case NamespaceScoped(meta, _, _) =>
      if meta.namespace.None? then Err(MissingNamespace("Role binding"))
      else if meta.name.None? then Err(MissingName("Role Binding"))
      else Ok(NamespacedKey(meta.namespace.value, meta.name.value))
  }

  /** One forced server-side apply: the call is recorded, then the cluster
      either rejects it or upserts the binding under its key. */
  function PatchSpec(key: ResourceKey, b: Binding, s: ClusterState, rejects: set<ResourceKey>): (Result<()>, ClusterState) {
    var logged := s.patches + [PatchCall(key, FIELD_MANAGER, true)];
    if key in rejects then (Err(KubeApiError(PATCH_REJECTED)), ClusterState(s.store, logged))
    else (Ok(()), ClusterState(s.store[key := b], logged))
  }

  /** Applying one binding: identity check, then the patch. */
  function ApplyOne(b: Binding, s: ClusterState, rejects: set<ResourceKey>): (Result<()>, ClusterState) {
    match Identity(b)
    case Err(e) => (Err(e), s)
    case Ok(key) => PatchSpec(key, b, s, rejects)
  }

  /** Applying bindings in order, stopping at the first error. */
  function ApplyAll(bs: seq<Binding>, s: ClusterState, rejects: set<ResourceKey>): (Result<()>, ClusterState)
    decreases |bs|
  {
    if bs == [] then (Ok(()), s)
    else
      var (r, s1) := ApplyOne(bs[0], s, rejects);
      if r.Err? then (r, s1) else ApplyAll(bs[1..], s1, rejects)
  }

  // ---------------------------------------------------------------------
  // Properties of applying bindings

  /** A binding goes through: its identity is complete and its patch is accepted. */
  predicate Accepted(b: Binding, rejects: set<ResourceKey>) {
    Identity(b).Ok? && Identity(b).value !in rejects
  }

  /** The store after a run in which every binding went through: each one
      upserted under its own key, in declared order. */
  function UpsertAll(bs: seq<Binding>, m: map<ResourceKey, Binding>): map<ResourceKey, Binding>
    decreases |bs|
  {
    if bs == [] then m
    else
      var m1 := match Identity(bs[0]) case Ok(key) => m[key := bs[0]] case Err(_) => m;
      UpsertAll(bs[1..], m1)
  }

  /** The patch calls of such a run: one forced call under the field manager per binding, in order. */
  function PatchLog(bs: seq<Binding>): seq<PatchCall> {
    if bs == [] then []
    else
      var call := match Identity(bs[0]) case Ok(key) => [PatchCall(key, FIELD_MANAGER, true)] case Err(_) => [];
      call + PatchLog(bs[1..])
  }

  lemma ApplyOneOk(b: Binding, s: ClusterState, rejects: set<ResourceKey>)
    ensures ApplyOne(b, s, rejects).0.Ok? <==> Accepted(b, rejects)
    ensures !Identity(b).Ok? ==> ApplyOne(b, s, rejects) == (Err(Identity(b).error), s)
  {
  }

  /** A profile applies cleanly exactly when every binding goes through. */
  lemma {:induction false} ApplyAllOkIff(bs: seq<Binding>, s: ClusterState, rejects: set<ResourceKey>)
    ensures ApplyAll(bs, s, rejects).0.Ok? <==> forall i :: 0 <= i < |bs| ==> Accepted(bs[i], rejects)
    decreases |bs|
  {
    if bs != [] {
      ApplyOneOk(bs[0], s, rejects);
      var s1 := ApplyOne(bs[0], s, rejects).1;
      ApplyAllOkIff(bs[1..], s1, rejects);
      assert forall i :: 1 <= i < |bs| ==> bs[i] == bs[1..][i - 1];
    }
  }

  /** When every binding goes through, the run is a sequence of upserts and
      one patch call per binding, in declared order; an empty profile changes
      nothing. */
  lemma {:induction false} ApplyAllSucceeds(bs: seq<Binding>, s: ClusterState, rejects: set<ResourceKey>)
    requires forall i :: 0 <= i < |bs| ==> Accepted(bs[i], rejects)
    ensures ApplyAll(bs, s, rejects) == (Ok(()), ClusterState(UpsertAll(bs, s.store), s.patches + PatchLog(bs)))
    decreases |bs|
  {
    if bs == [] {
      assert s.patches + [] == s.patches;
    } else {
      var key := Identity(bs[0]).value;
      var s1 := ClusterState(s.store[key := bs[0]], s.patches + [PatchCall(key, FIELD_MANAGER, true)]);
      assert ApplyOne(bs[0], s, rejects) == (Ok(()), s1);
      ApplyAllSucceeds(bs[1..], s1, rejects);
      assert s1.patches + PatchLog(bs[1..]) == s.patches + PatchLog(bs);
    }
  }

  /** Fail-fast: a failing run is the clean run of the bindings before the
      first failing one, followed by that binding's attempt, and nothing after
      it; the failing binding's error is the result. */
  lemma {:induction false} FailFast(bs: seq<Binding>, s: ClusterState, rejects: set<ResourceKey>) returns (k: nat)
    requires ApplyAll(bs, s, rejects).0.Err?
    ensures k < |bs|
    ensures forall i :: 0 <= i < k ==> Accepted(bs[i], rejects)
    ensures !Accepted(bs[k], rejects)
    ensures ApplyAll(bs[..k], s, rejects).0.Ok?
    ensures ApplyOne(bs[k], ApplyAll(bs[..k], s, rejects).1, rejects) == ApplyAll(bs, s, rejects)
    decreases |bs|
  {
    ApplyOneOk(bs[0], s, rejects);
    var (r1, s1) := ApplyOne(bs[0], s, rejects);
    if r1.Err? {
      k := 0;
      assert bs[..0] == [];
    } else {
      var k' := FailFast(bs[1..], s1, rejects);
      k := k' + 1;
      var pre := bs[..k];
      assert pre[0] == bs[0] && pre[1..] == bs[1..][..k'];
      assert forall i :: 1 <= i < k ==> bs[i] == bs[1..][i - 1];
    }
  }

  /** Upserting into a larger map adds the same entries on top of it. */
  lemma {:induction false} UpsertAllUnion(bs: seq<Binding>, m1: map<ResourceKey, Binding>, m2: map<ResourceKey, Binding>)
    ensures UpsertAll(bs, m1 + m2) == m1 + UpsertAll(bs, m2)
    decreases |bs|
  {
    if bs != [] {
      match Identity(bs[0]) {
        case Ok(key) =>
          assert (m1 + m2)[key := bs[0]] == m1 + m2[key := bs[0]];
          UpsertAllUnion(bs[1..], m1, m2[key := bs[0]]);
        case Err(_) =>
          UpsertAllUnion(bs[1..], m1, m2);
      }
    }
  }

  lemma UpsertAllIdempotent(bs: seq<Binding>, m: map<ResourceKey, Binding>)
    ensures UpsertAll(bs, UpsertAll(bs, m)) == UpsertAll(bs, m)
  {
    var u := UpsertAll(bs, map[]);
    assert m + map[] == m;
    UpsertAllUnion(bs, m, map[]);
    assert m + u + map[] == m + u;
    UpsertAllUnion(bs, m + u, map[]);
    assert (m + u) + u == m + u;
  }

  /** Applying a profile a second time succeeds and leaves the store as the
      first run left it; only the patch calls are repeated. */
  lemma ApplyTwice(bs: seq<Binding>, s: ClusterState, rejects: set<ResourceKey>)
    requires ApplyAll(bs, s, rejects).0.Ok?
    ensures var s1 := ApplyAll(bs, s, rejects).1;
            && ApplyAll(bs, s1, rejects).0.Ok?
            && ApplyAll(bs, s1, rejects).1.store == s1.store
            && ApplyAll(bs, s1, rejects).1.patches == s1.patches + PatchLog(bs)
  {
    ApplyAllOkIff(bs, s, rejects);
    ApplyAllSucceeds(bs, s, rejects);
    var s1 := ApplyAll(bs, s, rejects).1;
    ApplyAllSucceeds(bs, s1, rejects);
    UpsertAllIdempotent(bs, s.store);
  }

  lemma {:induction false} UpsertAllKeeps(bs: seq<Binding>, m: map<ResourceKey, Binding>, key: ResourceKey)
    requires key in m
    requires forall j :: 0 <= j < |bs| && Identity(bs[j]).Ok? ==> Identity(bs[j]).value != key
    ensures key in UpsertAll(bs, m) && UpsertAll(bs, m)[key] == m[key]
    decreases |bs|
  {
    if bs != [] {
      var m1 := match Identity(bs[0]) case Ok(k) => m[k := bs[0]] case Err(_) => m;
      assert forall j :: 0 <= j < |bs| - 1 ==> bs[1..][j] == bs[j + 1];
      UpsertAllKeeps(bs[1..], m1, key);
    }
  }

  /** A binding is stored under its own key unless a later binding of the same run has that key. */
  lemma {:induction false} UpsertAllAt(bs: seq<Binding>, m: map<ResourceKey, Binding>, i: nat)
    requires i < |bs| && Identity(bs[i]).Ok?
    requires forall j :: i < j < |bs| && Identity(bs[j]).Ok? ==> Identity(bs[j]).value != Identity(bs[i]).value
    ensures Identity(bs[i]).value in UpsertAll(bs, m)
    ensures UpsertAll(bs, m)[Identity(bs[i]).value] == bs[i]
    decreases |bs|
  {
    var m1 := match Identity(bs[0]) case Ok(k) => m[k := bs[0]] case Err(_) => m;
    assert forall j :: 0 <= j < |bs| - 1 ==> bs[1..][j] == bs[j + 1];
    if i == 0 {
      UpsertAllKeeps(bs[1..], m1, Identity(bs[0]).value);
    } else {
      UpsertAllAt(bs[1..], m1, i - 1);
    }
  }

  /** After a clean run each binding is stored under its own key (a later
      binding with the same key wins) and entries under other keys are kept. */
  lemma ApplyStoresEach(bs: seq<Binding>, s: ClusterState, rejects: set<ResourceKey>, i: nat)
    requires ApplyAll(bs, s, rejects).0.Ok?
    requires i < |bs|
    requires forall j :: i < j < |bs| ==> Identity(bs[j]) != Identity(bs[i])
    ensures Identity(bs[i]).Ok?
    ensures Identity(bs[i]).value in ApplyAll(bs, s, rejects).1.store
    ensures ApplyAll(bs, s, rejects).1.store[Identity(bs[i]).value] == bs[i]
  {
    ApplyAllOkIff(bs, s, rejects);
    ApplyAllSucceeds(bs, s, rejects);
    UpsertAllAt(bs, s.store, i);
  }

  // ---------------------------------------------------------------------
  // The cluster and the bindings' apply

  /** The cluster's role-binding APIs: `rejects` are the keys whose patches
      the API server refuses (permissions, admission). */
  class Cluster {
    var store: map<ResourceKey, Binding>
    var patches: seq<PatchCall>
    const rejects: set<ResourceKey>

    constructor (store: map<ResourceKey, Binding>, rejects: set<ResourceKey>)
      ensures this.store == store && patches == [] && this.rejects == rejects
    {
      this.store := store;
      this.patches := [];
      this.rejects := rejects;
    }

    function State(): ClusterState
      reads this
    {
      ClusterState(store, patches)
    }

    /** A server-side apply of `b` under `key`. */
    method Patch(key: ResourceKey, fieldManager: string, force: bool, b: Binding) returns (r: Result<()>)
      modifies this
      ensures patches == old(patches) + [PatchCall(key, fieldManager, force)]
      ensures key in rejects ==> r == Err(KubeApiError(PATCH_REJECTED)) && store == old(store)
      ensures key !in rejects ==> r == Ok(()) && store == old(store)[key := b]
    {
      patches := patches + [PatchCall(key, fieldManager, force)];
      if key in rejects {
        r := Err(KubeApiError(PATCH_REJECTED));
      } else {
        store := store[key := b];
        r := Ok(());
      }
    }
  }

  /** Apply of a ClusterRoleBinding: the name must be present. */
  method ApplyClusterRoleBinding(b: Binding, cluster: Cluster) returns (r: Result<()>)
    requires b.ClusterScoped?
    modifies cluster
    ensures (r, cluster.State()) == ApplyOne(b, old(cluster.State()), cluster.rejects)
  {
    if b.metadata.name.None? {
      r := Err(MissingName("Cluster Role binding"));
      return;
    }
    var name := b.metadata.name.value;
    r := cluster.Patch(ClusterKey(name), FIELD_MANAGER, true, b);
  }

  /** Apply of a RoleBinding: the namespace, then the name, must be present. */
  method ApplyRoleBinding(b: Binding, cluster: Cluster) returns (r: Result<()>)
    requires b.NamespaceScoped?
    modifies cluster
    ensures (r, cluster.State()) == ApplyOne(b, old(cluster.State()), cluster.rejects)
  {
    if b.metadata.namespace.None? {
      r := Err(MissingNamespace("Role binding"));
      return;
    }
    var namespace := b.metadata.namespace.value;
    if b.metadata.name.None? {
      r := Err(MissingName("Role Binding"));
      return;
    }
    var name := b.metadata.name.value;
    r := cluster.Patch(NamespacedKey(namespace, name), FIELD_MANAGER, true, b);
  }

  /** Dispatch on the kind of binding. */
  method ApplyBinding(b: Binding, cluster: Cluster) returns (r: Result<()>)
    modifies cluster
    ensures (r, cluster.State()) == ApplyOne(b, old(cluster.State()), cluster.rejects)
  {
    match b {
      case ClusterScoped(_, _, _) => r := ApplyClusterRoleBinding(b, cluster);
      case NamespaceScoped(_, _, _) => r := ApplyRoleBinding(b, cluster);
    }
  }

  /** A named, ordered list of bindings. */
  class Profile {
    var name: string
    var resources: seq<Binding>

    constructor (name: string, resources: seq<Binding>)
      ensures this.name == name && this.resources == resources
    {
      this.name := name;
      this.resources := resources;
    }

    method AddResource(resource: Binding)
      modifies this
      ensures resources == old(resources) + [resource]
      ensures name == old(name)
    {
      resources := resources + [resource];
    }

    /** Applies the bindings in order and stops at the first error. */
    method Apply(cluster: Cluster) returns (r: Result<()>)
      modifies cluster
      ensures (r, cluster.State()) == ApplyAll(resources, old(cluster.State()), cluster.rejects)
    {
      var i := 0;
      while i < |resources|
        invariant i <= |resources|
        invariant ApplyAll(resources, old(cluster.State()), cluster.rejects)
                  == ApplyAll(resources[i..], cluster.State(), cluster.rejects)
      {
        assert resources[i..][1..] == resources[i + 1..];
        var res := ApplyBinding(resources[i], cluster);
        if res.Err? {
          r := res;
          return;
        }
        i := i + 1;
      }
      r := Ok(());
    }
  }

  // ---------------------------------------------------------------------
  // Built-in profiles

  function AdminBinding(): Binding {
    ClusterScoped(
      ObjectMeta(Some("cluster-admin-binding"), None),
      Some([Subject("Group", "cluster-admins", Some(RBAC_API_GROUP), None)]),
      RoleRef("ClusterRole", "cluster-admin", RBAC_API_GROUP))
  }

  function ClusterReadonlyBinding(): Binding {
    ClusterScoped(
      ObjectMeta(Some("cluster-readonly-binding"), None),
      Some([Subject("Group", "cluster-readonly", Some(RBAC_API_GROUP), None)]),
      RoleRef("ClusterRole", "view", RBAC_API_GROUP))
  }

  function NamespacedReadonlyBinding(namespace: string): Binding {
    NamespaceScoped(
      ObjectMeta(Some("readonly-" + namespace), Some(namespace)),
      Some([Subject("Group", "readonly-" + namespace, Some(RBAC_API_GROUP), None)]),
      RoleRef("ClusterRole", "view", RBAC_API_GROUP))
  }

  method AdminProfile() returns (p: Profile)
    ensures fresh(p)
    ensures p.name == "admin" && p.name == Structure.AsStr(Structure.Admin)
    ensures p.resources == [AdminBinding()]
  {
    p := new Profile("admin", [AdminBinding()]);
  }

  method ClusterReadonlyProfile() returns (p: Profile)
    ensures fresh(p)
    ensures p.name == "cluster-readonly" && p.name == Structure.AsStr(Structure.ClusterReadonly)
    ensures p.resources == [ClusterReadonlyBinding()]
  {
    p := new Profile("cluster-readonly", [ClusterReadonlyBinding()]);
  }

  method NamespacedReadonly(namespace: string) returns (p: Profile)
    ensures fresh(p)
    ensures p.name == "readonly-" + namespace
    ensures p.resources == [NamespacedReadonlyBinding(namespace)]
  {
    p := new Profile("readonly-" + namespace, [NamespacedReadonlyBinding(namespace)]);
  }

  /** The built-in bindings carry a complete identity: they can only fail at the patch. */
  lemma BuiltinIdentities(namespace: string)
    ensures Identity(AdminBinding()) == Ok(ClusterKey("cluster-admin-binding"))
    ensures Identity(ClusterReadonlyBinding()) == Ok(ClusterKey("cluster-readonly-binding"))
    ensures Identity(NamespacedReadonlyBinding(namespace)) == Ok(NamespacedKey(namespace, "readonly-" + namespace))
  {
  }

  /** The namespaced read-only profile makes one forced patch under the field
      manager and stores its binding under `readonly-<namespace>` in that namespace. */
  lemma ApplyNamespacedReadonly(namespace: string, s: ClusterState, rejects: set<ResourceKey>)
    requires NamespacedKey(namespace, "readonly-" + namespace) !in rejects
    ensures var key := NamespacedKey(namespace, "readonly-" + namespace);
            ApplyAll([NamespacedReadonlyBinding(namespace)], s, rejects) ==
              (Ok(()), ClusterState(s.store[key := NamespacedReadonlyBinding(namespace)],
                                    s.patches + [PatchCall(key, "kaccess", true)]))
  {
    var bs := [NamespacedReadonlyBinding(namespace)];
    assert bs[1..] == [];
  }
}
