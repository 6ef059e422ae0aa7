/** Command-line vocabulary the core depends on: the profile selector and the
    default values of the `generate` arguments. */
module Structure {
  import opened Primitives

  /** Path of the connection configuration used when none is given. */
  const DEFAULT_KUBECONFIG: string := "~/.kube/config"

  /** Validity of an issued credential when none is given: thirty days, in hours. */
  const DEFAULT_VALIDITY_HOURS: i32 := 24 * 30

  /** The `--profile` selector of `generate`. */
  datatype PermissionProfile = ClusterReadonly | Admin

  /** The profile name a selector stands for; distinct selectors give distinct names. */
  function AsStr(p: PermissionProfile): (s: string)
    ensures s == "admin" <==> p == Admin
    ensures s == "cluster-readonly" <==> p == ClusterReadonly
  {
    match p
    case Admin => "admin"
    case ClusterReadonly => "cluster-readonly"
  }

  lemma AsStrInjective(p: PermissionProfile, q: PermissionProfile)
    ensures AsStr(p) == AsStr(q) <==> p == q
  {
  }

  /** The arguments of `generate`. The request builder reads `user`, `group`
      and `expire`; the rest is carried for the command handler. */
  datatype GenerateArgs = GenerateArgs(
    kubeconfig: Option<string>,
    namespace: Option<string>,
    user: string,
    group: string,
    output: string,
    expire: i32,
    profile: PermissionProfile)
}
