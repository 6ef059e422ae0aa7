/** The certificate-signing-request side of issuance: the subject of the
    request, the request object sent to the cluster, expansion of a leading
    `~` in a configuration path, and bounded polling for the signed result. */
module Csr {
  import opened Primitives
  import opened Errors
  import opened Structure

  /** Number of fetches the poll makes before giving up. */
  const DEFAULT_RETRY_COUNT: nat := 32
  /** Seconds slept after a fetch that succeeded but carried no certificate. */
  const POLL_INTERVAL_SECONDS: nat := 1
  /** Seconds slept once the fetch budget is exhausted, before failing. */
  const TIMEOUT_COOLDOWN_SECONDS: nat := 30
  const TIMEOUT_MESSAGE: string := "Timed out getting signed certificate"
  const SIGNER_NAME: string := "kubernetes.io/kube-apiserver-client"
  const CLIENT_AUTH_USAGE: string := "client auth"
  const SECONDS_PER_HOUR: int := 3600
  /** Prefix of the panic message when no home directory is set; the
      runtime appends the lookup error after it. */
  const HOME_MISSING_MESSAGE: string := "Could not find home directory environment variable"

  // ---------------------------------------------------------------------
  // Subject of the signing request

  datatype DnType = OrganizationName | CommonName

  /** A distinguished name as the certificate library keeps it: one value per
      attribute type, and the order in which the types were first pushed. */
  datatype DistinguishedName = DistinguishedName(order: seq<DnType>, entries: map<DnType, string>)

  /** Every type occurs once in `order`, and exactly the types of `order` have a value. */
  predicate WellFormed(dn: DistinguishedName) {
    && (forall i, j :: 0 <= i < j < |dn.order| ==> dn.order[i] != dn.order[j])
    && (forall t :: t in dn.entries <==> t in dn.order)
  }

  const EMPTY_DN: DistinguishedName := DistinguishedName([], map[])

  /** Sets the value of one attribute type; a type seen for the first time goes last. */
  function PushDn(dn: DistinguishedName, ty: DnType, value: string): (r: DistinguishedName)
    requires WellFormed(dn)
    ensures WellFormed(r)
    ensures ty in r.entries && r.entries[ty] == value
    ensures forall t :: t != ty ==> (t in r.entries <==> t in dn.entries)
    ensures forall t :: t != ty && t in dn.entries ==> r.entries[t] == dn.entries[t]
    ensures |dn.order| <= |r.order| && r.order[..|dn.order|] == dn.order
  {
    if ty in dn.entries then
      dn.(entries := dn.entries[ty := value])
    else
      DistinguishedName(dn.order + [ty], dn.entries[ty := value])
  }

  datatype CertificateParams = CertificateParams(distinguishedName: DistinguishedName, subjectAltNames: seq<string>)

  /** The subject set up before the request is signed: organization = group,
      then common name = user, and no subject alternative names. */
  function SubjectParams(user: string, group: string): (p: CertificateParams)
    ensures WellFormed(p.distinguishedName)
    ensures p.distinguishedName.order == [OrganizationName, CommonName]
    ensures p.distinguishedName.entries == map[OrganizationName := group, CommonName := user]
    ensures p.subjectAltNames == []
  {
    var dn := PushDn(PushDn(EMPTY_DN, OrganizationName, group), CommonName, user);
    CertificateParams(dn, [])
  }

  // ---------------------------------------------------------------------
  // The request object

  /** The labels attached to the request object. */
  function GenerateLabels(user: string, group: string): (r: Option<map<string, string>>)
    ensures r.Some?
    ensures r.value.Keys == {"created-by", "user", "group"} && |r.value| == 3
    ensures r.value["created-by"] == "coralgate"
    ensures r.value["user"] == user && r.value["group"] == group
  {
    Some(map["created-by" := "coralgate", "user" := user, "group" := group])
  }

  datatype ObjectMeta = ObjectMeta(name: Option<string>, labels: Option<map<string, string>>)

  datatype CsrSpec = CsrSpec(
    request: seq<byte>,
    signerName: string,
    usages: Option<seq<string>>,
    expirationSeconds: Option<i32>)

  datatype CertificateSigningRequest = CertificateSigningRequest(metadata: ObjectMeta, spec: CsrSpec)

  /** `expire * 3600` computed in `i32`: exact exactly when the product fits. */
  function ExpirationSeconds(expire: i32): (r: i32)
    ensures r as int == expire as int * 3600 <==> -596523 <= expire <= 596523
    ensures (r as int - expire as int * 3600) % 0x1_0000_0000 == 0
  {
    WrapI32(expire as int * SECONDS_PER_HOUR)
  }

  /** The request object for a user; `requestPem` is the PEM text of the signed
      PKCS#10 request, which the model treats as opaque bytes. */
  function GenerateCsrObject(args: GenerateArgs, requestPem: seq<byte>): (r: Result<CertificateSigningRequest>)
    ensures r.Ok?
    ensures r.value.metadata.name == Some(args.user + "-csr")
    ensures r.value.metadata.labels.Some?
    ensures r.value.metadata.labels.value ==
              map["created-by" := "coralgate", "user" := args.user, "group" := args.group]
    ensures r.value.spec.request == requestPem
    ensures r.value.spec.signerName == "kubernetes.io/kube-apiserver-client"
    ensures r.value.spec.usages == Some(["client auth"])
    ensures r.value.spec.expirationSeconds == Some(ExpirationSeconds(args.expire))
    ensures -596523 <= args.expire <= 596523 ==>
              r.value.spec.expirationSeconds.value as int == args.expire as int * 3600
  {
    var labels := GenerateLabels(args.user, args.group);
    var metadata := ObjectMeta(Some(args.user + "-csr"), labels);
    var spec := CsrSpec(requestPem, SIGNER_NAME, Some([CLIENT_AUTH_USAGE]), Some(ExpirationSeconds(args.expire)));
    Ok(CertificateSigningRequest(metadata, spec))
  }

  /** The default validity fits in `i32` and asks for thirty days in seconds. */
  lemma DefaultValidityExpiration(args: GenerateArgs, requestPem: seq<byte>)
    requires args.expire == DEFAULT_VALIDITY_HOURS
    ensures GenerateCsrObject(args, requestPem).value.spec.expirationSeconds == Some(2592000)
  {
  }

  /** Just past the bound the product wraps around to a negative duration. */
  lemma ExpirationWrapsPastBound()
    ensures ExpirationSeconds(596524) == -2147480896
  {
  }

  // ---------------------------------------------------------------------
  // Home-directory expansion of a configuration path

  /** The environment variables path expansion consults (`None`: not set). */
  datatype Env = Env(home: Option<string>, userProfile: Option<string>)

  /** `HOME`, or `USERPROFILE` when `HOME` is not set. */
  function HomeDir(env: Env): Option<string> {
    if env.home.Some? then env.home else env.userProfile
  }

  predicate IsAbsolute(p: string) {
    |p| > 0 && p[0] == '/'
  }

  /** `PathBuf::push` with Unix separators: an absolute part replaces the
      path; otherwise a `/` is inserted unless the path is empty or already
      ends in one. */
  function PushPath(base: string, part: string): (r: string)
    ensures IsAbsolute(part) ==> r == part
    ensures |part| <= |r| && r[|r| - |part|..] == part
    ensures !IsAbsolute(part) ==> |base| <= |r| <= |base| + 1 + |part| && r[..|base|] == base
    ensures !IsAbsolute(part) && |base| > 0 && base[|base| - 1] != '/' ==> r == base + "/" + part
    ensures !IsAbsolute(part) && (|base| == 0 || base[|base| - 1] == '/') ==> r == base + part
  {
    if IsAbsolute(part) then part
    else if |base| > 0 && base[|base| - 1] != '/' then base + "/" + part
    else base + part
  }

  predicate StartsWithTilde(s: string) {
    |s| > 0 && s[0] == '~'
  }

  /** What follows `~/`, or else what follows `~`. */
  function TildeRest(s: string): (r: string)
    requires StartsWithTilde(s)
    ensures |r| < |s| && s[|s| - |r|..] == r
    ensures |s| >= 2 && s[1] == '/' ==> s == "~/" + r
    ensures !(|s| >= 2 && s[1] == '/') ==> s == "~" + r
  {
    if |s| >= 2 && s[1] == '/' then s[2..] else s[1..]
  }

  /** A path starting with `~` is taken relative to the home directory; any
      other path is returned unchanged. */
  function ResolveKubePath(input: string, env: Env): (r: Exit<string>)
    ensures !StartsWithTilde(input) ==> r == Return(input)
    ensures StartsWithTilde(input) ==> (r.Panic? <==> env.home.None? && env.userProfile.None?)
    ensures r.Panic? ==> r.message == "Could not find home directory environment variable"
    ensures StartsWithTilde(input) && env.home.Some? ==>
              r == Return(PushPath(env.home.value, TildeRest(input)))
    ensures StartsWithTilde(input) && env.home.None? && env.userProfile.Some? ==>
              r == Return(PushPath(env.userProfile.value, TildeRest(input)))
  {
    if StartsWithTilde(input) then
      match HomeDir(env)
      case None => Panic(HOME_MISSING_MESSAGE)
      case Some(home) => Return(PushPath(home, TildeRest(input)))
    else
      Return(input)
  }

  /** `~/rest` and `~rest` name the same file. */
  lemma TildeFormsAgree(rest: string, env: Env)
    requires !IsAbsolute(rest)
    ensures ResolveKubePath("~/" + rest, env) == ResolveKubePath("~" + rest, env)
    ensures HomeDir(env).Some? ==> ResolveKubePath("~/" + rest, env) == Return(PushPath(HomeDir(env).value, rest))
    ensures HomeDir(env).None? ==> ResolveKubePath("~/" + rest, env).Panic?
  {
    assert ("~/" + rest)[2..] == rest;
    assert ("~" + rest)[1..] == rest;
  }

  /** The default configuration path lands in `.kube/config` under the home
      directory, with a separator only when the home does not end in one. */
  lemma DefaultKubeconfigResolution(env: Env, home: string)
    requires HomeDir(env) == Some(home)
    ensures ResolveKubePath(DEFAULT_KUBECONFIG, env) == Return(PushPath(home, ".kube/config"))
    ensures |home| > 0 && home[|home| - 1] != '/' ==>
              ResolveKubePath(DEFAULT_KUBECONFIG, env) == Return(home + "/.kube/config")
    ensures (|home| == 0 || home[|home| - 1] == '/') ==>
              ResolveKubePath(DEFAULT_KUBECONFIG, env) == Return(home + ".kube/config")
  {
    var rest := TildeRest(DEFAULT_KUBECONFIG);
    assert rest == ".kube/config";
    assert !IsAbsolute(rest);
    if |home| > 0 && home[|home| - 1] != '/' {
      assert PushPath(home, rest) == home + "/" + rest;
      assert home + "/" + rest == home + "/.kube/config";
    }
  }

  // ---------------------------------------------------------------------
  // Polling for the signed certificate

  /** What one fetch of the request object by name gives. */
  datatype FetchOutcome =
    | FetchFailed                   // the get call returned an error
    | NoStatus                      // the object has no status yet
    | NoCertificate                 // the status carries no certificate yet
    | Certificate(cert: seq<byte>)  // the status carries the signed certificate

  predicate Unsigned(o: FetchOutcome) {
    o == NoStatus || o == NoCertificate
  }

  /** Seconds slept over the first `n` fetches when none of them carried a certificate. */
  function PendingWait(fetch: nat -> FetchOutcome, n: nat): nat {
    if n == 0 then 0
    else PendingWait(fetch, n - 1) + (if Unsigned(fetch(n - 1)) then POLL_INTERVAL_SECONDS else 0)
  }

  /** Polls for the signed certificate; `fetch(i)` is the outcome of the
      `i`-th get call. Returns the result, the number of fetches made and the
      seconds slept. */
  method GetSignedCertificate(fetch: nat -> FetchOutcome) returns (r: Result<seq<byte>>, fetches: nat, elapsed: nat)
    ensures 1 <= fetches <= DEFAULT_RETRY_COUNT
    ensures forall k :: 0 <= k < fetches - 1 ==> !fetch(k).Certificate?
    ensures r.Ok? <==> exists k :: 0 <= k < DEFAULT_RETRY_COUNT && fetch(k).Certificate?
    ensures r.Ok? ==> && fetch(fetches - 1).Certificate?
                      && r.value == fetch(fetches - 1).cert
                      && elapsed == PendingWait(fetch, fetches - 1)
    ensures r.Err? ==> && fetches == DEFAULT_RETRY_COUNT
                       && r.error == TimeoutError("Timed out getting signed certificate")
                       && elapsed == PendingWait(fetch, DEFAULT_RETRY_COUNT) + 30
  {
    fetches, elapsed := 0, 0;
    var i := 0;
    while i < DEFAULT_RETRY_COUNT
      invariant i <= DEFAULT_RETRY_COUNT
      invariant fetches == i
      invariant forall k :: 0 <= k < i ==> !fetch(k).Certificate?
      invariant elapsed == PendingWait(fetch, i)
    {
      var outcome := fetch(i);
      fetches := fetches + 1;
      match outcome {
        case Certificate(cert) =>
          r := Ok(cert);
          assert fetch(i).Certificate? && 0 <= i < DEFAULT_RETRY_COUNT;
          return;
        case NoStatus =>
          elapsed := elapsed + POLL_INTERVAL_SECONDS;
        case NoCertificate =>
          elapsed := elapsed + POLL_INTERVAL_SECONDS;
        case FetchFailed =>
      }
      assert elapsed == PendingWait(fetch, i + 1);
      i := i + 1;
    }
    assert !exists k :: 0 <= k < DEFAULT_RETRY_COUNT && fetch(k).Certificate?;
    elapsed := elapsed + TIMEOUT_COOLDOWN_SECONDS;
    r := Err(TimeoutError(TIMEOUT_MESSAGE));
  }

  /** The waiting is one second per fetch that succeeded without a certificate:
      an independent count of those fetches. */
  lemma {:induction false} PendingWaitCounts(fetch: nat -> FetchOutcome, n: nat)
    ensures PendingWait(fetch, n) == |set k | 0 <= k < n && Unsigned(fetch(k))|
  {
    if n > 0 {
      PendingWaitCounts(fetch, n - 1);
      var before := set k | 0 <= k < n - 1 && Unsigned(fetch(k));
      var now := set k | 0 <= k < n && Unsigned(fetch(k));
      if Unsigned(fetch(n - 1)) {
        assert now == before + {n - 1};
      } else {
        assert now == before;
      }
    }
  }

  /** Failed fetches add no wait: if every fetch fails, only the cooldown is slept. */
  lemma {:induction false} FailedFetchesDoNotWait(fetch: nat -> FetchOutcome, n: nat)
    requires forall k :: 0 <= k < n ==> fetch(k) == FetchFailed
    ensures PendingWait(fetch, n) == 0
  {
    if n > 0 {
      FailedFetchesDoNotWait(fetch, n - 1);
    }
  }

  /** At most one second is slept per fetch. */
  lemma {:induction false} PendingWaitBound(fetch: nat -> FetchOutcome, n: nat)
    ensures PendingWait(fetch, n) <= n
  {
    if n > 0 {
      PendingWaitBound(fetch, n - 1);
    }
  }
}
