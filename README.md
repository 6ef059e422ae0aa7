# coral-gate core, modelled in Dafny

coral-gate is a command-line tool that issues short-lived, restricted
kubeconfigs for a Kubernetes cluster. The model covers the four parts of its core:

- **Issuing a client certificate** (`csr.dfy`, module `Csr`). It builds the
  certificate subject (organization = group, common name = user, no subject
  alternative names). It builds the `CertificateSigningRequest` object: name
  `<user>-csr`, three labels, the `kube-apiserver-client` signer, the
  `client auth` usage, and an expiration of `expire * 3600` seconds computed
  in `i32`. It expands a leading `~` in a configuration path. It polls up to
  32 times for the signed certificate and gives up with a timeout error.
- **Authorization profiles** (`profile.dfy`, module `Profiles`). A profile
  is a named, ordered list of role bindings. Applying it patches each binding
  in turn: a forced server-side apply under the field manager `kaccess`,
  stopping at the first error. The three built-in profiles are `admin`,
  `cluster-readonly` and `readonly-<namespace>`. The cluster is a `Cluster`
  object: a store keyed by scope, namespace and name, a log of the patch
  calls it received, and the keys whose patches it refuses. The functions
  `ApplyOne` and `ApplyAll` specify the methods over its state.
- **The cluster connection** (`client.dfy`, module `Client`).
  - `ClientManager` keeps the loaded configuration. It reports the endpoint and the trust anchors.
  - `RootCertBase64` turns the DER trust anchors into a PEM bundle and encodes that bundle in base64.
  - The process-wide client lives in a set-once cell. Setting it twice panics; reading it before it is set panics.
- **Command-line vocabulary** (`structure.dfy`, module `Structure`): the profile selector, its names, and the defaults.

Supporting modules:

- `primitives.dfy`: `Option`, `byte`, `i32` with explicit two's-complement wrap-around, and ASCII bytes.
- `errors.dfy`: the tool's error type, `Result`, and `Exit`. `Exit` is either a return value or a panic with its message.
- `base64.dfy`: base64 with the standard alphabet and padding (section 4 of RFC 4648), with a strict decoder that inverts it.
- `pem.dfy`: the certificate bundle layout of section 2 of RFC 7468 (BEGIN line, base64 wrapped at 64 characters, END line), with a parser that inverts it.

The cluster API, the kubeconfig loader, the environment and the clock become explicit inputs:

- The poll receives `fetch: nat -> FetchOutcome`, the outcome of each get call. It returns the number of fetches made and the seconds slept.
- Path expansion receives the `HOME` and `USERPROFILE` variables as an `Env`.
- Client generation receives a `Loader`. It holds the outcome of reading a kubeconfig at a path, of default discovery, and of building a client.

The code reads `gen_args.group` at `src/core/csr.rs:67`, but the `GenerateArgs` struct at `src/command/structure.rs:71-88` declares no `group` field. The model follows the code that reads it: `Structure.GenerateArgs` has a `group` field.

The error type adds two variants that `src/core/client.rs` returns but `src/error.rs` does not list: `ClientManagerRootCaMissing` and `ClientManagerConfigNotInitialized`.

## Model

| member | source | states |
|---|---|---|
| Primitives.WrapI32 | src/core/csr.rs:81 | The `i32` result equals the mathematical value when it fits, and is congruent to it modulo 2^32 always (release-build multiplication). |
| Primitives.AsciiRoundTrip | src/core/client.rs:100 | The UTF-8 bytes of an ASCII string are all below 0x80, and reading them back as a string gives the same string. |
| Structure.AsStr | src/command/structure.rs:59-64 | A selector's name is `admin` exactly for `Admin` and `cluster-readonly` exactly for `ClusterReadonly`. |
| Structure.AsStrInjective | src/command/structure.rs:59-64 | Two selectors have the same name if and only if they are the same selector. |
| Csr.PushDn | src/core/csr.rs:30-31 | Pushing an attribute keeps the name well formed (one value per type, order = types present). It sets that type's value, leaves every other entry as it was, and keeps the earlier order as a prefix. |
| Csr.SubjectParams | src/core/csr.rs:27-34 | The subject has exactly O = group then CN = user, in that order, and no subject alternative names. |
| Csr.GenerateLabels | src/core/csr.rs:46-57 | The labels are present and have exactly three keys: `created-by` = `coralgate`, `user` = the user, `group` = the group. |
| Csr.ExpirationSeconds | src/core/csr.rs:81 | `expire * 3600` in `i32` is exact if and only if -596523 <= expire <= 596523, and otherwise wraps modulo 2^32. |
| Csr.GenerateCsrObject | src/core/csr.rs:63-92 | Never fails. Name is `<user>-csr`; labels as above; the request carries the PEM bytes unchanged; signer is `kubernetes.io/kube-apiserver-client`; usages are `["client auth"]`; the expiration is the `i32` product `expire * 3600` (`ExpirationSeconds`, wrapped past the bound), which equals the true product whenever that fits in `i32`. |
| Csr.DefaultValidityExpiration | src/command/structure.rs:5 | With the default validity of 24 * 30 hours, the request asks for 2592000 seconds. |
| Csr.ExpirationWrapsPastBound | src/core/csr.rs:81 | An expiry of 596524 hours wraps to the negative duration -2147480896. |
| Csr.PushPath | src/core/csr.rs:105 | An absolute part replaces the path. Otherwise the result is base + `/` + part when the base is non-empty and does not end in `/`, and base + part (no separator added) when the base is empty or already ends in `/`. |
| Csr.TildeRest | src/core/csr.rs:102-104 | Exactly the leading `~/` is stripped when present, and otherwise exactly the leading `~`: the input is `"~/" + r` or `"~" + r` accordingly. |
| Csr.ResolveKubePath | src/core/csr.rs:95-110 | A path without a leading `~` is returned unchanged. With one, it panics with the "could not find home directory" message if and only if both HOME and USERPROFILE are unset. Otherwise it is the rest pushed onto HOME, or onto USERPROFILE when HOME is unset. |
| Csr.TildeFormsAgree | src/core/csr.rs:102-105 | For a relative rest, `~/rest` and `~rest` resolve to the same path: the home directory with `rest` pushed onto it, or a panic when no home is set. |
| Csr.DefaultKubeconfigResolution | src/command/structure.rs:4 | The default `~/.kube/config` resolves to `.kube/config` pushed onto the home directory: `<home>/.kube/config`, or `<home>.kube/config` when the home is empty or ends in `/` (so `HOME=/` gives `/.kube/config`). |
| Csr.GetSignedCertificate | src/core/csr.rs:156-175 | Makes between 1 and 32 fetches and stops at the first one that carries a certificate. It succeeds if and only if one of the first 32 fetches carries a certificate, and then returns that certificate. Otherwise it returns the timeout error after exactly 32 fetches. Time slept is one second per fetch that succeeded without a certificate, plus 30 seconds on timeout. |
| Csr.PendingWaitCounts | src/core/csr.rs:160-168 | The time slept over n fetches equals the number of those fetches that returned an object without a certificate. |
| Csr.FailedFetchesDoNotWait | src/core/csr.rs:161-168 | If every fetch fails, the poll does not sleep between fetches. |
| Csr.PendingWaitBound | src/core/csr.rs:160-168 | At most one second is slept per fetch. |
| Base64.CharToIndex | src/core/client.rs:88 | Every alphabet character has a six-bit value. |
| Base64.IndexToChar | src/core/client.rs:88 | Every six-bit value has an alphabet character, and `CharToIndex` maps it back. |
| Base64.Encode | src/core/client.rs:88 | The encoding is 4 * ceil(n / 3) characters long, and each character is in the alphabet or is the pad. |
| Base64.DecodeEncode | src/core/client.rs:100 | Decoding the encoding of any byte string gives that byte string back. |
| Pem.Chunks | src/core/client.rs:92-95 | The chunks concatenate to the input. Each has 1 to 64 characters and all but the last have exactly 64. There are ceil(n / 64) of them. Chunks of base64 text are base64 text, so the UTF-8 conversion of each chunk cannot fail. |
| Pem.JoinLines | src/core/client.rs:92-95 | Lines of ASCII text give ASCII text. |
| Pem.Bundle | src/core/client.rs:85-98 | The PEM bundle is ASCII. |
| Pem.BlockText | src/core/client.rs:90-97 | A certificate's block is the BEGIN line, the wrapped base64 lines, and the END line, each ending in a newline. |
| Pem.BundleSnoc | src/core/client.rs:87-98 | Adding a certificate to the chain appends its block to the bundle, so blocks appear in chain order. |
| Pem.EmptyCertificateBlock | src/core/client.rs:90-97 | An empty certificate gives a BEGIN line directly followed by an END line. |
| Pem.BundleRoundTrip | src/core/client.rs:85-98 | Parsing the bundle gives back the certificate chain, in order. |
| Client.KubeClientCell.constructor | src/core/client.rs:7 | The process-wide cell starts empty. |
| Client.KubeClientCell.Set | src/core/client.rs:47-49 | Setting succeeds if and only if the cell was empty, and then the cell holds the client. Otherwise the cell is unchanged. |
| Client.GetKubeClient | src/core/client.rs:17-19 | Panics with "Kube config is not set" if and only if the cell is empty; otherwise returns the stored client. |
| Client.ClientManager.constructor | src/core/client.rs:10-14 | A new manager holds neither a configuration nor a client. |
| Client.ClientManager.GenerateKubeClient | src/core/client.rs:21-52 | A panic while expanding the path, or a loading error, changes nothing. A loaded configuration is stored even when building the client then fails. With default discovery, a client failure panics. A built client is stored in the cell if the cell was empty and returned. If the cell was already set, it panics with "How you doing ? " and the cell is unchanged. The `client` field is never written. |
| Client.ClientManager.ResolveKubePath | src/core/client.rs:54-69 | Agrees with `Csr.ResolveKubePath` on every input and environment. |
| Client.ClientManager.GetRootCert | src/core/client.rs:71-81 | Returns the trust anchors exactly when a configuration with trust anchors is stored. Otherwise it returns `ClientManagerConfigNotInitialized` when no configuration is stored, or `ClientManagerRootCaMissing` when the configuration has none. |
| Client.ClientManager.RootCertBase64 | src/core/client.rs:83-101 | Propagates `GetRootCert`'s error. Otherwise returns the base64 of the PEM bundle of the chain, blocks in chain order. |
| Client.ClientManager.ClusterUrl | src/core/client.rs:103-108 | Returns the stored configuration's endpoint, or `ClientManagerConfigNotInitialized` when none is stored. |
| Client.AppendPemBlock | src/core/client.rs:88-97 | Appends exactly one certificate's block (BEGIN line, wrapped base64 lines, END line) to the bundle built so far. |
| Client.AppendWrapped | src/core/client.rs:92-95 | Appends the text as lines of at most 64 characters, each followed by a newline. |
| Client.TrustBundleRoundTrip | src/core/client.rs:83-101 | Decoding the base64 string gives the bundle's bytes, which are ASCII and read back as the bundle. Parsing that bundle gives the chain back. |
| Client.EmptyRootCertList | src/core/client.rs:83-101 | An empty trust-anchor list gives the empty string, not an error. |
| Client.ProcessLifecycle | src/core/client.rs:17-52 | In one process the client cannot be read before a successful generation. After one, it reads back that generation's client. A second generation never returns a client. |
| Profiles.Identity | src/core/profile.rs:38-69 | A binding has a key if and only if its name is present and, for a RoleBinding, its namespace too. The key has the binding's scope, name and namespace. The errors are `MissingName("Cluster Role binding")`; for a RoleBinding, the namespace is checked first (`MissingNamespace("Role binding")`), then the name (`MissingName("Role Binding")`). |
| Profiles.ApplyOneOk | src/core/profile.rs:34-80 | Applying one binding succeeds if and only if its identity is complete and the cluster accepts the patch. A missing identity fails with its error and changes nothing. |
| Profiles.ApplyAllOkIff | src/core/profile.rs:24-30 | Applying a profile succeeds if and only if every binding goes through. |
| Profiles.ApplyAllSucceeds | src/core/profile.rs:24-30 | When every binding goes through, the store gets each binding upserted under its key in declared order. The cluster receives exactly one forced `kaccess` patch per binding, in order. |
| Profiles.FailFast | src/core/profile.rs:24-30 | A failed run has a first failing binding k. Every binding before it goes through. The run is the clean run of the first k bindings followed by binding k's attempt. Its error is the result, and nothing after binding k is attempted. |
| Profiles.UpsertAllUnion | src/core/profile.rs:24-30 | The bindings' upserts land on top of whatever the store held before. |
| Profiles.UpsertAllIdempotent | src/core/profile.rs:44-48 | Upserting the same bindings twice leaves the store as upserting them once (server-side apply is idempotent on the store). |
| Profiles.ApplyTwice | src/core/profile.rs:24-30 | Re-applying a profile that applied cleanly succeeds and leaves the store unchanged; only the patch calls are repeated. |
| Profiles.UpsertAllKeeps | src/core/profile.rs:24-30 | Entries under keys that no binding uses are kept. |
| Profiles.UpsertAllAt | src/core/profile.rs:24-30 | A binding is stored under its own key unless a later binding reuses that key. |
| Profiles.ApplyStoresEach | src/core/profile.rs:24-30 | After a clean run, each binding not overridden by a later one with the same key is stored under its key. |
| Profiles.Cluster.Patch | src/core/profile.rs:44-49 | Every patch call is logged. A refused key returns an API error and leaves the store unchanged; otherwise the binding is upserted under the key. |
| Profiles.ApplyClusterRoleBinding | src/core/profile.rs:34-53 | Result and new cluster state are `ApplyOne`'s: missing name → `MissingName`, else one forced patch under `kaccess`. |
| Profiles.ApplyRoleBinding | src/core/profile.rs:55-80 | Result and new cluster state are `ApplyOne`'s: missing namespace, then missing name, else one forced patch under `kaccess` in the namespace. |
| Profiles.ApplyBinding | src/core/profile.rs:8-11 | Applying any binding dispatches to its kind's apply, with `ApplyOne`'s result and state. |
| Profiles.Profile.constructor | src/core/profile.rs:13-17 | A profile holds the given name and bindings. |
| Profiles.Profile.AddResource | src/core/profile.rs:20-22 | Appends the binding at the end and keeps the name. |
| Profiles.Profile.Apply | src/core/profile.rs:24-30 | Result and new cluster state are `ApplyAll`'s over the profile's bindings: in order, stopping at the first error. |
| Profiles.AdminProfile | src/core/profile.rs:82-105 | The profile is named `admin`, the same name as the `Admin` selector. It holds one ClusterRoleBinding `cluster-admin-binding` of group `cluster-admins` to `cluster-admin`. |
| Profiles.ClusterReadonlyProfile | src/core/profile.rs:107-130 | The profile is named `cluster-readonly`, the same name as the `ClusterReadonly` selector. It holds one ClusterRoleBinding `cluster-readonly-binding` of group `cluster-readonly` to `view`. |
| Profiles.NamespacedReadonly | src/core/profile.rs:132-156 | The profile is named `readonly-<namespace>`. It holds one RoleBinding of that name in the namespace, binding group `readonly-<namespace>` to `view`. |
| Profiles.BuiltinIdentities | src/core/profile.rs:82-156 | The built-in bindings have complete identities, so they can fail only at the patch. |
| Profiles.ApplyNamespacedReadonly | src/core/profile.rs:132-156 | If the cluster accepts it, applying the namespaced read-only profile stores its binding under `readonly-<namespace>` in that namespace, after one forced `kaccess` patch call. |

## Left out

- Key generation and signing of the request (`generate_certificate` with RSA-2048 at `src/core/csr.rs:23-43`) belong to the certificate library. The model keeps the subject set-up (`Csr.SubjectParams`) and treats the request's PEM text as opaque bytes.
- The `create` and `approve` calls (`src/core/csr.rs:112-153`) are thin API calls that unwrap their results, with an approval condition stamped with the wall-clock time. They hold no logic beyond the call.
- Sleeping is modelled as a count of seconds, and the get calls as the `fetch` outcome sequence. Asynchronous execution and concurrency are not modelled.
- Reading a kubeconfig file, converting it into a configuration, default discovery and building a client are supplied as the `Loader` outcomes. The `?` on `from_custom_kubeconfig` and `Client::try_from` is modelled as the loader returning `Err`.
- `Csr.PushPath` models `PathBuf::push` with Unix separators only. Windows drive prefixes and `\` separators are not modelled.
- `Csr.ExpirationSeconds` models the release-build wrap-around of `expire * 3600`. A debug build panics on the overflow instead.
- Environment variables that are set but are not valid Unicode behave in the source like unset ones. The model's `Env` has only "set to a string" and "unset".
- `Profiles.Cluster.Patch` models a forced server-side apply as replacement of the stored binding. Field-level merging by the API server and the API server's own validation are left out; refusal is the `rejects` set.
- `Profiles.Binding` stands for the two trait-object resource types of a profile. Other implementors of `Apply` do not exist in the source.
- The unused `KUBE_CONFIG` cell (`src/core/client.rs:8`) and the never-written `client` field of `ClientManager` carry no behaviour. The field is modelled only as the `client` field that `GenerateKubeClient` leaves unchanged.
- The command-line parser, `main`, the `generate` and `setup` command handlers, and configuration loading for the tool itself are not part of this model.
- Error display strings are not modelled. Errors are compared by variant and payload.
