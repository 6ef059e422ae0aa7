/** The connection to the cluster: the configuration a client manager keeps,
    the accessors over it, the trust-bundle serialiser, and the process-wide
    client cell that may be set once. Reading kubeconfig files and building
    clients are supplied as a `Loader`. */
module Client {
  import opened Primitives
  import opened Errors
  import Csr
  import Base64
  import Pem

  const SECOND_SET_PANIC: string := "How you doing ? "
  const CLIENT_NOT_SET_PANIC: string := "Kube config is not set"
  /** Prefix of the panic message of `unwrap` on an error; the runtime
      appends the error itself after it. */
  const UNWRAP_PANIC: string := "called `Result::unwrap()` on an `Err` value"

  /** An authenticated client handle. */
  datatype KubeClient = KubeClient(id: nat)

  /** A resolved configuration: the endpoint and the trust anchors as DER certificates. */
  datatype Config = Config(clusterUrl: string, rootCert: Option<seq<seq<byte>>>)

  /** The outcomes of configuration loading and client construction. */
  datatype Loader = Loader(
    readCustom: string -> Result<Config>,     // read and convert the kubeconfig at a path
    inferred: Result<Config>,                 // the configuration found by default discovery
    clientFor: Config -> Result<KubeClient>,  // a client from a configuration
    defaultClient: Result<KubeClient>)        // a client from default discovery

  /** The process-wide client cell: empty until set, then fixed. */
  class KubeClientCell {
    var value: Option<KubeClient>

    constructor ()
      ensures value == None
    {
      value := None;
    }

    /** Stores `c` if the cell is empty; reports whether it did. */
    method Set(c: KubeClient) returns (ok: bool)
      modifies this
      ensures ok <==> old(value).None?
      ensures value == if ok then Some(c) else old(value)
    {
      ok := value.None?;
      if ok {
        value := Some(c);
      }
    }
  }

  /** The stored client; panics while the cell is empty. */
  function GetKubeClient(cell: KubeClientCell): (r: Exit<KubeClient>)
    reads cell
    ensures r.Panic? <==> cell.value.None?
    ensures r.Return? ==> cell.value == Some(r.value)
    ensures r.Panic? ==> r.message == "Kube config is not set"
  {
    match cell.value
    case None => Panic(CLIENT_NOT_SET_PANIC)
    case Some(c) => Return(c)
  }

  /** The configuration `generate_kube_client` stores: from the expanded
      custom path, or from default discovery. */
  function LoadedConfig(customConfigPath: Option<string>, env: Csr.Env, loader: Loader): Exit<Result<Config>> {
    match customConfigPath
    case Some(path) =>
      (match Csr.ResolveKubePath(path, env)
       case Panic(m) => Panic(m)
       case Return(resolved) => Return(loader.readCustom(resolved)))
    case None => Return(loader.inferred)
  }

  /** The client built from the stored configuration; default discovery
      unwraps its failure. */
  function BuiltClient(customConfigPath: Option<string>, config: Config, loader: Loader): Exit<Result<KubeClient>> {
    match customConfigPath
    case Some(_) => Return(loader.clientFor(config))
    case None =>
      if loader.defaultClient.Err? then Panic(UNWRAP_PANIC) else Return(loader.defaultClient)
  }

  class ClientManager {
    var config: Option<Config>
    var client: Option<KubeClient>

    constructor ()
      ensures config == None && client == None
    {
      config := None;
      client := None;
    }

    /** Loads the configuration, stores it, builds a client and puts it in
        the process-wide cell; a cell that is already set is a panic. */
    method GenerateKubeClient(cell: KubeClientCell, customConfigPath: Option<string>, env: Csr.Env, loader: Loader)
      returns (r: Exit<Result<KubeClient>>)
      modifies this, cell
      ensures client == old(client)
      ensures var loaded := LoadedConfig(customConfigPath, env, loader);
              && (loaded.Panic? ==> r == Panic(loaded.message) && config == old(config) && cell.value == old(cell.value))
              && (loaded.Return? && loaded.value.Err? ==>
                    r == Return(Err(loaded.value.error)) && config == old(config) && cell.value == old(cell.value))
              && (loaded.Return? && loaded.value.Ok? ==>
                    var built := BuiltClient(customConfigPath, loaded.value.value, loader);
                    && config == Some(loaded.value.value)
                    && (!(built.Return? && built.value.Ok?) ==> r == built && cell.value == old(cell.value))
                    && (built.Return? && built.value.Ok? && old(cell.value).None? ==>
                          r == built && cell.value == Some(built.value.value))
                    && (built.Return? && built.value.Ok? && old(cell.value).Some? ==>
                          r == Panic("How you doing ? ") && cell.value == old(cell.value)))
    {
      var c: KubeClient;
      match customConfigPath {
        case Some(path) =>
          var resolved := ResolveKubePath(path, env);
          if resolved.Panic? {
            return Panic(resolved.message);
          }
          var loaded := loader.readCustom(resolved.value);
          if loaded.Err? {
            return Return(Err(loaded.error));
          }
          config := Some(loaded.value);
          var built := loader.clientFor(loaded.value);
          if built.Err? {
            return Return(Err(built.error));
          }
          c := built.value;
        case None =>
          var loaded := loader.inferred;
          if loaded.Err? {
            return Return(Err(loaded.error));
          }
          config := Some(loaded.value);
          if loader.defaultClient.Err? {
            return Panic(UNWRAP_PANIC);
          }
          c := loader.defaultClient.value;
      }
      var stored := cell.Set(c);
      if !stored {
        return Panic(SECOND_SET_PANIC);
      }
      r := Return(Ok(c));
    }

    /** Expansion of a leading `~` in a configuration path; the same
        expansion as the request side performs. */
    function ResolveKubePath(inputPath: string, env: Csr.Env): (r: Exit<string>)
      ensures r == Csr.ResolveKubePath(inputPath, env)
    {
      if |inputPath| > 0 && inputPath[0] == '~' then
        var home := if env.home.Some? then env.home else env.userProfile;
        if home.None? then Panic(Csr.HOME_MISSING_MESSAGE)
        else
          var stripped := if |inputPath| >= 2 && inputPath[..2] == "~/" then inputPath[2..] else inputPath[1..];
          assert |inputPath| >= 2 ==> (inputPath[..2] == "~/" <==> inputPath[1] == '/') by {
            if |inputPath| >= 2 {
              assert inputPath[..2] == [inputPath[0], inputPath[1]];
            }
          }
          Return(Csr.PushPath(home.value, stripped))
      else
        Return(inputPath)
    }

    /** The trust anchors, or which part of the state is missing. */
    function GetRootCert(): (r: Result<seq<seq<byte>>>)
      reads this
      ensures config.None? ==> r == Err(ClientManagerConfigNotInitialized)
      ensures config.Some? && config.value.rootCert.None? ==> r == Err(ClientManagerRootCaMissing)
      ensures r.Ok? <==> config.Some? && config.value.rootCert.Some?
      ensures r.Ok? ==> r.value == config.value.rootCert.value
    {
      if config.Some? then
        if config.value.rootCert.Some? then Ok(config.value.rootCert.value)
        else Err(ClientManagerRootCaMissing)
      else
        Err(ClientManagerConfigNotInitialized)
    }

    /** The trust anchors as one base64 string: the PEM bundle of the chain,
        base64-encoded as a whole. */
    method RootCertBase64() returns (r: Result<string>)
      ensures GetRootCert().Err? ==> r == Err(GetRootCert().error)
      ensures GetRootCert().Ok? ==> r == Ok(Base64.Encode(AsciiBytes(Pem.Bundle(GetRootCert().value))))
    {
      var chain :- GetRootCert();
      var bundle: string := "";
      for i := 0 to |chain|
        invariant bundle == Pem.Bundle(chain[..i])
      {
        Pem.BundleSnoc(chain[..i], chain[i]);
        assert chain[..i + 1] == chain[..i] + [chain[i]];
        bundle := AppendPemBlock(bundle, chain[i]);
      }
      assert chain[..|chain|] == chain;
      r := Ok(Base64.Encode(AsciiBytes(bundle)));
    }

    /** The endpoint, once a configuration is stored. */
    function ClusterUrl(): (r: Result<string>)
      reads this
      ensures r.Ok? <==> config.Some?
      ensures config.None? ==> r == Err(ClientManagerConfigNotInitialized)
      ensures config.Some? ==> r.value == config.value.clusterUrl
    {
      match config
      case Some(c) => Ok(c.clusterUrl)
      case None => Err(ClientManagerConfigNotInitialized)
    }
  }

  /** Appends one certificate's PEM block to the bundle being built: the
      BEGIN line, the base64 text in lines of 64 characters, the END line. */
  method AppendPemBlock(bundle: string, der: seq<byte>) returns (out: string)
    ensures out == bundle + Pem.JoinLines(Pem.BlockLines(der))
  {
    var b64 := Base64.Encode(der);
    out := bundle + Pem.BEGIN_LINE + "\n";
    out := AppendWrapped(out, b64);
    out := out + Pem.END_LINE + "\n";
    Pem.BlockText(der);
  }

  /** Appends a text cut into lines of 64 characters, each followed by a newline. */
  method AppendWrapped(prefix: string, text: string) returns (out: string)
    ensures out == prefix + Pem.JoinLines(Pem.Chunks(text))
  {
    out := prefix;
    ghost var lines: seq<string> := [];
    var pos := 0;
    assert text[pos..] == text;
    while pos < |text|
      invariant pos <= |text|
      invariant out == prefix + Pem.JoinLines(lines)
      invariant lines + Pem.Chunks(text[pos..]) == Pem.Chunks(text)
    {
      var end := if pos + Pem.LINE_WIDTH <= |text| then pos + Pem.LINE_WIDTH else |text|;
      Pem.WrapStep(lines, text, pos, end);
      Pem.WrapOut(prefix, lines, text[pos..end], out);
      out := out + text[pos..end];
      out := out + "\n";
      lines := lines + [text[pos..end]];
      pos := end;
    }
    assert text[pos..] == [];
    assert lines == Pem.Chunks(text);
  }

  /** Decoding the trust-bundle string gives back the PEM bundle, whose blocks
      parse back to the certificate chain in order. */
  lemma TrustBundleRoundTrip(certs: seq<seq<byte>>)
    ensures var bundle := Pem.Bundle(certs);
            var decoded := Base64.Decode(Base64.Encode(AsciiBytes(bundle)));
            && decoded == Some(AsciiBytes(bundle))
            && (forall i :: 0 <= i < |decoded.value| ==> decoded.value[i] < 0x80)
            && AsciiString(decoded.value) == bundle
            && Pem.ParseBundle(AsciiString(decoded.value)) == Some(certs)
  {
    var bundle := Pem.Bundle(certs);
    Base64.DecodeEncode(AsciiBytes(bundle));
    AsciiRoundTrip(bundle);
    Pem.BundleRoundTrip(certs);
  }

  /** A configuration with an empty trust-anchor list yields the empty string, not an error. */
  lemma EmptyRootCertList()
    ensures Base64.Encode(AsciiBytes(Pem.Bundle([]))) == ""
  {
  }

  /** One process: the cell starts empty, so the client cannot be read before
      a successful generation; after one it can; a second generation in the
      same process never returns a client. */
  method ProcessLifecycle(first: Option<string>, second: Option<string>, env: Csr.Env, loader: Loader)
    returns (before: Exit<KubeClient>, r1: Exit<Result<KubeClient>>, after: Exit<KubeClient>, r2: Exit<Result<KubeClient>>)
    ensures before == Panic("Kube config is not set")
    ensures r1.Return? && r1.value.Ok? ==> after == Return(r1.value.value)
    ensures r1.Return? && r1.value.Ok? ==> !(r2.Return? && r2.value.Ok?)
  {
    var cell := new KubeClientCell();
    before := GetKubeClient(cell);
    var manager := new ClientManager();
    r1 := manager.GenerateKubeClient(cell, first, env, loader);
    after := GetKubeClient(cell);
    r2 := manager.GenerateKubeClient(cell, second, env, loader);
  }
}
