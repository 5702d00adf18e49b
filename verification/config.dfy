/**
 * `GetConfig`: turns the Tinkerbell plugin specification into the driver's connection
 * configuration. The kubeconfig is either embedded in the specification, in which case
 * it must be standard base64 and is decoded, or it is resolved through the caller's
 * lookup function (environment variable or secret reference), in which case it is taken
 * as returned. The cluster name, OS image URL and Hegel (metadata service) URL are
 * resolved through the lookup function, in that order, and finally a REST client
 * configuration is built from the kubeconfig.
 *
 * The lookup function and the kubeconfig parser (`clientcmd.RESTConfigFromKubeConfig`)
 * are not part of this model: both are parameters, the parser's result type `R` is
 * left abstract.
 */
module TinkConfig {
  import opened Outcome
  import Base64

  /** The text of an underlying Go error. */
  type Cause = string

  /** A configuration value: a literal, or a reference the lookup function resolves. */
  datatype ConfigVarString = ConfigVarString(value: string, reference: string)

  /** The fields of the plugin specification that `GetConfig` reads. */
  datatype PluginSpec = PluginSpec(
    kubeconfig: ConfigVarString,   // Auth.Kubeconfig
    clusterName: ConfigVarString,
    osImageURL: ConfigVarString,
    hegelURL: ConfigVarString)

  datatype Config<R> = Config(
    kubeconfig: string,
    clusterName: string,
    osImageURL: string,
    hegelURL: string,
    restConfig: R)

  /** Which step failed; the lookup and parser errors are wrapped. */
  datatype ConfigError =
    | KubeconfigNotBase64              // embedded kubeconfig is not standard base64
    | KubeconfigLookupFailed(cause: Cause)
    | ClusterNameLookupFailed(cause: Cause)
    | OSImageURLLookupFailed(cause: Cause)
    | HegelURLLookupFailed(cause: Cause)
    | KubeconfigUnparsable(cause: Cause) // the REST configuration could not be built

  /** The caller's resolver, `aa(configVar, envVarName)`. */
  type Lookup = (ConfigVarString, string) -> Result<string, Cause>

  /** One question put to the lookup function. */
  datatype Query = Query(field: ConfigVarString, envVar: string)

  const KubeconfigEnv: string := "TINK_KUBECONFIG"
  const ClusterNameEnv: string := "CLUSTER_NAME"
  const OSImageURLEnv: string := "OS_IMAGE_URL"
  const HegelURLEnv: string := "HEGEL_URL"

  /** Go's `string(bytes)`: one character per byte. */
  function BytesToString(b: seq<Base64.byte>): (s: string)
    ensures |s| == |b| && forall i :: 0 <= i < |b| ==> s[i] as int == b[i] as int
  {
    seq(|b|, i requires 0 <= i < |b| => b[i] as int as char)
  }

  function Ask(lookup: Lookup, q: Query): Result<string, Cause> {
    lookup(q.field, q.envVar)
  }

  /** The kubeconfig text: decoded when embedded, otherwise resolved. */
  function ResolveKubeconfig(spec: PluginSpec, lookup: Lookup): Result<string, ConfigError> {
    if spec.kubeconfig.value != "" then
      match Base64.DecodeString(spec.kubeconfig.value)
      case None => Err(KubeconfigNotBase64)
      case Some(raw) => Ok(BytesToString(raw))
    else
      match Ask(lookup, Query(spec.kubeconfig, KubeconfigEnv))
      case Err(e) => Err(KubeconfigLookupFailed(e))
      case Ok(v) => Ok(v)
  }

  /**
   * The driver's configuration: the kubeconfig first (an embedded value must be
   * base64), then the cluster name, OS image URL and Hegel URL, then the REST
   * configuration parsed from the kubeconfig.
   */
  function GetConfig<R>(spec: PluginSpec, lookup: Lookup, parse: string -> Result<R, Cause>)
    : (r: Result<Config<R>, ConfigError>)
    ensures r == Err(KubeconfigNotBase64)
        <==> spec.kubeconfig.value != "" && Base64.DecodeString(spec.kubeconfig.value).None?
    ensures r.Ok? ==> ResolveKubeconfig(spec, lookup) == Ok(r.value.kubeconfig)
                      && parse(r.value.kubeconfig) == Ok(r.value.restConfig)
  {
    match ResolveKubeconfig(spec, lookup)
    case Err(e) => Err(e)
    case Ok(kubeconfig) =>
      match Ask(lookup, Query(spec.clusterName, ClusterNameEnv))
      case Err(e) => Err(ClusterNameLookupFailed(e))
      case Ok(clusterName) =>
        match Ask(lookup, Query(spec.osImageURL, OSImageURLEnv))
        case Err(e) => Err(OSImageURLLookupFailed(e))
        case Ok(osImageURL) =>
          match Ask(lookup, Query(spec.hegelURL, HegelURLEnv))
          case Err(e) => Err(HegelURLLookupFailed(e))
          case Ok(hegelURL) =>
            match parse(kubeconfig)
            case Err(e) => Err(KubeconfigUnparsable(e))
            case Ok(rest) => Ok(Config(kubeconfig, clusterName, osImageURL, hegelURL, rest))
  }

  // ---------------------------------------------------------------------------------
  // Which questions are asked, in which order
  // ---------------------------------------------------------------------------------

  /** Every question `GetConfig` may ask, in the order it asks them. */
  function Plan(spec: PluginSpec): (qs: seq<Query>)
    ensures |qs| == if spec.kubeconfig.value == "" then 4 else 3
  {
    (if spec.kubeconfig.value == "" then [Query(spec.kubeconfig, KubeconfigEnv)] else [])
    + [Query(spec.clusterName, ClusterNameEnv), Query(spec.osImageURL, OSImageURLEnv),
       Query(spec.hegelURL, HegelURLEnv)]
  }

  /** The questions up to and including the first one that fails. */
  function AskUntilFailure(qs: seq<Query>, lookup: Lookup): (asked: seq<Query>)
    ensures asked <= qs && (qs != [] ==> asked != [])
    ensures forall i :: 0 <= i < |asked| - 1 ==> Ask(lookup, asked[i]).Ok?
    ensures |asked| < |qs| ==> Ask(lookup, asked[|asked| - 1]).Err?
  {
    if qs == [] then []
    else if Ask(lookup, qs[0]).Err? then [qs[0]]
    else [qs[0]] + AskUntilFailure(qs[1..], lookup)
  }

  /**
   * The questions `GetConfig` puts to the lookup function: none when the embedded
   * kubeconfig is not base64, otherwise the plan up to its first failing question.
   */
  function Asked(spec: PluginSpec, lookup: Lookup): seq<Query> {
    if spec.kubeconfig.value != "" && Base64.DecodeString(spec.kubeconfig.value).None? then []
    else AskUntilFailure(Plan(spec), lookup)
  }

  predicate AgreeOn(l1: Lookup, l2: Lookup, qs: seq<Query>) {
    forall q :: q in qs ==> Ask(l1, q) == Ask(l2, q)
  }

  /**
   * `GetConfig` consults the lookup function only on `Asked`: two lookup functions that
   * answer those questions alike give the same outcome, so no later key is ever read.
   */
  lemma {:induction false} OnlyAskedQuestionsMatter<R>(spec: PluginSpec, l1: Lookup, l2: Lookup,
                                                    parse: string -> Result<R, Cause>)
    requires AgreeOn(l1, l2, Asked(spec, l1))
    ensures GetConfig(spec, l2, parse) == GetConfig(spec, l1, parse)
    ensures Asked(spec, l2) == Asked(spec, l1)
  {
    if spec.kubeconfig.value == "" {
      ResolvedQuestionsMatter(spec, l1, l2, parse);
    } else if Base64.DecodeString(spec.kubeconfig.value).Some? {
      EmbeddedQuestionsMatter(spec, l1, l2, parse);
    }
  }

  lemma EmbeddedQuestionsMatter<R>(spec: PluginSpec, l1: Lookup, l2: Lookup,
                                   parse: string -> Result<R, Cause>)
    requires spec.kubeconfig.value != "" && Base64.DecodeString(spec.kubeconfig.value).Some?
    requires AgreeOn(l1, l2, Asked(spec, l1))
    ensures GetConfig(spec, l2, parse) == GetConfig(spec, l1, parse)
    ensures Asked(spec, l2) == Asked(spec, l1)
  {
    var plan := Plan(spec);
    var qc, qo, qh := Query(spec.clusterName, ClusterNameEnv),
      Query(spec.osImageURL, OSImageURLEnv), Query(spec.hegelURL, HegelURLEnv);
    assert plan == [qc, qo, qh];
    assert ResolveKubeconfig(spec, l2) == ResolveKubeconfig(spec, l1);
    AskedPrefix(plan, l1, l2, 1);
    if Ask(l1, qc).Err? { return; }
    AskedPrefix(plan, l1, l2, 2);
    if Ask(l1, qo).Err? { return; }
    AskedPrefix(plan, l1, l2, 3);
  }

  lemma ResolvedQuestionsMatter<R>(spec: PluginSpec, l1: Lookup, l2: Lookup,
                                   parse: string -> Result<R, Cause>)
    requires spec.kubeconfig.value == ""
    requires AgreeOn(l1, l2, Asked(spec, l1))
    ensures GetConfig(spec, l2, parse) == GetConfig(spec, l1, parse)
    ensures Asked(spec, l2) == Asked(spec, l1)
  {
    var plan := Plan(spec);
    var qk, qc, qo, qh := Query(spec.kubeconfig, KubeconfigEnv), Query(spec.clusterName, ClusterNameEnv),
      Query(spec.osImageURL, OSImageURLEnv), Query(spec.hegelURL, HegelURLEnv);
    assert plan == [qk, qc, qo, qh];
    AskedPrefix(plan, l1, l2, 1);
    assert ResolveKubeconfig(spec, l2) == ResolveKubeconfig(spec, l1);
    if Ask(l1, qk).Err? { return; }
    AskedPrefix(plan, l1, l2, 2);
    if Ask(l1, qc).Err? { return; }
    AskedPrefix(plan, l1, l2, 3);
    if Ask(l1, qo).Err? { return; }
    AskedPrefix(plan, l1, l2, 4);
  }

  /** Agreement on what was asked extends to every question of the plan asked so far. */
  lemma {:induction false} AskedPrefix(qs: seq<Query>, l1: Lookup, l2: Lookup, n: nat)
    requires n <= |qs|
    requires AgreeOn(l1, l2, AskUntilFailure(qs, l1))
    requires forall i :: 0 <= i < n - 1 ==> Ask(l1, qs[i]).Ok?
    ensures AskUntilFailure(qs, l1) == AskUntilFailure(qs, l2)
    ensures forall i :: 0 <= i < n ==> Ask(l1, qs[i]) == Ask(l2, qs[i])
    decreases |qs|
  {
    if qs != [] {
      assert qs[0] in AskUntilFailure(qs, l1);
      if Ask(l1, qs[0]).Ok? {
        var rest := AskUntilFailure(qs[1..], l1);
        assert AskUntilFailure(qs, l1) == [qs[0]] + rest;
        assert AgreeOn(l1, l2, rest) by {
          forall q | q in rest ensures Ask(l1, q) == Ask(l2, q) {
            assert q in AskUntilFailure(qs, l1);
          }
        }
        AskedPrefix(qs[1..], l1, l2, if n == 0 then 0 else n - 1);
        forall i | 0 <= i < n ensures Ask(l1, qs[i]) == Ask(l2, qs[i]) {
          if i > 0 { assert qs[i] == qs[1..][i - 1]; }
        }
      }
    }
  }

  // ---------------------------------------------------------------------------------
  // The two kubeconfig paths
  // ---------------------------------------------------------------------------------

  /** An embedded kubeconfig that is not base64 fails at once, whatever the lookup does. */
  lemma EmbeddedNotBase64<R>(spec: PluginSpec, lookup: Lookup, parse: string -> Result<R, Cause>)
    requires spec.kubeconfig.value != ""
    requires Base64.DecodeString(spec.kubeconfig.value).None?
    ensures GetConfig(spec, lookup, parse) == Err(KubeconfigNotBase64)
    ensures Asked(spec, lookup) == []
  {
  }

  /**
   * An embedded kubeconfig that is valid base64 is never looked up: the configuration
   * carries exactly its decoded bytes, and the first question is the cluster name.
   */
  lemma EmbeddedDecoded<R>(spec: PluginSpec, lookup: Lookup, parse: string -> Result<R, Cause>)
    requires spec.kubeconfig.value != ""
    requires Base64.DecodeString(spec.kubeconfig.value).Some?
    ensures var r := GetConfig(spec, lookup, parse);
      r.Ok? ==> r.value.kubeconfig == BytesToString(Base64.DecodeString(spec.kubeconfig.value).value)
    ensures Asked(spec, lookup)[0] == Query(spec.clusterName, ClusterNameEnv)
    ensures Query(spec.kubeconfig, KubeconfigEnv) !in Plan(spec)
  {
  }

  /** The embedded path inverts RFC 4648 encoding: a configuration built from `Encode(b)` carries `b`. */
  lemma EmbeddedRoundTrip<R>(b: seq<Base64.byte>, spec: PluginSpec, lookup: Lookup,
                             parse: string -> Result<R, Cause>)
    requires b != [] && spec.kubeconfig.value == Base64.Encode(b)
    ensures var r := GetConfig(spec, lookup, parse);
      r.Ok? ==> r.value.kubeconfig == BytesToString(b)
  {
    Base64.DecodeStringEncode(b);
  }

  /**
   * An empty embedded kubeconfig is resolved under `TINK_KUBECONFIG` and used
   * verbatim, without any base64 decoding; a failed lookup is reported as such.
   */
  lemma ResolvedVerbatim<R>(spec: PluginSpec, lookup: Lookup, parse: string -> Result<R, Cause>)
    requires spec.kubeconfig.value == ""
    ensures var r := GetConfig(spec, lookup, parse);
      match lookup(spec.kubeconfig, KubeconfigEnv)
      case Err(e) => r == Err(KubeconfigLookupFailed(e))
      case Ok(v) => r.Ok? ==> r.value.kubeconfig == v
    ensures Asked(spec, lookup)[0] == Query(spec.kubeconfig, KubeconfigEnv)
  {
  }

  // ---------------------------------------------------------------------------------
  // Order and short-circuiting of the lookups
  // ---------------------------------------------------------------------------------

  /** The error `GetConfig` reports when the question for `envVar` fails. */
  function LookupFailure(envVar: string, cause: Cause): ConfigError {
    if envVar == KubeconfigEnv then KubeconfigLookupFailed(cause)
    else if envVar == ClusterNameEnv then ClusterNameLookupFailed(cause)
    else if envVar == OSImageURLEnv then OSImageURLLookupFailed(cause)
    else HegelURLLookupFailed(cause)
  }

  /**
   * `GetConfig` asks the plan's questions in order, stops at the first that fails and
   * reports that one; it succeeds exactly when every question and the parse succeed,
   * and then every field holds the answer to its own question and the REST
   * configuration is the parse of the kubeconfig; when only the parse fails, its
   * error is reported.
   */
  ghost predicate ReportsFirstFailure<R>(spec: PluginSpec, lookup: Lookup, parse: string -> Result<R, Cause>) {
    var r := GetConfig(spec, lookup, parse);
    var asked := Asked(spec, lookup);
    var kubeconfig := ResolveKubeconfig(spec, lookup);
    && asked <= Plan(spec)
    && (asked != [] && Ask(lookup, asked[|asked| - 1]).Err? ==>
          r == Err(LookupFailure(asked[|asked| - 1].envVar, Ask(lookup, asked[|asked| - 1]).error)))
    && (r.Ok? <==> kubeconfig.Ok? && asked == Plan(spec)
                   && (forall q :: q in Plan(spec) ==> Ask(lookup, q).Ok?)
                   && parse(kubeconfig.value).Ok?)
    && (r.Ok? ==> && r.value.clusterName == Ask(lookup, Query(spec.clusterName, ClusterNameEnv)).value
                  && r.value.osImageURL == Ask(lookup, Query(spec.osImageURL, OSImageURLEnv)).value
                  && r.value.hegelURL == Ask(lookup, Query(spec.hegelURL, HegelURLEnv)).value
                  && r.value.restConfig == parse(r.value.kubeconfig).value)
    && (kubeconfig.Ok? && asked == Plan(spec) && (forall q :: q in Plan(spec) ==> Ask(lookup, q).Ok?)
        && parse(kubeconfig.value).Err? ==>
          r == Err(KubeconfigUnparsable(parse(kubeconfig.value).error)))
  }

  lemma GetConfigStopsAtFirstFailure<R>(spec: PluginSpec, lookup: Lookup, parse: string -> Result<R, Cause>)
    ensures ReportsFirstFailure(spec, lookup, parse)
  {
    if spec.kubeconfig.value == "" {
      ResolvedStopsAtFirstFailure(spec, lookup, parse);
    } else {
      EmbeddedStopsAtFirstFailure(spec, lookup, parse);
    }
  }

  lemma EmbeddedStopsAtFirstFailure<R>(spec: PluginSpec, lookup: Lookup, parse: string -> Result<R, Cause>)
    requires spec.kubeconfig.value != ""
    ensures ReportsFirstFailure(spec, lookup, parse)
  {
    if Base64.DecodeString(spec.kubeconfig.value).None? {
      return;
    }
    var plan := Plan(spec);
    var qc, qo, qh := Query(spec.clusterName, ClusterNameEnv),
      Query(spec.osImageURL, OSImageURLEnv), Query(spec.hegelURL, HegelURLEnv);
    assert plan == [qc, qo, qh];
    assert Asked(spec, lookup) == AskUntilFailure(plan, lookup);
    assert ClusterNameEnv[0] != OSImageURLEnv[0] && HegelURLEnv[0] !in {ClusterNameEnv[0], OSImageURLEnv[0]};
    ThreeQuestions(qc, qo, qh, lookup);
    if Ask(lookup, qc).Err? {
      assert GetConfig(spec, lookup, parse) == Err(ClusterNameLookupFailed(Ask(lookup, qc).error));
    } else if Ask(lookup, qo).Err? {
      assert GetConfig(spec, lookup, parse) == Err(OSImageURLLookupFailed(Ask(lookup, qo).error));
    }
  }

  lemma ResolvedStopsAtFirstFailure<R>(spec: PluginSpec, lookup: Lookup, parse: string -> Result<R, Cause>)
    requires spec.kubeconfig.value == ""
    ensures ReportsFirstFailure(spec, lookup, parse)
  {
    var plan := Plan(spec);
    var qk, qc, qo, qh := Query(spec.kubeconfig, KubeconfigEnv), Query(spec.clusterName, ClusterNameEnv),
      Query(spec.osImageURL, OSImageURLEnv), Query(spec.hegelURL, HegelURLEnv);
    var tail := [qc, qo, qh];
    assert plan == [qk] + tail && plan[1..] == tail;
    assert KubeconfigEnv[0] != ClusterNameEnv[0] && KubeconfigEnv[0] != OSImageURLEnv[0];
    assert ClusterNameEnv[0] != OSImageURLEnv[0] && HegelURLEnv[0] !in {KubeconfigEnv[0], ClusterNameEnv[0], OSImageURLEnv[0]};
    if Ask(lookup, qk).Err? {
      assert AskUntilFailure(plan, lookup) == [qk];
      return;
    }
    assert AskUntilFailure(plan, lookup) == [qk] + AskUntilFailure(tail, lookup);
    ThreeQuestions(qc, qo, qh, lookup);
  }

  lemma ThreeQuestions(qc: Query, qo: Query, qh: Query, lookup: Lookup)
    ensures var a := AskUntilFailure([qc, qo, qh], lookup);
      if Ask(lookup, qc).Err? then a == [qc]
      else if Ask(lookup, qo).Err? then a == [qc, qo]
      else a == [qc, qo, qh]
  {
    var qs := [qc, qo, qh];
    assert qs[1..] == [qo, qh] && qs[1..][1..] == [qh] && qs[1..][1..][1..] == [];
  }
}
