/**
 * The environment-configuration loader of the bridge front-end
 * (src/adapters/env.ts): a snapshot of string-valued environment variables
 * is checked against a per-field shape schema, three feature flags are
 * parsed, the report-form and outdated-network-modal sections are built,
 * the resolved chain list is checked, and one configuration record is
 * assembled, or the load fails with the first error met.
 */
module Env {
  import opened Wrappers

  // ---------------------------------------------------------------------
  // Environment variable names
  // ---------------------------------------------------------------------

  const BridgeApiUrl := "VITE_BRIDGE_API_URL"
  const EnableDepositWarning := "VITE_ENABLE_DEPOSIT_WARNING"
  const EnableFiatExchangeRates := "VITE_ENABLE_FIAT_EXCHANGE_RATES"
  const EnableOutdatedNetworkModal := "VITE_ENABLE_OUTDATED_NETWORK_MODAL"
  const EnableReportForm := "VITE_ENABLE_REPORT_FORM"
  const EthereumBridgeContractAddress := "VITE_ETHEREUM_BRIDGE_CONTRACT_ADDRESS"
  const EthereumExplorerUrl := "VITE_ETHEREUM_EXPLORER_URL"
  const EthereumForceUpdateGlobalExitRoot := "VITE_ETHEREUM_FORCE_UPDATE_GLOBAL_EXIT_ROOT"
  const EthereumLogo := "VITE_ETHEREUM_LOGO"
  const EthereumProofOfEfficiencyContractAddress := "VITE_ETHEREUM_PROOF_OF_EFFICIENCY_CONTRACT_ADDRESS"
  const EthereumRollupManagerAddress := "VITE_ETHEREUM_ROLLUP_MANAGER_ADDRESS"
  const EthereumRpcUrl := "VITE_ETHEREUM_RPC_URL"
  const EthereumWrappedAddress := "VITE_ETHEREUM_WRAPPED_ADDRESS"
  const FiatExchangeRatesApiKey := "VITE_FIAT_EXCHANGE_RATES_API_KEY"
  const FiatExchangeRatesApiUrl := "VITE_FIAT_EXCHANGE_RATES_API_URL"
  const FiatExchangeRatesEthereumUsdcAddress := "VITE_FIAT_EXCHANGE_RATES_ETHEREUM_USDC_ADDRESS"
  const OutdatedNetworkModalMessageParagraph1 := "VITE_OUTDATED_NETWORK_MODAL_MESSAGE_PARAGRAPH_1"
  const OutdatedNetworkModalMessageParagraph2 := "VITE_OUTDATED_NETWORK_MODAL_MESSAGE_PARAGRAPH_2"
  const OutdatedNetworkModalTitle := "VITE_OUTDATED_NETWORK_MODAL_TITLE"
  const OutdatedNetworkModalUrl := "VITE_OUTDATED_NETWORK_MODAL_URL"
  const PolygonZkEvmBridgeContractAddress := "VITE_POLYGON_ZK_EVM_BRIDGE_CONTRACT_ADDRESS"
  const PolygonZkEvmExplorerUrl := "VITE_POLYGON_ZK_EVM_EXPLORER_URL"
  const PolygonZkEvmLogo := "VITE_POLYGON_ZK_EVM_LOGO"
  const PolygonZkEvmNetworkId := "VITE_POLYGON_ZK_EVM_NETWORK_ID"
  const PolygonZkEvmRpcUrl := "VITE_POLYGON_ZK_EVM_RPC_URL"
  const PolygonZkEvmWrappedAddress := "VITE_POLYGON_ZK_EVM_WRAPPED_ADDRESS"
  const ReportFormErrorEntry := "VITE_REPORT_FORM_ERROR_ENTRY"
  const ReportFormPlatformEntry := "VITE_REPORT_FORM_PLATFORM_ENTRY"
  const ReportFormUrl := "VITE_REPORT_FORM_URL"
  const ReportFormUrlEntry := "VITE_REPORT_FORM_URL_ENTRY"

  /** The length of a contract address in its textual `0x`-prefixed form. */
  const AddressLength: nat := 42

  // ---------------------------------------------------------------------
  // Data model
  // ---------------------------------------------------------------------

  /** A snapshot of the environment: a name is absent or holds a string. */
  type RawEnv = map<string, string>

  /** Why a value was refused, as the validation library reports it. */
  datatype IssueKind =
    | Absent                    // a string was required, `undefined` was found
    | InvalidUrl                // the value is not a URL
    | WrongLength(expected: nat) // the value does not have the exact length
    | NotABoolean               // "The provided string input can't be parsed as a boolean"

  /** One refused field. */
  datatype Issue = Issue(field: string, kind: IssueKind)

  /** Every way the load can fail. */
  datatype LoadError =
    | SchemaRejected(issues: seq<Issue>)  // the shape schema refused one or more fields
    | FlagRejected(kind: IssueKind)       // a feature flag is not "true" or "false"
    | ChainLookupFailed(reason: string)   // the chain lookup itself failed
    | NoChains                            // "No any chains."
    | MissingCompanion(field: string)     // "Missing <field> env vars"

  /**
   * A network of the bridge, as the chain lookup resolves it. This is an
   * illustrative record: the loader never reads its fields, it only
   * passes chains through.
   */
  datatype Chain = Chain(
    key: string,
    chainId: int,
    name: string,
    icon: string,
    rpcUrl: string,
    bridgeContractAddress: string,
    explorerUrl: string,
    wrappedAddress: string)

  /** What the chain lookup produced. */
  datatype ChainLookup = Resolved(chains: seq<Chain>) | LookupFailed(reason: string)

  datatype ReportFormEntries = ReportFormEntries(error: string, platform: string, url: string)

  datatype ReportForm =
    | ReportFormDisabled
    | ReportFormEnabled(url: string, entries: ReportFormEntries)

  /** The enabled variant carries the four companions as found, each possibly undefined. */
  datatype OutdatedNetworkModal =
    | ModalDisabled
    | ModalEnabled(
        messageParagraph1: Option<string>,
        messageParagraph2: Option<string>,
        title: Option<string>,
        url: Option<string>)

  datatype FiatExchangeRates = FiatExchangeRates(areEnabled: bool)

  /** The assembled configuration. */
  datatype Config = Config(
    bridgeApiUrl: string,
    chains: seq<Chain>,
    fiatExchangeRates: FiatExchangeRates,
    forceUpdateGlobalExitRootForL1: bool,
    isDepositWarningEnabled: bool,
    outdatedNetworkModal: OutdatedNetworkModal,
    reportForm: ReportForm)

  /** The value of a variable, `None` when it is undefined. */
  function Get(env: RawEnv, name: string): Option<string> {
    if name in env then Some(env[name]) else None
  }

  /** JavaScript truthiness of a string that may be undefined: neither undefined nor "". */
  predicate Truthy(v: Option<string>) {
    v.Some? && v.value != ""
  }

  /**
   * The JavaScript `length` of a string: the number of UTF-16 code units,
   * so a character above U+FFFF counts twice.
   */
  function Utf16Length(s: string): (n: nat)
    ensures |s| <= n <= 2 * |s|
    ensures (forall i :: 0 <= i < |s| ==> s[i] as int < 0x1_0000) ==> n == |s|
  {
    if s == [] then 0
    else (if s[0] as int < 0x1_0000 then 1 else 2) + Utf16Length(s[1..])
  }

  // ---------------------------------------------------------------------
  // Strict string-to-boolean parser
  // ---------------------------------------------------------------------

  /** The literal each boolean is written as. */
  function ShowBool(b: bool): string {
    if b then "true" else "false"
  }

  /**
   * Accepts exactly "true" and "false". An undefined input fails as a
   * missing string; every other string fails as not a boolean.
   */
  function ParseBool(v: Option<string>): (r: Result<bool, IssueKind>)
    ensures r.Ok? <==> v == Some("true") || v == Some("false")
    ensures r.Ok? ==> v == Some(ShowBool(r.value))
    ensures v.None? ==> r == Err(Absent)
    ensures v.Some? && !r.Ok? ==> r == Err(NotABoolean)
  {
    match v
    case None => Err(Absent)
    case Some(s) =>
      if s == "true" then Ok(true)
      else if s == "false" then Ok(false)
      else Err(NotABoolean)
  }

  // ---------------------------------------------------------------------
  // Per-field shape schema
  // ---------------------------------------------------------------------

  datatype Shape = AnyString | Url | Length(n: nat)
  datatype Presence = Required | Optional
  datatype FieldRule = FieldRule(name: string, shape: Shape, presence: Presence)

  /** The schema, in declaration order. */
  const Schema: seq<FieldRule> := [
    FieldRule(BridgeApiUrl, Url, Required),
    FieldRule(EnableDepositWarning, AnyString, Required),
    FieldRule(EnableFiatExchangeRates, AnyString, Required),
    FieldRule(EnableOutdatedNetworkModal, AnyString, Optional),
    FieldRule(EnableReportForm, AnyString, Required),
    FieldRule(EthereumBridgeContractAddress, Length(AddressLength), Required),
    FieldRule(EthereumExplorerUrl, Url, Required),
    FieldRule(EthereumForceUpdateGlobalExitRoot, AnyString, Required),
    FieldRule(EthereumLogo, AnyString, Required),
    FieldRule(EthereumProofOfEfficiencyContractAddress, Length(AddressLength), Required),
    FieldRule(EthereumRollupManagerAddress, Length(AddressLength), Required),
    FieldRule(EthereumRpcUrl, Url, Required),
    FieldRule(EthereumWrappedAddress, AnyString, Required),
    FieldRule(FiatExchangeRatesApiKey, AnyString, Optional),
    FieldRule(FiatExchangeRatesApiUrl, Url, Optional),
    FieldRule(FiatExchangeRatesEthereumUsdcAddress, Length(AddressLength), Optional),
    FieldRule(OutdatedNetworkModalMessageParagraph1, AnyString, Optional),
    FieldRule(OutdatedNetworkModalMessageParagraph2, AnyString, Optional),
    FieldRule(OutdatedNetworkModalTitle, AnyString, Optional),
    FieldRule(OutdatedNetworkModalUrl, AnyString, Optional),
    FieldRule(PolygonZkEvmBridgeContractAddress, Length(AddressLength), Required),
    FieldRule(PolygonZkEvmExplorerUrl, Url, Required),
    FieldRule(PolygonZkEvmLogo, AnyString, Required),
    FieldRule(PolygonZkEvmNetworkId, AnyString, Required),
    FieldRule(PolygonZkEvmRpcUrl, Url, Required),
    FieldRule(PolygonZkEvmWrappedAddress, AnyString, Required),
    FieldRule(ReportFormErrorEntry, AnyString, Optional),
    FieldRule(ReportFormPlatformEntry, AnyString, Optional),
    FieldRule(ReportFormUrl, AnyString, Optional),
    FieldRule(ReportFormUrlEntry, AnyString, Optional)
  ]

  /** The names the schema declares; every other variable is dropped. */
  function SchemaNames(rules: seq<FieldRule>): set<string> {
    set i | 0 <= i < |rules| :: rules[i].name
  }

  /** Whether one rule accepts the environment; `isUrl` stands for the library's URL check. */
  predicate RuleAccepts(rule: FieldRule, env: RawEnv, isUrl: string -> bool) {
    if rule.name !in env then rule.presence == Optional
    else match rule.shape
      case AnyString => true
      case Url => isUrl(env[rule.name])
      case Length(n) => Utf16Length(env[rule.name]) == n
  }

  /** The issue one rule raises, if any. */
  function RuleIssue(rule: FieldRule, env: RawEnv, isUrl: string -> bool): (r: Option<IssueKind>)
    ensures r.None? <==> RuleAccepts(rule, env, isUrl)
    ensures r == Some(Absent) <==> rule.name !in env && rule.presence == Required
    ensures r == Some(InvalidUrl) <==> rule.name in env && rule.shape == Url && !isUrl(env[rule.name])
    ensures rule.name in env && rule.shape.Length? && r.Some? ==> r.value == WrongLength(rule.shape.n)
  {
    if rule.name !in env then
      if rule.presence == Required then Some(Absent) else None
    else match rule.shape
      case AnyString => None
      case Url => if isUrl(env[rule.name]) then None else Some(InvalidUrl)
      case Length(n) => if Utf16Length(env[rule.name]) == n then None else Some(WrongLength(n))
  }

  /**
   * The issues of all rules: every refused field is reported with its
   * issue, and every reported issue belongs to a refused field.
   */
  function SchemaIssues(rules: seq<FieldRule>, env: RawEnv, isUrl: string -> bool): (r: seq<Issue>)
    ensures |r| <= |rules|
    ensures r == [] <==> forall i :: 0 <= i < |rules| ==> RuleAccepts(rules[i], env, isUrl)
    ensures forall i :: 0 <= i < |rules| && !RuleAccepts(rules[i], env, isUrl) ==>
      Issue(rules[i].name, RuleIssue(rules[i], env, isUrl).value) in r
    ensures forall x :: x in r ==>
      (exists i :: 0 <= i < |rules| && rules[i].name == x.field
        && RuleIssue(rules[i], env, isUrl) == Some(x.kind))
  {
    if rules == [] then []
    else
      var rest := SchemaIssues(rules[1..], env, isUrl);
      match RuleIssue(rules[0], env, isUrl)
      case None => rest
      case Some(k) => [Issue(rules[0].name, k)] + rest
  }

  /**
   * The schema step alone: the environment restricted to the declared
   * names when every rule accepts it, otherwise all issues found.
   */
  function Parse(raw: RawEnv, isUrl: string -> bool): (r: Result<RawEnv, LoadError>)
    ensures r.Ok? <==> forall i :: 0 <= i < |Schema| ==> RuleAccepts(Schema[i], raw, isUrl)
    ensures r.Ok? ==>
      (r.value.Keys == raw.Keys * SchemaNames(Schema)
        && forall k :: k in r.value ==> r.value[k] == raw[k])
    ensures r.Err? ==> r.error.SchemaRejected? && r.error.issues != []
    ensures r.Err? ==> r.error.issues == SchemaIssues(Schema, raw, isUrl)
  {
    var issues := SchemaIssues(Schema, raw, isUrl);
    if issues != [] then Err(SchemaRejected(issues))
    else Ok(map k | k in raw && k in SchemaNames(Schema) :: raw[k])
  }

  // ---------------------------------------------------------------------
  // Report-form section
  // ---------------------------------------------------------------------

  /** The report-form companions, in the order they are checked. */
  const ReportFormCompanions: seq<string> :=
    [ReportFormUrl, ReportFormErrorEntry, ReportFormPlatformEntry, ReportFormUrlEntry]

  /** Independent reference: the position of the first falsy value, |vals| if none. */
  function FirstFalsy(vals: seq<Option<string>>): (r: nat)
    ensures r <= |vals|
    ensures forall j :: 0 <= j < r ==> Truthy(vals[j])
    ensures r < |vals| ==> !Truthy(vals[r])
  {
    if vals == [] then 0
    else if !Truthy(vals[0]) then 0
    else 1 + FirstFalsy(vals[1..])
  }

  /**
   * Builds the report-form section: disabled when the flag is "false",
   * whatever the companions hold; when it is "true", the first falsy
   * companion in the order of ReportFormCompanions fails the build, and
   * otherwise the companions are copied unchanged into the enabled variant.
   */
  function ReportFormEnv(
    enable: string, url: Option<string>, errorEntry: Option<string>,
    platformEntry: Option<string>, urlEntry: Option<string>): (r: Result<ReportForm, LoadError>)
    ensures r == Ok(ReportFormDisabled) <==> enable == "false"
    ensures r == Err(FlagRejected(NotABoolean)) <==> enable != "true" && enable != "false"
    ensures r.Ok? && r.value.ReportFormEnabled? ==>
      (enable == "true" && url == Some(r.value.url)
        && errorEntry == Some(r.value.entries.error)
        && platformEntry == Some(r.value.entries.platform)
        && urlEntry == Some(r.value.entries.url))
    ensures r.Err? && r.error.MissingCompanion? ==>
      enable == "true" && r.error.field in ReportFormCompanions
  {
    match ParseBool(Some(enable))
    case Err(k) => Err(FlagRejected(k))
    case Ok(isEnabled) =>
      if !isEnabled then Ok(ReportFormDisabled)
      else if !Truthy(url) then Err(MissingCompanion(ReportFormUrl))
      else if !Truthy(errorEntry) then Err(MissingCompanion(ReportFormErrorEntry))
      else if !Truthy(platformEntry) then Err(MissingCompanion(ReportFormPlatformEntry))
      else if !Truthy(urlEntry) then Err(MissingCompanion(ReportFormUrlEntry))
      else Ok(ReportFormEnabled(url.value,
        ReportFormEntries(errorEntry.value, platformEntry.value, urlEntry.value)))
  }

  /**
   * The message the source itself writes for an error; `None` for the
   * schema and flag rejections, which reach the caller as the validation
   * library's own error object.
   */
  function Message(e: LoadError): (r: Option<string>)
    ensures r.None? <==> e.SchemaRejected? || e.FlagRejected?
    ensures e.NoChains? ==> r == Some("No any chains.")
    ensures e.MissingCompanion? ==>
      (r.Some? && |r.value| == |e.field| + 17
        && r.value[..8] == "Missing " && r.value[8..8 + |e.field|] == e.field
        && r.value[8 + |e.field|..] == " env vars")
  {
    match e
    case SchemaRejected(_) => None
    case FlagRejected(_) => None
    case ChainLookupFailed(reason) => Some(reason)
    case NoChains => Some("No any chains.")
    case MissingCompanion(field) => Some("Missing " + field + " env vars")
  }

  // ---------------------------------------------------------------------
  // Assembler
  // ---------------------------------------------------------------------

  /** The outdated-network-modal section: the flag alone decides, the companions are not checked. */
  function OutdatedNetworkModalEnv(isEnabled: bool, env: RawEnv): (r: OutdatedNetworkModal)
    ensures r.ModalEnabled? <==> isEnabled
    ensures r.ModalEnabled? ==>
      r.messageParagraph1 == Get(env, OutdatedNetworkModalMessageParagraph1)
      && r.messageParagraph2 == Get(env, OutdatedNetworkModalMessageParagraph2)
      && r.title == Get(env, OutdatedNetworkModalTitle)
      && r.url == Get(env, OutdatedNetworkModalUrl)
  {
    if isEnabled then
      ModalEnabled(
        Get(env, OutdatedNetworkModalMessageParagraph1),
        Get(env, OutdatedNetworkModalMessageParagraph2),
        Get(env, OutdatedNetworkModalTitle),
        Get(env, OutdatedNetworkModalUrl))
    else ModalDisabled
  }

  /** What the parsed environment's type demands: the variables the assembler reads as strings. */
  predicate Typed(env: RawEnv) {
    BridgeApiUrl in env && EnableReportForm in env
  }

  /**
   * Turns a schema-checked environment and the chain lookup's outcome into
   * the configuration. The three flags are parsed first, before the
   * chains are consulted; the report-form section is built last, after
   * the empty-chains check.
   */
  function EnvToDomain(env: RawEnv, lookup: ChainLookup): (r: Result<Config, LoadError>)
    requires Typed(env)
    ensures r.Ok? ==> lookup == Resolved(r.value.chains) && |r.value.chains| > 0
    ensures r.Ok? ==>
      (r.value.bridgeApiUrl == env[BridgeApiUrl]
        && r.value.fiatExchangeRates == FiatExchangeRates(false))
  {
    match ParseBool(Get(env, EnableOutdatedNetworkModal))
    case Err(k) => Err(FlagRejected(k))
    case Ok(isOutdatedNetworkModalEnabled) =>
      match ParseBool(Get(env, EthereumForceUpdateGlobalExitRoot))
      case Err(k) => Err(FlagRejected(k))
      case Ok(forceUpdateGlobalExitRootForL1) =>
        var outdatedNetworkModal := OutdatedNetworkModalEnv(isOutdatedNetworkModalEnabled, env);
        match ParseBool(Get(env, EnableDepositWarning))
        case Err(k) => Err(FlagRejected(k))
        case Ok(isDepositWarningEnabled) =>
          match lookup
          case LookupFailed(reason) => Err(ChainLookupFailed(reason))
          case Resolved(chains) =>
            if |chains| == 0 then Err(NoChains)
            else
              match ReportFormEnv(env[EnableReportForm], Get(env, ReportFormUrl),
                Get(env, ReportFormErrorEntry), Get(env, ReportFormPlatformEntry),
                Get(env, ReportFormUrlEntry))
              case Err(e) => Err(e)
              case Ok(reportForm) =>
                Ok(Config(
                  env[BridgeApiUrl],
                  chains,
                  FiatExchangeRates(false),
                  forceUpdateGlobalExitRootForL1,
                  isDepositWarningEnabled,
                  outdatedNetworkModal,
                  reportForm))
  }

  /** The required rules of the schema hold the names the assembler reads as strings. */
  lemma ParsedIsTyped(raw: RawEnv, isUrl: string -> bool)
    requires Parse(raw, isUrl).Ok?
    ensures Typed(Parse(raw, isUrl).value)
  {
    assert RuleAccepts(Schema[0], raw, isUrl);
    assert RuleAccepts(Schema[4], raw, isUrl);
    assert BridgeApiUrl in SchemaNames(Schema) by { assert Schema[0].name == BridgeApiUrl; }
    assert EnableReportForm in SchemaNames(Schema) by { assert Schema[4].name == EnableReportForm; }
  }

  /**
   * The whole load: the schema first, then the assembler over the
   * accepted variables and the chain lookup's outcome.
   */
  function Load(raw: RawEnv, lookup: ChainLookup, isUrl: string -> bool): (r: Result<Config, LoadError>)
    ensures r.Ok? ==> (forall i :: 0 <= i < |Schema| ==> RuleAccepts(Schema[i], raw, isUrl))
    ensures r.Ok? ==> lookup == Resolved(r.value.chains) && |r.value.chains| > 0
    ensures r.Ok? ==> BridgeApiUrl in raw && r.value.bridgeApiUrl == raw[BridgeApiUrl]
  {
    match Parse(raw, isUrl)
    case Err(e) => Err(e)
    case Ok(env) =>
      ParsedIsTyped(raw, isUrl);
      EnvToDomain(env, lookup)
  }
}
