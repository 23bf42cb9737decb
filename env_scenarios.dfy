/** Whole-load scenarios over one sample environment snapshot. */
module EnvScenarios {
  import opened Wrappers
  import opened Env
  import opened EnvProperties

  /**
   * A complete environment: every required variable present, every
   * contract address set to `address`, the report form off.
   */
  function Sample(address: string): RawEnv {
    map[
      BridgeApiUrl := "https://bridge-api.example.org",
      EnableDepositWarning := "true",
      EnableFiatExchangeRates := "true",
      EnableOutdatedNetworkModal := "false",
      EnableReportForm := "false",
      EthereumBridgeContractAddress := address,
      EthereumExplorerUrl := "https://etherscan.example.org",
      EthereumForceUpdateGlobalExitRoot := "false",
      EthereumLogo := "ethereum.svg",
      EthereumProofOfEfficiencyContractAddress := address,
      EthereumRollupManagerAddress := address,
      EthereumRpcUrl := "https://rpc.example.org",
      EthereumWrappedAddress := address,
      PolygonZkEvmBridgeContractAddress := address,
      PolygonZkEvmExplorerUrl := "https://zkevm-explorer.example.org",
      PolygonZkEvmLogo := "zkevm.svg",
      PolygonZkEvmNetworkId := "1",
      PolygonZkEvmRpcUrl := "https://zkevm-rpc.example.org",
      PolygonZkEvmWrappedAddress := address
    ]
  }

  /** The URL check accepts the sample's URLs. */
  predicate AcceptsSampleUrls(isUrl: string -> bool) {
    isUrl("https://bridge-api.example.org") && isUrl("https://etherscan.example.org")
    && isUrl("https://rpc.example.org") && isUrl("https://zkevm-explorer.example.org")
    && isUrl("https://zkevm-rpc.example.org")
  }

  /** A JavaScript string that is exactly an address long. */
  predicate IsAddress(address: string) {
    Utf16Length(address) == AddressLength
  }

  function L1(address: string): Chain {
    Chain("ethereum", 1, "Ethereum", "ethereum.svg", "https://rpc.example.org", address,
      "https://etherscan.example.org", address)
  }

  function L2(address: string): Chain {
    Chain("polygon-zkevm", 1101, "Polygon zkEVM", "zkevm.svg", "https://zkevm-rpc.example.org", address,
      "https://zkevm-explorer.example.org", address)
  }

  /** The sample satisfies the schema rules, six positions at a time. */
  lemma SampleAcceptsRules0To6(address: string, isUrl: string -> bool)
    requires IsAddress(address) && AcceptsSampleUrls(isUrl)
    ensures forall i :: 0 <= i < 6 ==> RuleAccepts(Schema[i], Sample(address), isUrl)
  {
  }

  lemma SampleAcceptsRules6To12(address: string, isUrl: string -> bool)
    requires IsAddress(address) && AcceptsSampleUrls(isUrl)
    ensures forall i :: 6 <= i < 12 ==> RuleAccepts(Schema[i], Sample(address), isUrl)
  {
  }

  lemma SampleAcceptsRules12To18(address: string, isUrl: string -> bool)
    requires IsAddress(address) && AcceptsSampleUrls(isUrl)
    ensures forall i :: 12 <= i < 18 ==> RuleAccepts(Schema[i], Sample(address), isUrl)
  {
  }

  lemma SampleAcceptsRules18To24(address: string, isUrl: string -> bool)
    requires IsAddress(address) && AcceptsSampleUrls(isUrl)
    ensures forall i :: 18 <= i < 24 ==> RuleAccepts(Schema[i], Sample(address), isUrl)
  {
  }

  lemma SampleAcceptsRules24To30(address: string, isUrl: string -> bool)
    requires IsAddress(address) && AcceptsSampleUrls(isUrl)
    ensures forall i :: 24 <= i < 30 ==> RuleAccepts(Schema[i], Sample(address), isUrl)
  {
  }

  lemma SampleAccepted(address: string, isUrl: string -> bool)
    requires IsAddress(address) && AcceptsSampleUrls(isUrl)
    ensures Parse(Sample(address), isUrl).Ok?
  {
    SampleAcceptsRules0To6(address, isUrl);
    SampleAcceptsRules6To12(address, isUrl);
    SampleAcceptsRules12To18(address, isUrl);
    SampleAcceptsRules18To24(address, isUrl);
    SampleAcceptsRules24To30(address, isUrl);
  }

  /** What the assembler reads from the sample. */
  lemma SampleReads(address: string)
    ensures Typed(Sample(address))
    ensures Sample(address)[BridgeApiUrl] == "https://bridge-api.example.org"
    ensures Sample(address)[EnableReportForm] == "false"
    ensures Get(Sample(address), EnableDepositWarning) == Some("true")
    ensures Get(Sample(address), EnableOutdatedNetworkModal) == Some("false")
    ensures Get(Sample(address), EthereumForceUpdateGlobalExitRoot) == Some("false")
    ensures Get(Sample(address), ReportFormUrl) == None
  {
  }

  /** Report form off and its companions absent: the load succeeds with the disabled variant. */
  lemma ReportFormOffLoads(address: string, isUrl: string -> bool)
    requires IsAddress(address) && AcceptsSampleUrls(isUrl)
    ensures var r := Load(Sample(address), Resolved([L1(address), L2(address)]), isUrl);
      r.Ok?
      && r.value.reportForm == ReportFormDisabled
      && r.value.chains == [L1(address), L2(address)]
      && r.value.isDepositWarningEnabled
      && !r.value.forceUpdateGlobalExitRootForL1
      && r.value.outdatedNetworkModal == ModalDisabled
      && r.value.fiatExchangeRates == FiatExchangeRates(false)
  {
    var env, lookup := Sample(address), Resolved([L1(address), L2(address)]);
    SampleAccepted(address, isUrl);
    SampleReads(address);
    LoadIsEnvToDomainOnRaw(env, lookup, isUrl);
    assert ReportFormSection(env) == Ok(ReportFormDisabled);
    EnvToDomainSucceeds(env, lookup);
  }

  /** What the assembler reads from the sample once the report form is switched on. */
  lemma SampleWithReportFormOnReads(address: string)
    ensures var env := Sample(address)[EnableReportForm := "true"];
      Typed(env) && FlagsParse(env)
      && env[EnableReportForm] == "true" && Get(env, ReportFormUrl) == None
  {
    SampleReads(address);
  }

  /** Report form on with its URL absent: the load fails naming the URL variable. */
  lemma ReportFormOnWithoutUrlFails(address: string, isUrl: string -> bool)
    requires IsAddress(address) && AcceptsSampleUrls(isUrl)
    ensures Load(Sample(address)[EnableReportForm := "true"], Resolved([L1(address)]), isUrl)
      == Err(MissingCompanion(ReportFormUrl))
  {
    var env := Sample(address)[EnableReportForm := "true"];
    IssuesIgnorePlainString(Schema, Sample(address), isUrl, EnableReportForm, "true");
    SampleAccepted(address, isUrl);
    SampleWithReportFormOnReads(address);
    LoadIsEnvToDomainOnRaw(env, Resolved([L1(address)]), isUrl);
    assert ReportFormSection(env) == Err(MissingCompanion(ReportFormUrl));
    ReportFormErrorAfterChains(env, Resolved([L1(address)]));
  }

  /** An empty chain list fails the load although every variable is well-formed. */
  lemma EmptyChainsFail(address: string, isUrl: string -> bool)
    requires IsAddress(address) && AcceptsSampleUrls(isUrl)
    ensures Load(Sample(address), Resolved([]), isUrl) == Err(NoChains)
  {
    SampleAccepted(address, isUrl);
    SampleReads(address);
    LoadIsEnvToDomainOnRaw(Sample(address), Resolved([]), isUrl);
    EmptyChainsFailBeforeReportForm(Sample(address));
  }

  /** A 41-character bridge contract address fails the schema, naming that variable. */
  lemma ShortAddressFails(address: string, short: string, isUrl: string -> bool)
    requires Utf16Length(short) == 41
    ensures var r := Load(Sample(address)[EthereumBridgeContractAddress := short], Resolved([L1(address)]), isUrl);
      r.Err? && r.error.SchemaRejected?
      && Issue(EthereumBridgeContractAddress, WrongLength(AddressLength)) in r.error.issues
  {
    LoadRejectsBadAddress(Sample(address)[EthereumBridgeContractAddress := short], Resolved([L1(address)]),
      isUrl, EthereumBridgeContractAddress);
  }

  /** A three-character wrapped-token address passes the schema. */
  lemma ShortWrappedAddressAccepted(address: string, isUrl: string -> bool)
    requires IsAddress(address) && AcceptsSampleUrls(isUrl)
    ensures Parse(Sample(address)[EthereumWrappedAddress := "0x1"], isUrl).Ok?
  {
    SampleAccepted(address, isUrl);
    WrappedAddressesAnyLength(Sample(address), isUrl, EthereumWrappedAddress, "0x1");
  }

  /** Without the outdated-network-modal flag the load fails, though the schema accepts its absence. */
  lemma AbsentModalFlagFails(address: string, isUrl: string -> bool)
    requires IsAddress(address) && AcceptsSampleUrls(isUrl)
    ensures Parse(Sample(address) - {EnableOutdatedNetworkModal}, isUrl).Ok?
    ensures Load(Sample(address) - {EnableOutdatedNetworkModal}, Resolved([L1(address)]), isUrl)
      == Err(FlagRejected(Absent))
  {
    var raw := Sample(address) - {EnableOutdatedNetworkModal};
    SampleAccepted(address, isUrl);
    SchemaAcceptsAbsentModalFlag(Sample(address), isUrl);
    LoadIsEnvToDomainOnRaw(raw, Resolved([L1(address)]), isUrl);
    AbsentOutdatedModalFlagFails(raw, Resolved([L1(address)]));
  }
}
