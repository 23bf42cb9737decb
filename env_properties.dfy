/** Properties of the environment loader, stated over all inputs. */
module EnvProperties {
  import opened Wrappers
  import opened Env

  // ---------------------------------------------------------------------
  // Boolean parser
  // ---------------------------------------------------------------------

  /** Parsing is the inverse of writing a boolean as its literal. */
  lemma ParseBoolRoundTrip(b: bool, v: Option<string>)
    ensures ParseBool(Some(ShowBool(b))) == Ok(b)
    ensures ParseBool(v) == Ok(b) ==> v == Some(ShowBool(b))
  {
  }

  /** Strings that look like booleans but are not the exact literals are refused. */
  lemma ParseBoolRejectsNearMisses()
    ensures ParseBool(Some("")) == Err(NotABoolean)
    ensures ParseBool(Some("TRUE")) == Err(NotABoolean)
    ensures ParseBool(Some("True")) == Err(NotABoolean)
    ensures ParseBool(Some("1")) == Err(NotABoolean)
    ensures ParseBool(Some("0")) == Err(NotABoolean)
    ensures ParseBool(Some(" true")) == Err(NotABoolean)
  {
  }

  // ---------------------------------------------------------------------
  // Report-form section
  // ---------------------------------------------------------------------

  /** The report-form section over its four companions given in checking order. */
  function ReportFormOf(enable: string, vals: seq<Option<string>>): Result<ReportForm, LoadError>
    requires |vals| == 4
  {
    ReportFormEnv(enable, vals[0], vals[1], vals[2], vals[3])
  }

  /**
   * When the report form is enabled, the build fails exactly when some
   * companion is falsy, and then it names the first falsy companion in
   * the order URL, error entry, platform entry, URL entry.
   */
  lemma ReportFormChecksInOrder(vals: seq<Option<string>>)
    requires |vals| == 4
    ensures var first := FirstFalsy(vals);
      (ReportFormOf("true", vals).Ok? <==> first == 4)
      && (first < 4 ==> ReportFormOf("true", vals) == Err(MissingCompanion(ReportFormCompanions[first])))
  {
    var r := ReportFormOf("true", vals);
    if !Truthy(vals[0]) {
      assert r == Err(MissingCompanion(ReportFormCompanions[0]));
    } else if !Truthy(vals[1]) {
      assert r == Err(MissingCompanion(ReportFormCompanions[1]));
    } else if !Truthy(vals[2]) {
      assert r == Err(MissingCompanion(ReportFormCompanions[2]));
    } else if !Truthy(vals[3]) {
      assert r == Err(MissingCompanion(ReportFormCompanions[3]));
    } else {
      assert r.Ok?;
    }
  }

  /**
   * Once a companion is found falsy the later ones are not consulted:
   * changing them does not change the outcome.
   */
  lemma ReportFormStopsAtFirstMissing(enable: string, vals: seq<Option<string>>, other: seq<Option<string>>, k: nat)
    requires |vals| == 4 && |other| == 4 && k < 4
    requires !Truthy(vals[k])
    requires vals[..k + 1] == other[..k + 1]
    ensures ReportFormOf(enable, vals) == ReportFormOf(enable, other)
  {
    assert forall j :: 0 <= j <= k ==> vals[j] == vals[..k + 1][j] == other[..k + 1][j] == other[j];
  }

  /** When the report form is disabled, whatever the companions hold is ignored. */
  lemma ReportFormDisabledIgnoresCompanions(vals: seq<Option<string>>)
    requires |vals| == 4
    ensures ReportFormOf("false", vals) == Ok(ReportFormDisabled)
  {
  }

  /** With the report form enabled and every companion non-empty, they are copied unchanged. */
  lemma ReportFormEnabledCopies(url: string, errorEntry: string, platformEntry: string, urlEntry: string)
    requires url != "" && errorEntry != "" && platformEntry != "" && urlEntry != ""
    ensures ReportFormEnv("true", Some(url), Some(errorEntry), Some(platformEntry), Some(urlEntry))
      == Ok(ReportFormEnabled(url, ReportFormEntries(errorEntry, platformEntry, urlEntry)))
  {
  }

  /** The missing-companion message names exactly one field. */
  lemma {:induction false} MissingMessageNamesField(a: string, b: string)
    requires Message(MissingCompanion(a)) == Message(MissingCompanion(b))
    ensures a == b
  {
    var m := Message(MissingCompanion(a)).value;
    assert |a| == |b|;
    assert m[8..8 + |a|] == a;
    assert m[8..8 + |b|] == b;
  }

  // ---------------------------------------------------------------------
  // Assembler
  // ---------------------------------------------------------------------

  /** The three flags the assembler parses before it looks at the chains. */
  predicate FlagsParse(env: RawEnv) {
    ParseBool(Get(env, EnableOutdatedNetworkModal)).Ok?
    && ParseBool(Get(env, EthereumForceUpdateGlobalExitRoot)).Ok?
    && ParseBool(Get(env, EnableDepositWarning)).Ok?
  }

  /** The report-form section of an environment. */
  function ReportFormSection(env: RawEnv): Result<ReportForm, LoadError>
    requires Typed(env)
  {
    ReportFormEnv(env[EnableReportForm], Get(env, ReportFormUrl), Get(env, ReportFormErrorEntry),
      Get(env, ReportFormPlatformEntry), Get(env, ReportFormUrlEntry))
  }

  /**
   * The assembler succeeds exactly when the three flags parse, the chain
   * lookup resolved a non-empty list and the report-form section builds;
   * the configuration then holds the parsed flags, the chains in the same
   * order, the two sections and the fixed disabled fiat section.
   */
  lemma EnvToDomainSucceeds(env: RawEnv, lookup: ChainLookup)
    requires Typed(env)
    ensures EnvToDomain(env, lookup).Ok? <==>
      FlagsParse(env) && lookup.Resolved? && |lookup.chains| > 0 && ReportFormSection(env).Ok?
    ensures EnvToDomain(env, lookup).Ok? ==>
      var c := EnvToDomain(env, lookup).value;
      var modalFlag := ParseBool(Get(env, EnableOutdatedNetworkModal)).value;
      c.bridgeApiUrl == env[BridgeApiUrl]
      && c.chains == lookup.chains
      && c.fiatExchangeRates == FiatExchangeRates(false)
      && Some(ShowBool(c.forceUpdateGlobalExitRootForL1)) == Get(env, EthereumForceUpdateGlobalExitRoot)
      && Some(ShowBool(c.isDepositWarningEnabled)) == Get(env, EnableDepositWarning)
      && (c.outdatedNetworkModal.ModalEnabled? <==> modalFlag)
      && c.outdatedNetworkModal == OutdatedNetworkModalEnv(modalFlag, env)
      && c.reportForm == ReportFormSection(env).value
  {
  }

  /** A flag that does not parse fails the load before the chain lookup is consulted. */
  lemma FlagErrorsPrecedeChains(env: RawEnv, lookup: ChainLookup, other: ChainLookup)
    requires Typed(env) && !FlagsParse(env)
    ensures EnvToDomain(env, lookup) == EnvToDomain(env, other)
    ensures EnvToDomain(env, lookup).Err? && EnvToDomain(env, lookup).error.FlagRejected?
  {
  }

  /** An absent outdated-network-modal flag fails the load, although the schema marks it optional. */
  lemma AbsentOutdatedModalFlagFails(env: RawEnv, lookup: ChainLookup)
    requires Typed(env) && EnableOutdatedNetworkModal !in env
    ensures EnvToDomain(env, lookup) == Err(FlagRejected(Absent))
  {
  }

  /** An empty chain list fails the load whatever the report-form variables hold. */
  lemma EmptyChainsFailBeforeReportForm(env: RawEnv)
    requires Typed(env) && FlagsParse(env)
    ensures EnvToDomain(env, Resolved([])) == Err(NoChains)
  {
  }

  /** Once the flags parse, a failed chain lookup is the load's error and the report form is not consulted. */
  lemma LookupFailurePropagates(env: RawEnv, reason: string)
    requires Typed(env) && FlagsParse(env)
    ensures EnvToDomain(env, LookupFailed(reason)) == Err(ChainLookupFailed(reason))
  {
  }

  /** A report-form error only surfaces once the flags parsed and the chains are non-empty. */
  lemma ReportFormErrorsNeedChains(env: RawEnv, lookup: ChainLookup, field: string)
    requires Typed(env)
    requires EnvToDomain(env, lookup) == Err(MissingCompanion(field))
    ensures FlagsParse(env) && lookup.Resolved? && |lookup.chains| > 0
    ensures ReportFormSection(env) == Err(MissingCompanion(field))
  {
  }

  /** Once the flags parse and the chains are non-empty, a report-form error is the load's error. */
  lemma ReportFormErrorAfterChains(env: RawEnv, lookup: ChainLookup)
    requires Typed(env) && FlagsParse(env)
    requires lookup.Resolved? && |lookup.chains| > 0
    requires ReportFormSection(env).Err?
    ensures EnvToDomain(env, lookup) == Err(ReportFormSection(env).error)
  {
  }

  /** With the outdated-network-modal flag "true", its companions are carried as found, even undefined. */
  lemma OutdatedModalCarriesCompanions(env: RawEnv, lookup: ChainLookup)
    requires Typed(env) && Get(env, EnableOutdatedNetworkModal) == Some("true")
    requires EnvToDomain(env, lookup).Ok?
    ensures EnvToDomain(env, lookup).value.outdatedNetworkModal == ModalEnabled(
      Get(env, OutdatedNetworkModalMessageParagraph1), Get(env, OutdatedNetworkModalMessageParagraph2),
      Get(env, OutdatedNetworkModalTitle), Get(env, OutdatedNetworkModalUrl))
  {
  }

  /** The fiat-exchange-rates flag has no effect on the outcome. */
  lemma FiatFlagIgnored(env: RawEnv, lookup: ChainLookup, s: string)
    requires Typed(env)
    ensures Typed(env[EnableFiatExchangeRates := s])
    ensures EnvToDomain(env[EnableFiatExchangeRates := s], lookup) == EnvToDomain(env, lookup)
  {
    var env' := env[EnableFiatExchangeRates := s];
    assert forall k :: k != EnableFiatExchangeRates ==> Get(env', k) == Get(env, k);
  }

  // ---------------------------------------------------------------------
  // Schema
  // ---------------------------------------------------------------------

  /** A field some rule refuses makes the whole load fail, with an issue naming that field. */
  lemma LoadRejectsRefusedField(raw: RawEnv, lookup: ChainLookup, isUrl: string -> bool, i: nat)
    requires i < |Schema| && !RuleAccepts(Schema[i], raw, isUrl)
    ensures Load(raw, lookup, isUrl).Err?
    ensures Load(raw, lookup, isUrl).error.SchemaRejected?
    ensures Issue(Schema[i].name, RuleIssue(Schema[i], raw, isUrl).value) in Load(raw, lookup, isUrl).error.issues
  {
  }

  /** A required contract address that is absent or not 42 characters long fails the load. */
  lemma LoadRejectsBadAddress(raw: RawEnv, lookup: ChainLookup, isUrl: string -> bool, name: string)
    requires name in {EthereumBridgeContractAddress, EthereumProofOfEfficiencyContractAddress,
                      EthereumRollupManagerAddress, PolygonZkEvmBridgeContractAddress}
    requires name !in raw || Utf16Length(raw[name]) != AddressLength
    ensures Load(raw, lookup, isUrl).Err? && Load(raw, lookup, isUrl).error.SchemaRejected?
    ensures Issue(name, if name in raw then WrongLength(AddressLength) else Absent)
      in Load(raw, lookup, isUrl).error.issues
  {
    var i := if name == EthereumBridgeContractAddress then 5
      else if name == EthereumProofOfEfficiencyContractAddress then 9
      else if name == EthereumRollupManagerAddress then 10
      else 20;
    assert Schema[i] == FieldRule(name, Length(AddressLength), Required);
    LoadRejectsRefusedField(raw, lookup, isUrl, i);
  }

  /** The optional USDC address, when present, must be 42 characters long. */
  lemma LoadRejectsBadUsdcAddress(raw: RawEnv, lookup: ChainLookup, isUrl: string -> bool)
    requires FiatExchangeRatesEthereumUsdcAddress in raw
    requires Utf16Length(raw[FiatExchangeRatesEthereumUsdcAddress]) != AddressLength
    ensures Load(raw, lookup, isUrl).Err? && Load(raw, lookup, isUrl).error.SchemaRejected?
    ensures Issue(FiatExchangeRatesEthereumUsdcAddress, WrongLength(AddressLength))
      in Load(raw, lookup, isUrl).error.issues
  {
    LoadRejectsRefusedField(raw, lookup, isUrl, 15);
  }

  /** A required URL that the URL check refuses fails the load. */
  lemma LoadRejectsBadUrl(raw: RawEnv, lookup: ChainLookup, isUrl: string -> bool, name: string)
    requires name in {BridgeApiUrl, EthereumExplorerUrl, EthereumRpcUrl,
                      PolygonZkEvmExplorerUrl, PolygonZkEvmRpcUrl}
    requires name in raw && !isUrl(raw[name])
    ensures Load(raw, lookup, isUrl).Err? && Load(raw, lookup, isUrl).error.SchemaRejected?
    ensures Issue(name, InvalidUrl) in Load(raw, lookup, isUrl).error.issues
  {
    var i := if name == BridgeApiUrl then 0
      else if name == EthereumExplorerUrl then 6
      else if name == EthereumRpcUrl then 11
      else if name == PolygonZkEvmExplorerUrl then 21
      else 24;
    assert Schema[i] == FieldRule(name, Url, Required);
    LoadRejectsRefusedField(raw, lookup, isUrl, i);
  }

  /** The optional fiat-exchange-rates API URL, when present, must pass the URL check. */
  lemma LoadRejectsBadFiatApiUrl(raw: RawEnv, lookup: ChainLookup, isUrl: string -> bool)
    requires FiatExchangeRatesApiUrl in raw && !isUrl(raw[FiatExchangeRatesApiUrl])
    ensures Load(raw, lookup, isUrl).Err? && Load(raw, lookup, isUrl).error.SchemaRejected?
    ensures Issue(FiatExchangeRatesApiUrl, InvalidUrl) in Load(raw, lookup, isUrl).error.issues
  {
    LoadRejectsRefusedField(raw, lookup, isUrl, 14);
  }

  /** Any required variable that is absent fails the load with an issue naming it. */
  lemma LoadRejectsMissingRequired(raw: RawEnv, lookup: ChainLookup, isUrl: string -> bool, i: nat)
    requires i < |Schema| && Schema[i].presence == Required && Schema[i].name !in raw
    ensures Load(raw, lookup, isUrl).Err? && Load(raw, lookup, isUrl).error.SchemaRejected?
    ensures Issue(Schema[i].name, Absent) in Load(raw, lookup, isUrl).error.issues
  {
    LoadRejectsRefusedField(raw, lookup, isUrl, i);
  }

  /** Replacing the value of a variable that only plain-string rules name leaves the issues unchanged. */
  lemma {:induction false} IssuesIgnorePlainString(
    rules: seq<FieldRule>, raw: RawEnv, isUrl: string -> bool, name: string, s: string)
    requires name in raw
    requires forall i :: 0 <= i < |rules| && rules[i].name == name ==> rules[i].shape == AnyString
    ensures SchemaIssues(rules, raw[name := s], isUrl) == SchemaIssues(rules, raw, isUrl)
  {
    if rules != [] {
      assert RuleIssue(rules[0], raw[name := s], isUrl) == RuleIssue(rules[0], raw, isUrl);
      IssuesIgnorePlainString(rules[1..], raw, isUrl, name, s);
    }
  }

  /** Removing a variable that only optional plain-string rules name leaves the issues unchanged. */
  lemma {:induction false} IssuesIgnoreOptionalRemoval(
    rules: seq<FieldRule>, raw: RawEnv, isUrl: string -> bool, name: string)
    requires forall i :: 0 <= i < |rules| && rules[i].name == name ==>
      rules[i].shape == AnyString && rules[i].presence == Optional
    ensures SchemaIssues(rules, raw - {name}, isUrl) == SchemaIssues(rules, raw, isUrl)
  {
    if rules != [] {
      assert RuleIssue(rules[0], raw - {name}, isUrl) == RuleIssue(rules[0], raw, isUrl);
      IssuesIgnoreOptionalRemoval(rules[1..], raw, isUrl, name);
    }
  }

  /** The schema accepts an absent outdated-network-modal flag wherever it accepts a present one. */
  lemma SchemaAcceptsAbsentModalFlag(raw: RawEnv, isUrl: string -> bool)
    ensures Parse(raw - {EnableOutdatedNetworkModal}, isUrl).Ok? <==> Parse(raw, isUrl).Ok?
  {
    IssuesIgnoreOptionalRemoval(Schema, raw, isUrl, EnableOutdatedNetworkModal);
  }

  /** The two wrapped-token addresses are accepted at any length. */
  lemma WrappedAddressesAnyLength(raw: RawEnv, isUrl: string -> bool, name: string, s: string)
    requires name in {EthereumWrappedAddress, PolygonZkEvmWrappedAddress}
    requires name in raw
    ensures Parse(raw[name := s], isUrl).Ok? <==> Parse(raw, isUrl).Ok?
  {
    IssuesIgnorePlainString(Schema, raw, isUrl, name, s);
  }

  /** Every variable the assembler reads. */
  const AssemblerReads: set<string> := {
    BridgeApiUrl, EnableDepositWarning, EnableOutdatedNetworkModal, EnableReportForm,
    EthereumForceUpdateGlobalExitRoot, OutdatedNetworkModalMessageParagraph1,
    OutdatedNetworkModalMessageParagraph2, OutdatedNetworkModalTitle, OutdatedNetworkModalUrl,
    ReportFormErrorEntry, ReportFormPlatformEntry, ReportFormUrl, ReportFormUrlEntry
  }

  /** The assembler's outcome depends on no variable outside AssemblerReads. */
  lemma EnvToDomainReadsOnly(a: RawEnv, b: RawEnv, lookup: ChainLookup)
    requires Typed(a) && Typed(b)
    requires forall name :: name in AssemblerReads ==> Get(a, name) == Get(b, name)
    ensures EnvToDomain(a, lookup) == EnvToDomain(b, lookup)
  {
    assert Get(a, BridgeApiUrl) == Get(b, BridgeApiUrl);
    assert Get(a, EnableReportForm) == Get(b, EnableReportForm);
  }

  /** The schema declares every variable the assembler reads. */
  lemma AssemblerReadsDeclared()
    ensures AssemblerReads <= SchemaNames(Schema)
  {
    var names := SchemaNames(Schema);
    assert Schema[0].name in names && Schema[1].name in names && Schema[3].name in names;
    assert Schema[4].name in names && Schema[7].name in names && Schema[16].name in names;
    assert Schema[17].name in names && Schema[18].name in names && Schema[19].name in names;
    assert Schema[26].name in names && Schema[27].name in names && Schema[28].name in names;
    assert Schema[29].name in names;
  }

  /** Stripping the undeclared variables before assembling changes nothing. */
  lemma LoadIsEnvToDomainOnRaw(raw: RawEnv, lookup: ChainLookup, isUrl: string -> bool)
    requires Parse(raw, isUrl).Ok?
    ensures Typed(raw)
    ensures Load(raw, lookup, isUrl) == EnvToDomain(raw, lookup)
  {
    var env := Parse(raw, isUrl).value;
    ParsedIsTyped(raw, isUrl);
    AssemblerReadsDeclared();
    EnvToDomainReadsOnly(env, raw, lookup);
  }

  /** A load that succeeds always carries a non-empty chain list; an empty one always fails it. */
  lemma LoadFailsWithoutChains(raw: RawEnv, isUrl: string -> bool)
    requires Parse(raw, isUrl).Ok? && FlagsParse(Parse(raw, isUrl).value)
    ensures Load(raw, Resolved([]), isUrl) == Err(NoChains)
  {
    ParsedIsTyped(raw, isUrl);
  }
}
