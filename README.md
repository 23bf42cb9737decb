# Environment-configuration loader of the zkEVM bridge front-end

This project models, in Dafny, the environment-configuration loader of the
bridge UI (`src/adapters/env.ts`). The loader takes a snapshot of
string-valued environment variables. It builds one typed configuration
record, or it fails. It runs in four steps:

- The **shape schema** (`envParser`) checks every declared variable. A
  variable is required or optional. Some must be exactly 42 characters long,
  some must be URLs, and the rest may hold any string. Undeclared variables
  are dropped. Every refused field is reported with its issue. The
  assembler does not run when any field is refused.
- The **strict boolean parser** (`stringBooleanParser`) accepts exactly
  `"true"` and `"false"`.
- The **report-form section builder** (`getReportFormEnv`) returns the
  disabled variant when its flag is `"false"`. When the flag is `"true"`, it
  checks the URL, error-entry, platform-entry and URL-entry companions in that
  order. A companion that is undefined or empty fails the build, and the error
  names it.
- The **assembler** (`envToDomain`) parses the outdated-network-modal,
  force-update-global-exit-root and deposit-warning flags. It builds the
  outdated-network-modal section without checking its companions. It then
  takes the chain lookup's outcome and fails on an empty list. Next it builds
  the report-form section. Last it merges everything, with the
  fiat-exchange-rates section fixed to disabled.

Files:

- `wrappers.dfy` holds `Option` and `Result`.
- `env.dfy` (module `Env`) holds the data model and the four steps. `Load`
  composes them.
- `env_properties.dfy` (module `EnvProperties`) holds the lemmas over all
  inputs.
- `env_scenarios.dfy` (module `EnvScenarios`) proves whole-load scenarios as
  lemmas over one sample environment.

Modelling choices:

- The environment is a `map<string, string>`. A name that is not in the map
  is `undefined`.
- The chain lookup (`getChains`) is a parameter of type `ChainLookup`. It
  holds either the resolved list or the lookup's failure.
- The validation library's URL check is a parameter `isUrl: string -> bool`.
  Every statement holds for every such check.
- `.length(42)` counts UTF-16 code units, as JavaScript's `length` does
  (`Utf16Length`).
- Errors thrown by the source become values of `LoadError` inside a
  `Result`. `Message` gives the text the source writes for a missing
  companion and for an empty chain list (env.ts:86-98, 149); the chain
  lookup's own failure keeps its reason.
- `Chain` is an illustrative pass-through record. The loader never looks
  inside a chain.

Behaviour of the code worth noting:

- `VITE_ENABLE_OUTDATED_NETWORK_MODAL` is optional in the schema. The
  assembler still parses it unconditionally, so an absent flag fails the load
  instead of meaning "disabled" (`AbsentOutdatedModalFlagFails`,
  `AbsentModalFlagFails`).
- The two wrapped-token address variables are plain strings and are not
  length-checked (`WrappedAddressesAnyLength`).
- Report-form errors, including a malformed report-form flag, surface only
  after the three other flags have parsed and the chain list has turned out
  non-empty (`LookupFailurePropagates` for a failed lookup;
  `ReportFormErrorsNeedChains` for a missing companion;
  `EmptyChainsFailBeforeReportForm` and `ReportFormErrorAfterChains` for any
  report-form error, a malformed flag included).
- Empty strings count as missing report-form companions, because the checks
  use JavaScript truthiness (`Truthy`).
- The flag parser's error does not carry the offending field or value. The
  model's `FlagRejected` does not carry them either.

## Model

| member | source | states |
|---|---|---|
| Env.ParseBool | src/adapters/env.ts:49-68 | succeeds exactly on "true" and "false", and the value is the boolean the literal spells; undefined fails as a missing string, every other string as not a boolean |
| EnvProperties.ParseBoolRoundTrip | src/adapters/env.ts:49-68 | parsing a boolean's literal gives the boolean back, and any successful parse came from that literal |
| EnvProperties.ParseBoolRejectsNearMisses | src/adapters/env.ts:58-65 | "", "TRUE", "True", "1", "0" and " true" are all refused as not a boolean |
| Env.Utf16Length | src/adapters/env.ts:193 | a string's JavaScript length lies between its character count and twice that, and equals the count when no character is above U+FFFF |
| Env.RuleIssue | src/adapters/env.ts:186-217 | a field raises no issue exactly when its rule accepts it; it raises "absent" exactly when it is required and undefined, "invalid URL" exactly when it is present under a URL rule and the URL check refuses it, and a present value refused by a length rule raises "wrong length" with that rule's length |
| Env.SchemaIssues | src/adapters/env.ts:186-217 | no issue is reported exactly when every rule accepts; every refused field is reported with its issue, and every reported issue belongs to a refused declared field |
| Env.Parse | src/adapters/env.ts:185-218 | the schema accepts exactly when every rule accepts; the accepted environment keeps the declared variables with their values unchanged and drops the rest; a refusal carries at least one issue, and its issues are exactly the schema's issues (every refused field, and only refused fields) |
| Env.FirstFalsy | src/adapters/env.ts:85-99 | reference definition of the first undefined-or-empty companion: all before it are truthy and it is not |
| Env.ReportFormEnv | src/adapters/env.ts:70-110 | disabled exactly when the flag is "false"; a flag other than "true"/"false" fails as not a boolean; the enabled variant carries the four companions unchanged; a missing-companion error only arises when enabled and names a companion |
| EnvProperties.ReportFormChecksInOrder | src/adapters/env.ts:85-99 | when enabled, the build fails exactly when some companion is falsy, naming the first falsy one in the order URL, error entry, platform entry, URL entry |
| EnvProperties.ReportFormStopsAtFirstMissing | src/adapters/env.ts:85-99 | the companions after the first falsy one are not consulted: changing them leaves the outcome unchanged |
| EnvProperties.ReportFormDisabledIgnoresCompanions | src/adapters/env.ts:77-83 | with the flag "false" the section is disabled whatever the companions hold, present or absent |
| EnvProperties.ReportFormEnabledCopies | src/adapters/env.ts:101-109 | with the flag "true" and four non-empty companions, the enabled variant has url, error, platform and url entries equal to them |
| Env.Message | src/adapters/env.ts:86-149 | the text the source throws: "No any chains." for an empty chain list, and "Missing " + the field + " env vars" for a missing companion, naming that field; no text for the library's own schema and flag errors |
| EnvProperties.MissingMessageNamesField | src/adapters/env.ts:85-98 | two missing-companion messages are equal only when they name the same variable |
| Env.OutdatedNetworkModalEnv | src/adapters/env.ts:134-144 | enabled exactly when the flag is true, and then carries the four companion values as found, undefined included, with no presence check |
| Env.EnvToDomain | src/adapters/env.ts:112-183 | on success the chains are the resolved list unchanged and non-empty, the bridge API URL is the variable's value and the fiat section is disabled |
| EnvProperties.EnvToDomainSucceeds | src/adapters/env.ts:127-181 | the assembler succeeds exactly when the three flags parse, the chain list is resolved and non-empty and the report-form section builds; the record then holds the parsed flags, the same chains, both sections and the disabled fiat section |
| EnvProperties.FlagErrorsPrecedeChains | src/adapters/env.ts:127-147 | a flag that does not parse fails the load with a flag error, whatever the chain lookup produced |
| EnvProperties.AbsentOutdatedModalFlagFails | src/adapters/env.ts:127-129 | an undefined outdated-network-modal flag fails the load as a missing string |
| EnvProperties.EmptyChainsFailBeforeReportForm | src/adapters/env.ts:147-150 | once the flags parse, an empty chain list fails with "No any chains." whatever the report-form variables hold |
| EnvProperties.LookupFailurePropagates | src/adapters/env.ts:147 | once the flags parse, a failed chain lookup fails the load with its own reason, whatever the report-form variables hold |
| EnvProperties.ReportFormErrorsNeedChains | src/adapters/env.ts:147-180 | a missing-companion failure implies the flags parsed and the chain list was non-empty, and is the report-form section's own error |
| EnvProperties.ReportFormErrorAfterChains | src/adapters/env.ts:147-180 | with the flags parsed and a non-empty chain list, a report-form error is the load's error |
| EnvProperties.OutdatedModalCarriesCompanions | src/adapters/env.ts:134-141 | with the flag "true", a successful load's modal section carries the four companions exactly as found |
| EnvProperties.FiatFlagIgnored | src/adapters/env.ts:168-170 | changing VITE_ENABLE_FIAT_EXCHANGE_RATES to any string never changes the assembler's outcome |
| EnvProperties.EnvToDomainReadsOnly | src/adapters/env.ts:112-126 | the assembler's outcome depends only on the thirteen variables it destructures |
| EnvProperties.AssemblerReadsDeclared | src/adapters/env.ts:185-219 | every variable the assembler reads is declared by the schema |
| Env.ParsedIsTyped | src/adapters/env.ts:188-192 | an accepted environment holds the bridge API URL and the report-form flag as strings |
| Env.Load | src/adapters/env.ts:222-226 | a successful load means every schema rule accepted, the chain list is the resolved one and non-empty, and the bridge API URL is copied from the environment |
| EnvProperties.LoadIsEnvToDomainOnRaw | src/adapters/env.ts:185-219 | once the schema accepts, the load is the assembler run on the raw environment: dropping undeclared variables changes nothing |
| EnvProperties.LoadFailsWithoutChains | src/adapters/env.ts:147-150 | an accepted environment whose flags parse still fails the load when no chain is resolved |
| EnvProperties.LoadRejectsRefusedField | src/adapters/env.ts:186-217 | any field a rule refuses fails the load with an issue naming that field and its kind |
| EnvProperties.LoadRejectsBadAddress | src/adapters/env.ts:193-208 | each of the four required contract addresses, when undefined or not 42 units long, fails the load with an issue naming it |
| EnvProperties.LoadRejectsBadUsdcAddress | src/adapters/env.ts:203 | the optional USDC address, when present with another length, fails the load with a wrong-length issue |
| EnvProperties.LoadRejectsBadUrl | src/adapters/env.ts:188-212 | each of the five required URL variables, when refused by the URL check, fails the load with an invalid-URL issue |
| EnvProperties.LoadRejectsBadFiatApiUrl | src/adapters/env.ts:202 | the optional fiat-exchange-rates API URL, when present and refused by the URL check, fails the load with an invalid-URL issue |
| EnvProperties.LoadRejectsMissingRequired | src/adapters/env.ts:186-217 | any required variable that is undefined fails the load with an "absent" issue naming it |
| EnvProperties.IssuesIgnorePlainString | src/adapters/env.ts:200-213 | replacing the value of a variable that only plain-string rules name leaves the schema's issues unchanged |
| EnvProperties.WrappedAddressesAnyLength | src/adapters/env.ts:200-213 | the two wrapped-token addresses are accepted at any length: replacing either leaves acceptance unchanged |
| EnvProperties.IssuesIgnoreOptionalRemoval | src/adapters/env.ts:191 | removing a variable that only optional plain-string rules name leaves the schema's issues unchanged |
| EnvProperties.SchemaAcceptsAbsentModalFlag | src/adapters/env.ts:191 | the schema accepts an environment without the outdated-network-modal flag exactly when it accepts it with the flag |
| EnvScenarios.SampleAccepted | src/adapters/env.ts:186-217 | a complete sample environment with 42-unit addresses and accepted URLs passes the schema |
| EnvScenarios.ReportFormOffLoads | src/adapters/env.ts:77-83 | report form "false" with its companions absent loads, with the disabled report form, the given chains and the parsed flags |
| EnvScenarios.ReportFormOnWithoutUrlFails | src/adapters/env.ts:85-87 | report form "true" with its URL undefined fails naming VITE_REPORT_FORM_URL |
| EnvScenarios.EmptyChainsFail | src/adapters/env.ts:147-150 | a well-formed environment with no resolved chain fails with "No any chains." |
| EnvScenarios.ShortAddressFails | src/adapters/env.ts:193 | a 41-unit bridge contract address fails the schema with a wrong-length issue naming it |
| EnvScenarios.ShortWrappedAddressAccepted | src/adapters/env.ts:200 | a three-character wrapped-token address passes the schema |
| EnvScenarios.AbsentModalFlagFails | src/adapters/env.ts:127-129 | the schema accepts the sample without the outdated-network-modal flag, yet the load fails as a missing string |

## Left out

- Reading `import.meta.env` inside `loadEnv` is left out. The environment snapshot is a parameter of `Load`.
- The asynchronous `getChains` call and its promise are left out. Its outcome, a chain list or a failure, is the `ChainLookup` parameter. How chains are resolved (`src/constants`) is not part of this model. Its entries are only passed through.
- A chain's fields come from `src/domain`, which is not part of this model. `Chain` is an illustrative record: the loader only passes chains through unchanged, so no statement depends on its fields.
- The text of a flag error is left out. A flag that does not parse reaches the caller as the validation library's error object, whose text the library composes; the model keeps only its kind (`FlagRejected`).
- The validation library's URL grammar is left out. The URL check is the parameter `isUrl`.
- The exact text and layout of the validation library's aggregated error for a schema rejection are left out. The model keeps the list of issues, each with its field and kind; it does not promise their order.
- The commented-out fiat-exchange-rates builder is dead code and is left out. The section is always disabled.
- The React views (token info table, transaction card, chain) are left out. They render configuration and transactions and hold none of the loader's logic.
