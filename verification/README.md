# Filter processor configuration, expression matcher list, apache endpoint defaulting

A Dafny model of three pieces of pure decision logic from the OpenTelemetry
Collector contrib repository:

- **Filter processor configuration** (`processor/filterprocessor/config.go`).
  It covers the static severity table, which maps both `"1"`..`"24"` and
  `TRACE`..`FATAL4` to log severity numbers. It covers case-insensitive severity
  validation and lookup, and the log match properties: their validation,
  emptiness, and conversion to the generic match-properties record. It also
  covers `Config.Validate`. That check rejects a signal configured with both
  OTTL condition lists and include/exclude blocks. Otherwise it accumulates the
  parse errors of every condition list that is set.
- **Expression matcher list** (`internal/filter/filtermetric/expr_matcher.go`).
  One matcher is compiled per expression, and building fails on the first
  expression that does not compile. A metric is matched as a short-circuiting OR
  that stops at the first match or the first error.
- **Apache receiver factory** (`receiver/apachereceiver/factory.go`). It covers
  the default collection interval and HTTP timeout, and the server name and port
  taken from the status endpoint. An explicit port wins. Otherwise `https` gives
  443, `http` gives 80, and any other scheme gives the empty string. It also
  covers how the metrics receiver is created from them.

Files: `wrappers.dfy` (Option, Result), `severity.dfy` (module `Severity`),
`filter_config.dfy` (module `FilterConfig`), `expr_matcher.dfy` (module
`ExprMatcher`), `apache_factory.dfy` (module `ApacheFactory`).

Modelling choices:

- Go nil matters in `Config.Validate`, which tests `!= nil` and not the length.
  So condition lists are `Option<seq<string>>`, and `Some([])` counts as set.
  Include/exclude blocks are `Option`s too.
- The aggregated `multierr` error is a `seq<ConfigError>`, and `[]` is nil.
- The OTTL parsers are not part of this model. The per-context parser is a
  function parameter `Parser = (ParserContext, seq<string>) -> Option<string>`,
  and it stands for `PrepareConditionForParsing` too.
- `filterexpr.NewMatcher` and `Matcher.MatchMetric` are function parameters
  returning `Result`s. The metric type and the error type are type parameters.
- `url.Parse` is a function parameter returning either the scheme, hostname and
  port, or the parse error.
- `strings.ToUpper` is modelled as ASCII upper-casing.
- A missing table key yields Go's zero value, `0` (SeverityNumberUnspecified).
  This happens in `severityNumber`, and the empty severity is one such case.
- The source writes the 48-entry severity table as one literal. The model
  writes it as the union of its decimal half and its named half. The entries
  are the same.
- `MatchMetric` also returns how many matchers it evaluated, so the
  short-circuit behaviour can be stated.
- `Config.Validate` does not gather every error. A mode conflict is returned
  alone, and only the first one in the order spans, metrics, logs. No condition
  list is parsed in that case. Parse errors are gathered only when there is no
  conflict.
- The include/exclude severity checks at the end of `Config.Validate` never
  run, although the `validate` methods of the log match properties
  (config.go:234, config.go:285) exist for them. See the second Findings row.


## Model

| member | source | states |
|---|---|---|
| Severity.NumericAndNamedKeysAgree | processor/filterprocessor/config.go:132-180 | for every k in 1..24, the decimal key "k" and the k-th level name (TRACE, TRACE2, ..., FATAL4) are both table keys mapped to severity number k |
| Severity.TableShape | processor/filterprocessor/config.go:132-181 | every table key is already upper case and every table value is a real severity number in 1..24 |
| Severity.TableKeysAreLevelSpellings | processor/filterprocessor/config.go:132-181 | the table has no other keys: every key is the decimal rendering or the level name of the severity number it maps to, which lies in 1..24 |
| Severity.ValidSeverity | processor/filterprocessor/config.go:189-199 | definition of acceptance: unset, or the upper-cased string is a table key; characterised by ValidSeverityIffFoldsToKey and ValidSeverityIffLevelSpelling |
| Severity.ValidSeverityIffLevelSpelling | processor/filterprocessor/config.go:189-206 | a non-empty severity is accepted iff it spells one of the 24 levels (a level name in any case, or the decimal level), and severityNumber then yields exactly that level |
| Severity.ValidSeverityIffFoldsToKey | processor/filterprocessor/config.go:189-199 | validate accepts exactly the empty severity and the strings equal to some table key when ASCII case is ignored |
| Severity.SeverityNumberOf | processor/filterprocessor/config.go:203-206 | severityNumber lies in 0..24 and is non-zero iff the severity is non-empty and valid |
| Severity.SeverityCaseInsensitive | processor/filterprocessor/config.go:189-206 | two severities equal up to case agree on validation and on the severity number |
| Severity.LevelSpellingsYieldLevel | processor/filterprocessor/config.go:203-206 | any case variant of the k-th level name, and the decimal k, is valid and yields severity number k |
| Severity.InfoIsCaseInsensitive | processor/filterprocessor/config.go:274-278 | "info" and "INFO" are both valid and both yield SeverityNumberInfo (9) |
| FilterConfig.ValidateSeverity | processor/filterprocessor/config.go:189-200 | logSeverity.validate returns nil iff the severity is valid; otherwise it returns the invalid-severity error for that string |
| FilterConfig.ValidateSeverityNumberMatch | processor/filterprocessor/config.go:286-288 | the severity-number properties are valid iff their minimum is |
| FilterConfig.ValidateLogMatch | processor/filterprocessor/config.go:235-240 | a log block fails validation iff it has severity-number properties whose minimum is invalid, and the error names that minimum |
| FilterConfig.IsEmpty | processor/filterprocessor/config.go:244-248 | a block that isEmpty never fails validation; IsEmptyIffUnconstrained characterises it |
| FilterConfig.IsEmptyIffUnconstrained | processor/filterprocessor/config.go:244-248 | isEmpty holds iff the converted match-properties record constrains nothing; the match type never affects it |
| FilterConfig.ToMatchProperties | processor/filterprocessor/config.go:251-271 | match type, resource and record attributes, severity texts and bodies are carried over unchanged; the severity-number match is present iff the block has one, with Min the severity number of the minimum and MatchUndefined copied |
| FilterConfig.ToMatchPropertiesKernel | processor/filterprocessor/config.go:251-271 | two blocks convert to the same record iff they agree everywhere except the spelling of the minimum, and their minimums have the same severity number |
| FilterConfig.ValidatedMinimumIsSeverity | processor/filterprocessor/config.go:262-267 | after validation, the converted minimum is in 0..24 and is SeverityNumberUnspecified iff no minimum was written |
| FilterConfig.MinimumCaseIrrelevant | processor/filterprocessor/config.go:274-278 | changing the case of the minimum changes neither validation nor conversion |
| FilterConfig.FirstConflict | processor/filterprocessor/config.go:294-302 | the mutual-exclusion checks find a conflict iff some signal has both a set condition list and an include/exclude block; spans are judged by the trace conditions |
| FilterConfig.Validate | processor/filterprocessor/config.go:293-345 | whenever some signal conflicts, Validate returns exactly one error, a mode conflict |
| FilterConfig.ValidateReportsFirstConflict | processor/filterprocessor/config.go:294-302 | the conflict returned is that of the first conflicting signal in the order spans, metrics, logs |
| FilterConfig.ConflictPrecedesParsing | processor/filterprocessor/config.go:294-306 | on a conflict the result does not depend on the parser: nothing is parsed |
| FilterConfig.SeverityChecksUnreachable | processor/filterprocessor/config.go:300-342 | the include/exclude severity checks contribute nothing unless the configuration is a log conflict, which was already returned |
| FilterConfig.Append | processor/filterprocessor/config.go:309 | multierr.Append: a nil error leaves the list unchanged; a non-nil one is added after the existing errors, which keep their order |
| FilterConfig.ConditionErrorsInParseOrder | processor/filterprocessor/config.go:304-334 | the five parsing steps append exactly the parse errors of the set condition lists, in the order span, span event, metric, data point, log |
| FilterConfig.ValidateAccumulatesParseErrors | processor/filterprocessor/config.go:304-344 | without a conflict, Validate returns every parse error of every set list, in parse order, and nothing else |
| FilterConfig.ValidateReportsEveryParseError | processor/filterprocessor/config.go:304-334 | without a conflict, each failing set list's error is in the result, not just the first one |
| FilterConfig.ValidateNilIff | processor/filterprocessor/config.go:293-345 | Validate returns nil iff no signal conflicts and every set condition list parses |
| FilterConfig.ValidateIgnoresMinimum | processor/filterprocessor/config.go:336-342 | Validate's result never depends on the minimum severities of the log include/exclude blocks |
| FilterConfig.InvalidMinimumAccepted | processor/filterprocessor/config.go:336-342 | as written, an include block with minimum "bogus" fails its own validation, yet Validate returns nil and the matcher gets SeverityNumberUnspecified |
| FilterConfig.ValidateCorrected | processor/filterprocessor/config.go:293-345 | the corrected check still returns exactly one mode-conflict error on a conflict |
| FilterConfig.ValidateCorrectedNilIff | processor/filterprocessor/config.go:293-345 | the corrected check returns nil iff no conflict, every set list parses, and the include and exclude log blocks validate |
| FilterConfig.CorrectedRejectsInvalidMinimum | processor/filterprocessor/config.go:336-342 | the corrected check rejects the "bogus" minimum with the invalid-severity error |
| ExprMatcher.NewExprMatcher | internal/filter/filtermetric/expr_matcher.go:27-37 | succeeds iff every expression compiles, and then yields one matcher per expression in input order; otherwise it returns the error of the first expression that fails |
| ExprMatcher.MatchMetric | internal/filter/filtermetric/expr_matcher.go:39-50 | (true, nil) iff some matcher matches and all earlier ones returned (false, nil); the first error before any match is returned with false; (false, nil) iff every matcher returned (false, nil), so also for an empty list; with no errors this is the plain OR; evaluation stops right after the first match or error |
| ApacheFactory.CreateDefaultConfig | receiver/apachereceiver/factory.go:47-59 | the default configuration has type "apache", a 10-second collection interval and a 10-second HTTP timeout |
| ApacheFactory.DefaultPort | receiver/apachereceiver/factory.go:64-73 | an explicit port is kept; with no port, a known scheme gives its port from the scheme table (http, https); the port is empty iff the URL has none and the scheme is unknown |
| ApacheFactory.DefaultPortCases | receiver/apachereceiver/factory.go:61-76 | an explicit port is kept; with no port, https gives "443", http gives "80", any other scheme gives ""; the port is empty iff the URL has none and the scheme is neither http nor https |
| ApacheFactory.DefaultPortIdempotent | receiver/apachereceiver/factory.go:64-72 | defaulting a URL that already carries the defaulted port changes nothing |
| ApacheFactory.SchemeIrrelevantWithPort | receiver/apachereceiver/factory.go:64-66 | when the URL has a port, the scheme does not affect the result |
| ApacheFactory.ParseResourceAttributesAsWritten | receiver/apachereceiver/factory.go:61-76 | as written, the function returns normally iff the endpoint parses; on a parse error the nil URL is dereferenced |
| ApacheFactory.AsWrittenNeverReturnsParseError | receiver/apachereceiver/factory.go:61-76 | as written, no parse error ever reaches the caller |
| ApacheFactory.ParseResourceAttributes | receiver/apachereceiver/factory.go:61-76 | corrected: a parse error is returned; otherwise the server name is the hostname and the port is the defaulted port, with an explicit port kept |
| ApacheFactory.CorrectedAgreesOnSuccess | receiver/apachereceiver/factory.go:61-76 | on every successful parse, the corrected and the as-written functions return the same server name and port |
| ApacheFactory.CreateMetricsReceiver | receiver/apachereceiver/factory.go:78-100 | corrected: a parse error is returned and no scraper is built; a scraper-helper error is returned; the receiver is built iff nothing fails, and its scraper has the endpoint's hostname and defaulted port |
| ApacheFactory.CreateMetricsReceiverAsWritten | receiver/apachereceiver/factory.go:78-100 | as written, creating the receiver panics iff the endpoint does not parse; on every endpoint that parses it ends exactly as the corrected version, so the parse-error branch at lines 85-88 is never taken |

## Left out

- The OTTL condition parsers and the functions they are built with are not part of this model. The parse result of a list is a parameter.
- `filterexpr` is not part of this model. Compiling and evaluating an expression are parameters.
- `multierr` flattening of nested multi-errors is left out. A parse error is appended as one element.
- Error message texts and Go `%w` wrapping are reduced to the constructors of `ConfigError`.
- Severity.ValidSeverityIffFoldsToKey: uses ASCII upper-casing, because Unicode case mapping is out of scope. Go's `strings.ToUpper` also maps a few non-ASCII letters to ASCII ones, such as the dotless `ı` to `I`. So Go accepts `"ınfo"` and the model does not.
- Severity.SeverityNumberOf: the same ASCII-only upper-casing applies.
- `filtermetric.MatchProperties` and most fields of `filterconfig.MatchProperties` are left out, because their definitions live outside the modelled files. Only presence, or the fields the log conversion writes, matters here.
- `MetricFilters.RegexpConfig` and `ProcessorSettings` are left out, because `Validate` never reads them.
- Include/exclude matching, batch walking and empty-container pruning are left out, because the processor implementations are not in the modelled files. `processor/filterprocessor/factory.go` is component wiring.
- `url.Parse` is a parameter. The apache scraper itself, `metadata.DefaultMetricsSettings` and the receiver settings are left out. So is the value of `defaultEndpoint`, which is defined outside the modelled files and is a parameter of `CreateDefaultConfig`.
- ApacheFactory.CreateMetricsReceiver: models the corrected parse-error path, which returns the error. As written, the call panics on an endpoint that does not parse, and this member does not model that; `CreateMetricsReceiverAsWritten` does.
- The errors of `scraperhelper.NewScraper` and `NewScraperControllerReceiver` are parameters. Those helpers are framework code.

## Findings

| source | as written | input that shows it | evidently intended | confidence | as-written member | corrected member |
|---|---|---|---|---|---|---|
| receiver/apachereceiver/factory.go:61-76 | `url.Parse` returns a nil URL with its error, and `u.Hostname()` dereferences it before the error is returned, so the error branch of `createMetricsReceiver` (lines 85-88) is never reached | an endpoint `url.Parse` rejects, e.g. `"://status"` (missing protocol scheme) | return the parse error without touching the URL, so that `createMetricsReceiver` reports it | high (not executed) | ApacheFactory.ParseResourceAttributesAsWritten | ApacheFactory.ParseResourceAttributes |
| processor/filterprocessor/config.go:336-342 | the include/exclude severity checks are guarded by `LogConditions != nil`, but that guard with an include or exclude block was already rejected at line 300, so the checks never run | a logs include block with `severity_number.min: "bogus"` and no log conditions: Validate returns nil and the matcher gets SeverityNumberUnspecified | validate the include and exclude blocks whenever they are in use, i.e. when there are no log conditions | medium (not executed) | FilterConfig.Validate | FilterConfig.ValidateCorrected |
