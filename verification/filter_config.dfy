/**
 * The filter processor's configuration (processor/filterprocessor/config.go):
 * log match properties, their validation, emptiness and conversion to the
 * generic match-properties record, and the top-level `Config.Validate`.
 *
 * The condition parsers of the OTTL contexts are not part of this model:
 * `Parser` stands for "build the parser of this context, prepare the
 * conditions for parsing, parse them", and yields the parse error, if any.
 */
module FilterConfig {
  import opened Wrappers
  import opened Severity

  // ---------------------------------------------------------------------
  // Data model
  // ---------------------------------------------------------------------

  /** filterconfig.Attribute: a key and an optional value constraint (in canonical string form). */
  datatype Attribute = Attribute(key: string, value: Option<string>)

  /** The signal kinds whose two filtering modes exclude each other. */
  datatype Signal = Spans | Metrics | Logs

  /** The OTTL contexts the condition lists are parsed in. */
  datatype ParserContext = SpanContext | SpanEventContext | MetricContext | DataPointContext | LogContext

  /** `ParseStatements(PrepareConditionForParsing(conditions))` in a context: the error message, if any. */
  type Parser = (ParserContext, seq<string>) -> Option<string>

  datatype ConfigError =
    | ConflictingModes(signal: Signal)      // a signal uses conditions and include/exclude together
    | InvalidSeverity(severity: string)     // a severity that is not a table key in any case
    | ConditionParseError(message: string)  // the error of ParseStatements, appended as is

  /** LogSeverityNumberMatchProperties: the minimum severity as written, and MatchUndefined. */
  datatype LogSeverityNumberMatchProperties = LogSeverityNumberMatchProperties(min: string, matchUndefined: bool)

  /** LogMatchProperties: what an include or exclude block of the logs section specifies. */
  datatype LogMatchProperties = LogMatchProperties(
    logMatchType: string,
    resourceAttributes: seq<Attribute>,
    recordAttributes: seq<Attribute>,
    severityTexts: seq<string>,
    severityNumberProperties: Option<LogSeverityNumberMatchProperties>,
    logBodies: seq<string>)

  /** filterconfig.LogSeverityNumberMatchProperties: the minimum as a severity number. */
  datatype SeverityNumberMatch = SeverityNumberMatch(min: SeverityNumber, matchUndefined: bool)

  /**
   * filterconfig.MatchProperties, restricted to the fields the log conversion
   * writes plus the span fields `services` and `spanNames`, which it leaves unset.
   */
  datatype MatchProperties = MatchProperties(
    matchType: string,
    services: seq<string>,
    spanNames: seq<string>,
    resources: seq<Attribute>,
    attributes: seq<Attribute>,
    logSeverityTexts: seq<string>,
    logBodies: seq<string>,
    logSeverityNumber: Option<SeverityNumberMatch>)

  /**
   * filtermetric.MatchProperties. Its definition is not part of this model;
   * the configuration check only looks at whether one is present, so it is
   * a marker without fields.
   */
  datatype MetricMatchProperties = MetricMatchProperties

  /** Condition lists are Go slices: `None` is a nil slice, `Some([])` an empty but set one. */
  type Conditions = Option<seq<string>>

  datatype MetricFilters = MetricFilters(
    includeProps: Option<MetricMatchProperties>,
    excludeProps: Option<MetricMatchProperties>,
    metricConditions: Conditions,
    dataPointConditions: Conditions)

  datatype SpanFilters = SpanFilters(includeProps: Option<MatchProperties>, excludeProps: Option<MatchProperties>)

  datatype TraceFilters = TraceFilters(spanConditions: Conditions, spanEventConditions: Conditions)

  datatype LogFilters = LogFilters(
    includeProps: Option<LogMatchProperties>,
    excludeProps: Option<LogMatchProperties>,
    logConditions: Conditions)

  datatype Config = Config(metrics: MetricFilters, logs: LogFilters, spans: SpanFilters, traces: TraceFilters)

  // ---------------------------------------------------------------------
  // Log match properties
  // ---------------------------------------------------------------------

  /** logSeverity.validate: nil for the unset severity and for any spelling of a table key. */
  function ValidateSeverity(l: string): (r: Option<ConfigError>)
    ensures r.None? <==> ValidSeverity(l)
    ensures r.Some? ==> r.value == InvalidSeverity(l)
  {
    if l == "" then None
    else if ToUpper(l) !in SeverityToNumber then Some(InvalidSeverity(l))
    else None
  }

  /** LogSeverityNumberMatchProperties.validate: validates the minimum. */
  function ValidateSeverityNumberMatch(p: LogSeverityNumberMatchProperties): (r: Option<ConfigError>)
    ensures r.None? <==> ValidSeverity(p.min)
    ensures r.Some? ==> r.value == InvalidSeverity(p.min)
  {
    ValidateSeverity(p.min)
  }

  /** LogMatchProperties.validate: only the severity-number properties can be invalid. */
  function ValidateLogMatch(lmp: LogMatchProperties): (r: Option<ConfigError>)
    ensures r.None? <==> (lmp.severityNumberProperties.None? || ValidSeverity(lmp.severityNumberProperties.value.min))
    ensures r.Some? ==> r.value == InvalidSeverity(lmp.severityNumberProperties.value.min)
  {
    if lmp.severityNumberProperties.Some? then ValidateSeverityNumberMatch(lmp.severityNumberProperties.value)
    else None
  }

  /** LogMatchProperties.isEmpty: no filter is specified, so the block is ignored. */
  predicate IsEmpty(lmp: LogMatchProperties)
    // an ignored block never fails validation
    ensures IsEmpty(lmp) ==> ValidateLogMatch(lmp).None?
  {
    && |lmp.resourceAttributes| == 0
    && |lmp.recordAttributes| == 0
    && |lmp.severityTexts| == 0
    && |lmp.logBodies| == 0
    && lmp.severityNumberProperties.None?
  }

  /** LogMatchProperties.matchProperties: the generic record the log matcher is built from. */
  function ToMatchProperties(lmp: LogMatchProperties): (mp: MatchProperties)
    ensures mp.matchType == lmp.logMatchType
    ensures mp.resources == lmp.resourceAttributes && mp.attributes == lmp.recordAttributes
    ensures mp.logSeverityTexts == lmp.severityTexts && mp.logBodies == lmp.logBodies
    ensures mp.services == [] && mp.spanNames == []
    ensures mp.logSeverityNumber.Some? <==> lmp.severityNumberProperties.Some?
    ensures mp.logSeverityNumber.Some? ==>
      && mp.logSeverityNumber.value.min == SeverityNumberOf(lmp.severityNumberProperties.value.min)
      && mp.logSeverityNumber.value.matchUndefined == lmp.severityNumberProperties.value.matchUndefined
  {
    var severity :=
      if lmp.severityNumberProperties.Some? then
        var p := lmp.severityNumberProperties.value;
        Some(SeverityNumberMatch(SeverityNumberOf(p.min), p.matchUndefined))
      else
        None;
    MatchProperties(lmp.logMatchType, [], [], lmp.resourceAttributes, lmp.recordAttributes,
                    lmp.severityTexts, lmp.logBodies, severity)
  }

  /** A generic match-properties record that constrains nothing. */
  predicate Unconstrained(mp: MatchProperties) {
    && mp.services == [] && mp.spanNames == []
    && mp.resources == [] && mp.attributes == []
    && mp.logSeverityTexts == [] && mp.logBodies == []
    && mp.logSeverityNumber.None?
  }

  /** A block is empty exactly when the record it converts to constrains nothing, whatever its match type. */
  lemma IsEmptyIffUnconstrained(lmp: LogMatchProperties, matchType: string)
    ensures IsEmpty(lmp) <==> Unconstrained(ToMatchProperties(lmp))
    ensures IsEmpty(lmp) == IsEmpty(lmp.(logMatchType := matchType))
  {
  }

  /**
   * Once a block passes validation, the converted minimum is a real severity
   * number, and it is SeverityNumberUnspecified exactly when no minimum was given.
   */
  lemma ValidatedMinimumIsSeverity(lmp: LogMatchProperties)
    requires ValidateLogMatch(lmp).None?
    requires lmp.severityNumberProperties.Some?
    ensures var m := ToMatchProperties(lmp).logSeverityNumber.value.min;
      && 0 <= m <= 24
      && (m == Unspecified <==> lmp.severityNumberProperties.value.min == "")
  {
  }

  /** Two blocks that differ only in the spelling of the minimum severity. */
  predicate SameUpToMinimum(a: LogMatchProperties, b: LogMatchProperties) {
    && a.(severityNumberProperties := None) == b.(severityNumberProperties := None)
    && a.severityNumberProperties.Some? == b.severityNumberProperties.Some?
    && (a.severityNumberProperties.Some? ==>
          && a.severityNumberProperties.value.matchUndefined == b.severityNumberProperties.value.matchUndefined
          && SeverityNumberOf(a.severityNumberProperties.value.min) == SeverityNumberOf(b.severityNumberProperties.value.min))
  }

  /**
   * The conversion loses exactly the spelling of the minimum severity:
   * two blocks convert to the same record iff they agree on everything else
   * and their minimums name the same severity number.
   */
  lemma ToMatchPropertiesKernel(a: LogMatchProperties, b: LogMatchProperties)
    ensures ToMatchProperties(a) == ToMatchProperties(b) <==> SameUpToMinimum(a, b)
  {
    if ToMatchProperties(a) == ToMatchProperties(b) {
      assert a.(severityNumberProperties := None) == b.(severityNumberProperties := None);
    }
  }

  /** Changing the case of the minimum changes neither validation nor conversion. */
  lemma MinimumCaseIrrelevant(lmp: LogMatchProperties, min: string)
    requires lmp.severityNumberProperties.Some?
    requires EqualFold(min, lmp.severityNumberProperties.value.min)
    ensures var lmp' := lmp.(severityNumberProperties := Some(lmp.severityNumberProperties.value.(min := min)));
      && ValidateLogMatch(lmp').None? == ValidateLogMatch(lmp).None?
      && ToMatchProperties(lmp') == ToMatchProperties(lmp)
  {
    SeverityCaseInsensitive(min, lmp.severityNumberProperties.value.min);
  }

  // ---------------------------------------------------------------------
  // Config.Validate
  // ---------------------------------------------------------------------

  /** The condition list a context is parsed from. */
  function ConditionsOf(cfg: Config, ctx: ParserContext): Conditions {
    match ctx
    case SpanContext => cfg.traces.spanConditions
    case SpanEventContext => cfg.traces.spanEventConditions
    case MetricContext => cfg.metrics.metricConditions
    case DataPointContext => cfg.metrics.dataPointConditions
    case LogContext => cfg.logs.logConditions
  }

  /** A signal has at least one condition list set (non-nil). */
  predicate UsesConditions(cfg: Config, signal: Signal) {
    match signal
    case Spans => cfg.traces.spanConditions.Some? || cfg.traces.spanEventConditions.Some?
    case Metrics => cfg.metrics.metricConditions.Some? || cfg.metrics.dataPointConditions.Some?
    case Logs => cfg.logs.logConditions.Some?
  }

  /** A signal has an include or an exclude block. */
  predicate UsesIncludeExclude(cfg: Config, signal: Signal) {
    match signal
    case Spans => cfg.spans.includeProps.Some? || cfg.spans.excludeProps.Some?
    case Metrics => cfg.metrics.includeProps.Some? || cfg.metrics.excludeProps.Some?
    case Logs => cfg.logs.includeProps.Some? || cfg.logs.excludeProps.Some?
  }

  predicate Conflicts(cfg: Config, signal: Signal) {
    UsesConditions(cfg, signal) && UsesIncludeExclude(cfg, signal)
  }

  /** The order in which Validate looks at the signals. */
  function CheckOrder(signal: Signal): nat {
    match signal
    case Spans => 0
    case Metrics => 1
    case Logs => 2
  }

  /** The mutual-exclusion checks, spans first, then metrics, then logs. */
  function FirstConflict(cfg: Config): (r: Option<ConfigError>)
    ensures r.None? <==> forall signal :: !Conflicts(cfg, signal)
    ensures r.Some? ==> r.value.ConflictingModes? && Conflicts(cfg, r.value.signal)
  {
    if Conflicts(cfg, Spans) then Some(ConflictingModes(Spans))
    else if Conflicts(cfg, Metrics) then Some(ConflictingModes(Metrics))
    else if Conflicts(cfg, Logs) then Some(ConflictingModes(Logs))
    else None
  }

  /** multierr.Append on an error list: a nil error adds nothing. */
  function Append(errors: seq<ConfigError>, err: Option<ConfigError>): (r: seq<ConfigError>)
    ensures err.None? ==> r == errors
    ensures err.Some? ==> |r| == |errors| + 1 && r[..|errors|] == errors && r[|errors|] == err.value
  {
    if err.Some? then errors + [err.value] else errors
  }

  /** Parses one context's list if it is set. */
  function ParseConditions(cfg: Config, ctx: ParserContext, parse: Parser): Option<ConfigError> {
    var conditions := ConditionsOf(cfg, ctx);
    if conditions.None? then None
    else match parse(ctx, conditions.value)
      case None => None
      case Some(message) => Some(ConditionParseError(message))
  }

  /** The five parsing steps of Validate, each appending its error. */
  function ConditionErrors(cfg: Config, parse: Parser): seq<ConfigError> {
    var afterSpans := Append([], ParseConditions(cfg, SpanContext, parse));
    var afterSpanEvents := Append(afterSpans, ParseConditions(cfg, SpanEventContext, parse));
    var afterMetrics := Append(afterSpanEvents, ParseConditions(cfg, MetricContext, parse));
    var afterDataPoints := Append(afterMetrics, ParseConditions(cfg, DataPointContext, parse));
    Append(afterDataPoints, ParseConditions(cfg, LogContext, parse))
  }

  /** The two include/exclude severity checks at the end of Validate. */
  function SeverityErrors(cfg: Config): seq<ConfigError> {
    var afterInclude := Append([], if cfg.logs.logConditions.Some? && cfg.logs.includeProps.Some?
                                   then ValidateLogMatch(cfg.logs.includeProps.value) else None);
    Append(afterInclude, if cfg.logs.logConditions.Some? && cfg.logs.excludeProps.Some?
                         then ValidateLogMatch(cfg.logs.excludeProps.value) else None)
  }

  /** Config.Validate; the empty list is a nil error. */
  function Validate(cfg: Config, parse: Parser): (r: seq<ConfigError>)
    ensures (exists signal :: Conflicts(cfg, signal)) ==> |r| == 1 && r[0].ConflictingModes?
  {
    match FirstConflict(cfg)
    case Some(conflict) => [conflict]
    case None => ConditionErrors(cfg, parse) + SeverityErrors(cfg)
  }

  // ---------------------------------------------------------------------
  // Properties of Validate
  // ---------------------------------------------------------------------

  /** The conflict reported is that of the first conflicting signal in check order. */
  lemma ValidateReportsFirstConflict(cfg: Config, parse: Parser, signal: Signal)
    requires Conflicts(cfg, signal)
    requires forall s :: CheckOrder(s) < CheckOrder(signal) ==> !Conflicts(cfg, s)
    ensures Validate(cfg, parse) == [ConflictingModes(signal)]
  {
    assert CheckOrder(Spans) < CheckOrder(Metrics) < CheckOrder(Logs);
  }

  /** A conflict is reported before any condition is parsed: the parser is never consulted. */
  lemma ConflictPrecedesParsing(cfg: Config, parse: Parser, parse': Parser, signal: Signal)
    requires Conflicts(cfg, signal)
    ensures Validate(cfg, parse) == Validate(cfg, parse')
  {
  }

  /** The include/exclude severity checks can only fire on a configuration already rejected as a log conflict. */
  lemma SeverityChecksUnreachable(cfg: Config)
    requires !Conflicts(cfg, Logs)
    ensures SeverityErrors(cfg) == []
  {
  }

  /** The contexts in the order Validate parses them. */
  const ParseOrder: seq<ParserContext> := [SpanContext, SpanEventContext, MetricContext, DataPointContext, LogContext]

  /** Reference definition: the parse errors of the given contexts, in order. */
  function ParseFailures(cfg: Config, parse: Parser, contexts: seq<ParserContext>): seq<ConfigError> {
    if contexts == [] then []
    else
      var ctx := contexts[0];
      var conditions := ConditionsOf(cfg, ctx);
      var here := if conditions.Some? && parse(ctx, conditions.value).Some?
                  then [ConditionParseError(parse(ctx, conditions.value).value)] else [];
      here + ParseFailures(cfg, parse, contexts[1..])
  }

  /** Without a conflict, Validate reports every context's parse error, in parse order, and nothing else. */
  lemma ValidateAccumulatesParseErrors(cfg: Config, parse: Parser)
    requires forall signal :: !Conflicts(cfg, signal)
    ensures Validate(cfg, parse) == ParseFailures(cfg, parse, ParseOrder)
  {
    SeverityChecksUnreachable(cfg);
    ConditionErrorsInParseOrder(cfg, parse);
  }

  /** The five parsing steps produce the reference list over the parse order. */
  lemma ConditionErrorsInParseOrder(cfg: Config, parse: Parser)
    ensures ConditionErrors(cfg, parse) == ParseFailures(cfg, parse, ParseOrder)
  {
    var s0, s1, s2, s3, s4 := [SpanContext, SpanEventContext, MetricContext, DataPointContext, LogContext],
      [SpanEventContext, MetricContext, DataPointContext, LogContext],
      [MetricContext, DataPointContext, LogContext], [DataPointContext, LogContext], [LogContext];
    assert s0 == ParseOrder;
    assert s0[1..] == s1 && s1[1..] == s2 && s2[1..] == s3 && s3[1..] == s4 && s4[1..] == [];
    var e0 := Append([], ParseConditions(cfg, SpanContext, parse));
    var e1 := Append([], ParseConditions(cfg, SpanEventContext, parse));
    var e2 := Append([], ParseConditions(cfg, MetricContext, parse));
    var e3 := Append([], ParseConditions(cfg, DataPointContext, parse));
    var e4 := Append([], ParseConditions(cfg, LogContext, parse));
    // the reference list, from the back
    ParseFailuresStep(cfg, parse, s4);
    assert ParseFailures(cfg, parse, s4) == e4 by {
      assert ParseFailures(cfg, parse, []) == [];
      assert e4 + [] == e4;
    }
    ParseFailuresStep(cfg, parse, s3);
    ParseFailuresStep(cfg, parse, s2);
    ParseFailuresStep(cfg, parse, s1);
    ParseFailuresStep(cfg, parse, s0);
    assert ParseFailures(cfg, parse, s0) == e0 + (e1 + (e2 + (e3 + e4)));
    // the five appends, from the front
    var p1 := Append(e0, ParseConditions(cfg, SpanEventContext, parse));
    var p2 := Append(p1, ParseConditions(cfg, MetricContext, parse));
    var p3 := Append(p2, ParseConditions(cfg, DataPointContext, parse));
    assert ConditionErrors(cfg, parse) == Append(p3, ParseConditions(cfg, LogContext, parse));
    AppendIsConcat(e0, ParseConditions(cfg, SpanEventContext, parse));
    AppendIsConcat(p1, ParseConditions(cfg, MetricContext, parse));
    AppendIsConcat(p2, ParseConditions(cfg, DataPointContext, parse));
    AppendIsConcat(p3, ParseConditions(cfg, LogContext, parse));
    assert ConditionErrors(cfg, parse) == (((e0 + e1) + e2) + e3) + e4;
    ConcatAssociates(e0, e1, e2, e3, e4);
  }

  lemma AppendIsConcat(errors: seq<ConfigError>, err: Option<ConfigError>)
    ensures Append(errors, err) == errors + Append([], err)
  {
  }

  lemma ConcatAssociates<T>(a: seq<T>, b: seq<T>, c: seq<T>, d: seq<T>, e: seq<T>)
    ensures (((a + b) + c) + d) + e == a + (b + (c + (d + e)))
  {
  }

  /** One step of the reference definition is one Append of ParseConditions. */
  lemma ParseFailuresStep(cfg: Config, parse: Parser, contexts: seq<ParserContext>)
    requires contexts != []
    ensures ParseFailures(cfg, parse, contexts)
         == Append([], ParseConditions(cfg, contexts[0], parse)) + ParseFailures(cfg, parse, contexts[1..])
  {
  }

  /** An error is in the reference list iff one of the listed contexts fails to parse with it. */
  lemma {:induction false} ParseFailuresMembers(cfg: Config, parse: Parser, contexts: seq<ParserContext>, e: ConfigError)
    ensures e in ParseFailures(cfg, parse, contexts) <==>
      exists i :: 0 <= i < |contexts| && ConditionsOf(cfg, contexts[i]).Some?
        && parse(contexts[i], ConditionsOf(cfg, contexts[i]).value).Some?
        && e == ConditionParseError(parse(contexts[i], ConditionsOf(cfg, contexts[i]).value).value)
  {
    if contexts != [] {
      ParseFailuresMembers(cfg, parse, contexts[1..], e);
      forall i | 1 <= i < |contexts|
        ensures contexts[i] == contexts[1..][i - 1]
      {
      }
    }
  }

  /** Every parse error of a set condition list is in the reference list. */
  lemma ParseErrorIsListed(cfg: Config, parse: Parser, ctx: ParserContext)
    requires ConditionsOf(cfg, ctx).Some?
    requires parse(ctx, ConditionsOf(cfg, ctx).value).Some?
    ensures ConditionParseError(parse(ctx, ConditionsOf(cfg, ctx).value).value) in ParseFailures(cfg, parse, ParseOrder)
  {
    var e := ConditionParseError(parse(ctx, ConditionsOf(cfg, ctx).value).value);
    ParseFailuresMembers(cfg, parse, ParseOrder, e);
    assert ctx in ParseOrder;
    var i :| 0 <= i < |ParseOrder| && ParseOrder[i] == ctx;
  }

  /** Every parse error of a set condition list is reported when there is no conflict. */
  lemma ValidateReportsEveryParseError(cfg: Config, parse: Parser, ctx: ParserContext)
    requires forall signal :: !Conflicts(cfg, signal)
    requires ConditionsOf(cfg, ctx).Some?
    requires parse(ctx, ConditionsOf(cfg, ctx).value).Some?
    ensures ConditionParseError(parse(ctx, ConditionsOf(cfg, ctx).value).value) in Validate(cfg, parse)
  {
    ValidateAccumulatesParseErrors(cfg, parse);
    ParseErrorIsListed(cfg, parse, ctx);
  }

  /** Validate accepts (nil) iff no signal conflicts and every set condition list parses. */
  lemma ValidateNilIff(cfg: Config, parse: Parser)
    ensures Validate(cfg, parse) == [] <==>
      && (forall signal :: !Conflicts(cfg, signal))
      && (forall ctx :: ConditionsOf(cfg, ctx).Some? ==> parse(ctx, ConditionsOf(cfg, ctx).value).None?)
  {
    if forall signal :: !Conflicts(cfg, signal) {
      ValidateAccumulatesParseErrors(cfg, parse);
      if Validate(cfg, parse) == [] {
        forall ctx | ConditionsOf(cfg, ctx).Some?
          ensures parse(ctx, ConditionsOf(cfg, ctx).value).None?
        {
          if parse(ctx, ConditionsOf(cfg, ctx).value).Some? {
            ValidateReportsEveryParseError(cfg, parse, ctx);
          }
        }
      } else {
        var e := Validate(cfg, parse)[0];
        ParseFailuresMembers(cfg, parse, ParseOrder, e);
      }
    }
  }

  /** Forgets how every log block spells its minimum severity. */
  function ForgetMinimum(lmp: Option<LogMatchProperties>): Option<LogMatchProperties> {
    match lmp
    case None => None
    case Some(p) =>
      Some(p.(severityNumberProperties :=
        match p.severityNumberProperties
        case None => None
        case Some(s) => Some(s.(min := ""))))
  }

  /** Validate never depends on the minimum severities of the log include/exclude blocks. */
  lemma ValidateIgnoresMinimum(cfg: Config, cfg': Config, parse: Parser)
    requires cfg.metrics == cfg'.metrics && cfg.spans == cfg'.spans && cfg.traces == cfg'.traces
    requires cfg.logs.logConditions == cfg'.logs.logConditions
    requires ForgetMinimum(cfg.logs.includeProps) == ForgetMinimum(cfg'.logs.includeProps)
    requires ForgetMinimum(cfg.logs.excludeProps) == ForgetMinimum(cfg'.logs.excludeProps)
    ensures Validate(cfg, parse) == Validate(cfg', parse)
  {
    assert cfg.logs.includeProps.Some? == cfg'.logs.includeProps.Some?;
    assert cfg.logs.excludeProps.Some? == cfg'.logs.excludeProps.Some?;
    assert FirstConflict(cfg) == FirstConflict(cfg');
    assert ConditionErrors(cfg, parse) == ConditionErrors(cfg', parse) by {
      assert ParseConditions(cfg, SpanContext, parse) == ParseConditions(cfg', SpanContext, parse);
      assert ParseConditions(cfg, SpanEventContext, parse) == ParseConditions(cfg', SpanEventContext, parse);
      assert ParseConditions(cfg, MetricContext, parse) == ParseConditions(cfg', MetricContext, parse);
      assert ParseConditions(cfg, DataPointContext, parse) == ParseConditions(cfg', DataPointContext, parse);
      assert ParseConditions(cfg, LogContext, parse) == ParseConditions(cfg', LogContext, parse);
    }
    if FirstConflict(cfg).None? {
      SeverityChecksUnreachable(cfg);
      SeverityChecksUnreachable(cfg');
    }
  }

  // ---------------------------------------------------------------------
  // The unreachable severity checks, as written and as evidently intended
  // ---------------------------------------------------------------------

  /** A logs section with an include block whose minimum severity is not a severity. */
  const BogusMinimum: Config := Config(
    MetricFilters(None, None, None, None),
    LogFilters(Some(LogMatchProperties("strict", [], [], [], Some(LogSeverityNumberMatchProperties("bogus", false)), [])),
               None, None),
    SpanFilters(None, None),
    TraceFilters(None, None))

  /**
   * As written, Validate accepts an include block whose minimum severity does
   * not validate; the matcher is then built with SeverityNumberUnspecified.
   */
  lemma InvalidMinimumAccepted(parse: Parser)
    ensures ValidateLogMatch(BogusMinimum.logs.includeProps.value) == Some(InvalidSeverity("bogus"))
    ensures Validate(BogusMinimum, parse) == []
    ensures ToMatchProperties(BogusMinimum.logs.includeProps.value).logSeverityNumber
         == Some(SeverityNumberMatch(Unspecified, false))
  {
    UnknownInitialIsInvalid("bogus");
  }

  /** The severity checks guarded by the include/exclude blocks being in use (no log conditions). */
  function SeverityErrorsCorrected(cfg: Config): seq<ConfigError> {
    var afterInclude := Append([], if cfg.logs.logConditions.None? && cfg.logs.includeProps.Some?
                                   then ValidateLogMatch(cfg.logs.includeProps.value) else None);
    Append(afterInclude, if cfg.logs.logConditions.None? && cfg.logs.excludeProps.Some?
                         then ValidateLogMatch(cfg.logs.excludeProps.value) else None)
  }

  /** Config.Validate with the include/exclude severity checks made reachable. */
  function ValidateCorrected(cfg: Config, parse: Parser): (r: seq<ConfigError>)
    ensures (exists signal :: Conflicts(cfg, signal)) ==> |r| == 1 && r[0].ConflictingModes?
  {
    match FirstConflict(cfg)
    case Some(conflict) => [conflict]
    case None => ConditionErrors(cfg, parse) + SeverityErrorsCorrected(cfg)
  }

  /** A log block in use validates. */
  predicate BlockValid(lmp: Option<LogMatchProperties>) {
    lmp.None? || ValidateLogMatch(lmp.value).None?
  }

  /**
   * The corrected check accepts iff no signal conflicts, every set condition
   * list parses, and the include and exclude log blocks validate.
   */
  lemma ValidateCorrectedNilIff(cfg: Config, parse: Parser)
    ensures ValidateCorrected(cfg, parse) == [] <==>
      && (forall signal :: !Conflicts(cfg, signal))
      && (forall ctx :: ConditionsOf(cfg, ctx).Some? ==> parse(ctx, ConditionsOf(cfg, ctx).value).None?)
      && BlockValid(cfg.logs.includeProps)
      && BlockValid(cfg.logs.excludeProps)
  {
    ValidateNilIff(cfg, parse);
    if forall signal :: !Conflicts(cfg, signal) {
      SeverityChecksUnreachable(cfg);
      assert Validate(cfg, parse) == ConditionErrors(cfg, parse);
      assert ValidateCorrected(cfg, parse) == ConditionErrors(cfg, parse) + SeverityErrorsCorrected(cfg);
      if cfg.logs.includeProps.Some? || cfg.logs.excludeProps.Some? {
        assert cfg.logs.logConditions.None?;
      }
    }
  }

  /** The corrected check rejects the bogus minimum. */
  lemma CorrectedRejectsInvalidMinimum(parse: Parser)
    ensures ValidateCorrected(BogusMinimum, parse) == [InvalidSeverity("bogus")]
  {
    UnknownInitialIsInvalid("bogus");
  }
}
