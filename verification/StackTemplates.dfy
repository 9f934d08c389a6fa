/** One installed template: what it should run, what is waiting to be approved,
    what is live, and whether it can still run. */
module StackTemplates {
  import opened Options
  import opened Runs

  datatype Json =
    | JNull
    | JBool(flag: bool)
    | JNumber(number: int)
    | JString(text: string)
    | JArray(items: seq<Json>)
    | JObject(fields: map<string, Json>)

  /** A config column: absent, unreadable, or a document. Two documents are the
      same value when they parse to the same value, whatever the order of their
      keys. */
  datatype Config = Absent | Unreadable | Document(value: Json)

  /** An absent config is the empty object it is persisted as. */
  function DefaultConfig(config: Config): Config {
    if config.Absent? then Document(JObject(map[])) else config
  }

  predicate SameConfig(left: Config, right: Config) {
    var l := DefaultConfig(left);
    var r := DefaultConfig(right);
    l.Document? && r.Document? && l.value == r.value
  }

  /** A (run, revision, config) snapshot recorded on a template. */
  datatype Recorded = Recorded(run: RunId, revision: Revision, config: Config)

  datatype Lifecycle = Active | BeingDestroyed | Gone | Interrupted | Orphaned

  datatype StackTemplate = StackTemplate(
    desiredRevision: Revision,
    desiredConfig: Config,
    lastApplied: Option<Recorded>,
    pending: Option<Recorded>,
    lifecycle: Lifecycle)

  function DesiredConfig(template: StackTemplate): Config {
    DefaultConfig(template.desiredConfig)
  }

  predicate MatchesDesired(template: StackTemplate, recorded: Recorded) {
    && recorded.revision == template.desiredRevision
    && !recorded.config.Absent?
    && SameConfig(recorded.config, DesiredConfig(template))
  }

  datatype PlanState = PlanNone | PlanStale | PlanMatches

  function PlanStateOf(template: StackTemplate): PlanState {
    match template.pending
    case None => PlanNone
    case Some(planned) => if MatchesDesired(template, planned) then PlanMatches else PlanStale
  }

  datatype LiveState = LiveNever | LiveDiffers | LiveMatches

  function LiveStateOf(template: StackTemplate): LiveState {
    match template.lastApplied
    case None => LiveNever
    case Some(applied) => if MatchesDesired(template, applied) then LiveMatches else LiveDiffers
  }
}
