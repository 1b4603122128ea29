/**
 * What the reporting hooks see of the behave test runner: its feature,
 * scenario, step and outline-row records, the runner context the hooks
 * write their narrative buffers into, and the gate every hook applies.
 */
module Behave {
  import opened Wrappers
  import opened Values

  /** A step of a scenario: whether behave still reports it untested, its file and its 1-based line. */
  datatype Step = Step(untested: bool, filename: string, line: int)

  /** A feature; `description` is `None` or its description lines. */
  datatype Feature = Feature(name: string, filename: string, tags: seq<string>, description: Option<seq<string>>)

  /** A scenario of `feature`. */
  datatype Scenario = Scenario(
    name: string,
    tags: seq<string>,
    description: Option<seq<string>>,
    steps: seq<Step>,
    feature: Feature)

  /** The example row of the scenario outline being run. */
  datatype Row = Row(headings: seq<string>, cells: seq<string>)

  /** A row is truthy when it has cells (behave gives rows a length). */
  predicate RowTruthy(row: Option<Row>) {
    row.Some? && row.value.cells != []
  }

  /** The date and the time of day, as `get_current_date_time` formats them. */
  datatype Now = Now(date: string, time: string)

  /** What calling a wrapped function does: it returns a value or raises. */
  datatype CallOutcome = Returns(value: Value) | Throws(error: PyError)

  /** How a hook wrapper ends: it returns a value, raises, or exits the process with a message. */
  datatype HookOutcome = Returned(value: Value) | Raised(error: PyError) | Exited(message: string)

  /** The calls a hook makes that are visible outside it, in order. */
  datatype Event =
    | StepCalled     // the wrapped step definition was called
    | HandlerCalled  // the wrapped hook function was called
    | TextWritten(text: string, filename: string, featureName: string, scenarioName: string, tags: seq<string>)
      // `write_text(text, filename, feature_name, scenario_name, tags)` was called

  /** How a hook ends, the events it adds to the trace, and the feature buffer and working directory it leaves. */
  datatype Hooked = Hooked(out: HookOutcome, events: seq<Event>, featureLog: Option<string>, cwd: string)

  /**
   * The runner context. `log` is `context.log`, absent until text is first
   * logged; `featureLog` and `featureAbspath` are the `log` and the
   * `feature_file_abspath` set on the running feature; `report` is
   * `context.report` (`Null` when unset); `trace` records the events.
   * `cwd` is the working directory of the process, which the report
   * writer may change.
   */
  class Context {
    var log: Option<string>
    var featureLog: Option<string>
    var featureAbspath: Option<string>
    var report: Value
    var trace: seq<Event>
    var cwd: string

    constructor (cwd: string)
      ensures log == None && featureLog == None && featureAbspath == None
      ensures report == Null && trace == [] && this.cwd == cwd
    {
      log, featureLog, featureAbspath := None, None, None;
      report, trace := Null, [];
      this.cwd := cwd;
    }
  }

  /**
   * The `report_tag` gate: a hook does its reporting when the configured
   * tag is falsy or is one of the tags.
   */
  predicate GateOpen(tag: Value, tags: seq<string>) {
    !Truthy(tag) || (tag.Str? && tag.s in tags)
  }

  /** The names a scenario's narrative is rendered with: the scenario, its feature, the date and the time. */
  function ScenarioContext(scenario: Scenario, now: Now): map<string, Value> {
    map["scenario" := Str(scenario.name), "feature" := Str(scenario.feature.name),
        "date" := Str(now.date), "time" := Str(now.time)]
  }

  /** The wrapped function's outcome as the hook's own. */
  function Forward(call: CallOutcome): HookOutcome {
    match call
    case Returns(v) => Returned(v)
    case Throws(e) => Raised(e)
  }
}
