/**
 * The `report` decorator of `bddreporting/report.py` and its
 * `doc_string_to_log`: after a step definition runs, the step's narrative
 * (its Gherkin doc string and its Mako template) is rendered and appended
 * to the scenario's log buffer `context.log`.
 */
module Report {
  import opened Wrappers
  import opened Strings
  import opened Values
  import opened Externals
  import opened Behave
  import Settings
  import Paths

  /** One call of a step definition wrapped by `report(template, filename)`. */
  datatype StepCall = StepCall(
    template: string,            // the decorator's `template`, "" when not given
    filename: string,            // the decorator's `filename`, "" when not given
    docstring: string,           // the cleaned docstring of the step function, "" when it has none
    kwargs: map<string, Value>,  // the keyword arguments behave passes to the step
    stepId: Value,               // `context.current_step_id`
    docText: Value,              // `context.text`, `Null` when unset
    outcome: CallOutcome,        // what the step function does
    reportAfter: Value)          // `context.report` once the step has run, `Null` when unset

  /** The template text used when the named template file does not exist. */
  function MissingTemplate(path: string): string {
    "**missing template file: " + path + "**"
  }

  // ---------------------------------------------------------------- the template source

  /** The index of the first step behave still reports untested. */
  function FirstUntested(steps: seq<Step>): (r: Option<nat>)
    ensures r.Some? ==> r.value < |steps| && steps[r.value].untested
    ensures r.Some? ==> forall k :: 0 <= k < r.value ==> !steps[k].untested
    ensures r.None? ==> forall k :: 0 <= k < |steps| ==> !steps[k].untested
  {
    if steps == [] then None
    else if steps[0].untested then Some(0)
    else match FirstUntested(steps[1..])
      case None => None
      case Some(i) => Some(i + 1)
  }

  /** Python's `xs[i]`: a negative index counts from the end. */
  function PyIndex<T>(xs: seq<T>, i: int): (r: Result<T>)
    ensures 0 <= i < |xs| ==> r == Ok(xs[i])
    ensures -|xs| <= i < 0 ==> r == Ok(xs[|xs| + i])
    ensures (i < -|xs| || |xs| <= i) ==> r == Err(IndexError)
  {
    if 0 <= i < |xs| then Ok(xs[i])
    else if -|xs| <= i < 0 then Ok(xs[|xs| + i])
    else Err(IndexError)
  }

  /** A line of a feature file without its first word (the Gherkin keyword), its words joined by single spaces. */
  function DropFirstWord(line: string): string {
    var words := Words(line);
    if words == [] then "" else Join(" ", words[1..])
  }

  /**
   * A step line laid out as any indentation, the keyword and words, with
   * any runs of whitespace between them and after the last, yields exactly
   * those words, single-spaced.
   */
  lemma DropFirstWordOf(indent: string, keyword: string, words: seq<string>, gaps: seq<string>)
    requires AllSpace(indent) && IsWord(keyword)
    requires forall i :: 0 <= i < |words| ==> IsWord(words[i])
    requires |gaps| == |words| + 1 && WordGaps(gaps)
    ensures DropFirstWord(indent + Interleave([keyword] + words, gaps)) == Join(" ", words)
  {
    var ws := [keyword] + words;
    assert forall i :: 0 <= i < |ws| ==> IsWord(ws[i]);
    WordsOfLayout(indent, ws, gaps);
    assert ws[1..] == words;
  }

  /**
   * The template text taken from a step's own line in its feature file:
   * the file is looked up beside the feature by its base name, and the
   * step's line (1-based; Python indexing) loses its first word.
   */
  function StepLineText(step: Step, abspath: Option<string>, env: Env): Result<string> {
    if abspath.None? then Err(AttributeError)
    else
      match env.readFile(Paths.Join(abspath.value, Paths.Basename(step.filename)))
      case None => Err(OSError)
      case Some(content) =>
        match PyIndex(SplitLines(content), step.line - 1)
        case Err(e) => Err(e)
        case Ok(line) => Ok(DropFirstWord(line))
  }

  /** The template text the steps of the scenario give: that of the first untested step, "" when there is none. */
  function StepsSource(steps: seq<Step>, abspath: Option<string>, env: Env): Result<string> {
    match FirstUntested(steps)
    case None => Ok("")
    case Some(i) => StepLineText(steps[i], abspath, env)
  }

  /** The first untested step is the untested step `i` when every step before it was tested. */
  lemma FirstUntestedAt(steps: seq<Step>, i: nat)
    requires i < |steps| && steps[i].untested
    requires forall k :: 0 <= k < i ==> !steps[k].untested
    ensures FirstUntested(steps) == Some(i)
  {
  }

  /** Without untested steps there is no first one. */
  lemma NoneUntested(steps: seq<Step>)
    requires forall k :: 0 <= k < |steps| ==> !steps[k].untested
    ensures FirstUntested(steps) == None
  {
  }

  /** The loop of `doc_string_to_log` over the scenario's steps, stopping at the first untested one. */
  method StepsTemplate(steps: seq<Step>, abspath: Option<string>, env: Env) returns (r: Result<string>)
    ensures r == StepsSource(steps, abspath, env)
  {
    r := Ok("");
    var i := 0;
    while i < |steps|
      invariant 0 <= i <= |steps|
      invariant forall k :: 0 <= k < i ==> !steps[k].untested
    {
      if steps[i].untested {
        FirstUntestedAt(steps, i);
        r := StepLineText(steps[i], abspath, env);
        return;
      }
      i := i + 1;
    }
    NoneUntested(steps);
  }

  /**
   * The template text, by priority: the decorator's `template`; else the
   * decorator's `filename`, read beside the feature (a placeholder naming
   * the path when the file does not exist); else the docstring; else the
   * first untested step's line.
   */
  function TemplateSource(call: StepCall, steps: seq<Step>, abspath: Option<string>, env: Env): Result<string> {
    if call.template != "" then Ok(call.template)
    else if call.filename != "" then
      if abspath.None? then Err(AttributeError)
      else
        var path := Paths.Join(abspath.value, call.filename);
        match env.readFile(path)
        case Some(content) => Ok(content)
        case None => Ok(MissingTemplate(path))
    else if call.docstring != "" then Ok(call.docstring)
    else StepsSource(steps, abspath, env)
  }

  /**
   * The priority of the template sources: a source is used whatever the
   * sources below it hold, and the steps are consulted only when no other
   * source is given.
   */
  lemma TemplateSourcePriority(call: StepCall, other: StepCall, steps: seq<Step>, others: seq<Step>,
                               abspath: Option<string>, abspath2: Option<string>, env: Env)
    ensures call.template != "" && other.template == call.template ==>
      TemplateSource(call, steps, abspath, env) == TemplateSource(other, others, abspath2, env) == Ok(call.template)
    ensures call.template == "" && call.filename != "" && other.template == "" && other.filename == call.filename ==>
      TemplateSource(call, steps, abspath, env) == TemplateSource(other, others, abspath, env)
    ensures (&& call.template == "" && call.filename == "" && call.docstring != ""
             && other.template == "" && other.filename == "" && other.docstring == call.docstring) ==>
      TemplateSource(call, steps, abspath, env) == TemplateSource(other, others, abspath2, env) == Ok(call.docstring)
    ensures call.template == "" && call.filename == "" && call.docstring == "" ==>
      TemplateSource(call, steps, abspath, env) == StepsSource(steps, abspath, env)
  {
  }

  /** A template file that does not exist yields a placeholder naming its full path. */
  lemma MissingFilePlaceholder(call: StepCall, steps: seq<Step>, abspath: string, env: Env)
    requires call.template == "" && call.filename != ""
    requires env.readFile(Paths.Join(abspath, call.filename)).None?
    ensures TemplateSource(call, steps, Some(abspath), env) == Ok(MissingTemplate(Paths.Join(abspath, call.filename)))
  {
  }

  lemma {:induction false} FirstUntestedAfterTested(tested: seq<Step>, steps: seq<Step>)
    requires forall k :: 0 <= k < |tested| ==> !tested[k].untested
    ensures FirstUntested(tested + steps) == match FirstUntested(steps)
      case None => None
      case Some(i) => Some(|tested| + i)
    decreases |tested|
  {
    if tested == [] {
      assert tested + steps == steps;
    } else {
      assert (tested + steps)[0] == tested[0];
      assert (tested + steps)[1..] == tested[1..] + steps;
      FirstUntestedAfterTested(tested[1..], steps);
    }
  }

  /**
   * Only the first untested step matters: steps already run before it and
   * any steps after it do not change the template text.
   */
  lemma StepsSourceFirstUntested(tested: seq<Step>, step: Step, rest: seq<Step>, abspath: Option<string>, env: Env)
    requires forall k :: 0 <= k < |tested| ==> !tested[k].untested
    requires step.untested
    ensures StepsSource(tested + [step] + rest, abspath, env) == StepLineText(step, abspath, env)
  {
    FirstUntestedAfterTested(tested, [step] + rest);
    assert tested + [step] + rest == tested + ([step] + rest);
    assert (tested + [step] + rest)[|tested|] == step;
  }

  // ---------------------------------------------------------------- the rendered text

  /** `context.report` joins the render arguments when it is a non-empty dict. */
  predicate ReportMerged(report: Value) {
    report.Object? && report.fields != map[]
  }

  /**
   * The Mako render arguments: the step id under `id`, overridden by the
   * keyword arguments, and `context.report` under `report` last.
   */
  function RenderArgs(stepId: Value, kwargs: map<string, Value>, report: Value): (r: map<string, Value>)
    ensures r.Keys == {"id"} + kwargs.Keys + (if ReportMerged(report) then {"report"} else {})
    ensures r["id"] == if "id" in kwargs then kwargs["id"] else stepId
    ensures ReportMerged(report) ==> r["report"] == report
    ensures forall k :: k in kwargs && (k != "report" || !ReportMerged(report)) ==> r[k] == kwargs[k]
  {
    map["id" := stepId] + kwargs + (if ReportMerged(report) then map["report" := report] else map[])
  }

  /**
   * The text the Gherkin doc string contributes: when enabled and the step
   * has a non-empty doc string, its rendering followed by a blank line; a
   * rendering that raises contributes nothing.
   */
  function GherkinPart(process: Value, docText: Value, scenario: Scenario, now: Now, env: Env): (r: string)
    ensures !(Truthy(process) && docText.Str? && docText.s != "") ==> r == ""
    ensures Truthy(process) && docText.Str? && docText.s != "" ==>
      match env.jinja(docText.s, ScenarioContext(scenario, now))
      case Rendered(t) => r == t + "\n\n"
      case RenderRaised => r == ""
    ensures r != "" ==> |r| >= 2 && r[|r| - 2..] == "\n\n"
  {
    if Truthy(process) && docText.Str? && docText.s != "" then
      match env.jinja(docText.s, ScenarioContext(scenario, now))
      case Rendered(t) => t + "\n\n"
      case RenderRaised => ""
    else ""
  }

  /**
   * The text the template contributes: nothing for an empty template text,
   * else its Mako rendering (with the feature's directory for lookups)
   * followed by a newline. A rendering that raises is not caught.
   */
  function TemplatePart(source: Result<string>, args: map<string, Value>, abspath: Option<string>, env: Env): (r: Result<string>)
    ensures source.Err? ==> r == Err(source.error)
    ensures source == Ok("") ==> r == Ok("")
    ensures source.Ok? && source.value != "" && abspath.None? ==> r == Err(AttributeError)
    ensures source.Ok? && source.value != "" && abspath.Some? ==>
      match env.mako(source.value, abspath.value, args)
      case Rendered(out) => r == Ok(out + "\n")
      case RenderRaised => r == Err(TemplateError)
    ensures r.Ok? && r.value != "" ==> |r.value| >= 1 && r.value[|r.value| - 1] == '\n'
  {
    match source
    case Err(e) => Err(e)
    case Ok(t) =>
      if t == "" then Ok("")
      else if abspath.None? then Err(AttributeError)
      else
        match env.mako(t, abspath.value, args)
        case Rendered(out) => Ok(out + "\n")
        case RenderRaised => Err(TemplateError)
  }

  /** The text `doc_string_to_log` logs: the Gherkin part, then the template part. */
  function DocText(process: Value, call: StepCall, scenario: Scenario, abspath: Option<string>,
                   report: Value, now: Now, env: Env): (r: Result<string>)
    ensures var part := TemplatePart(TemplateSource(call, scenario.steps, abspath, env),
                                     RenderArgs(call.stepId, call.kwargs, report), abspath, env);
      && (r.Ok? <==> part.Ok?)
      && (r.Ok? ==> r.value == GherkinPart(process, call.docText, scenario, now, env) + part.value)
      && (r.Err? ==> r.error == part.error)
    ensures r.Ok? ==> StartsWith(r.value, GherkinPart(process, call.docText, scenario, now, env))
  {
    var source := TemplateSource(call, scenario.steps, abspath, env);
    match TemplatePart(source, RenderArgs(call.stepId, call.kwargs, report), abspath, env)
    case Err(e) => Err(e)
    case Ok(t) => Ok(GherkinPart(process, call.docText, scenario, now, env) + t)
  }

  /**
   * A doc string whose Jinja2 rendering raises is dropped silently: the
   * logged text is then the template's part alone, and the exception does
   * not end the call.
   */
  lemma GherkinErrorSwallowed(process: Value, call: StepCall, scenario: Scenario, abspath: Option<string>,
                              report: Value, now: Now, env: Env)
    requires call.docText.Str? && env.jinja(call.docText.s, ScenarioContext(scenario, now)).RenderRaised?
    ensures DocText(process, call, scenario, abspath, report, now, env)
      == TemplatePart(TemplateSource(call, scenario.steps, abspath, env), RenderArgs(call.stepId, call.kwargs, report), abspath, env)
  {
    var part := TemplatePart(TemplateSource(call, scenario.steps, abspath, env), RenderArgs(call.stepId, call.kwargs, report), abspath, env);
    if part.Ok? {
      assert "" + part.value == part.value;
    }
  }

  /**
   * `context.log` after `text` is logged: created empty when absent, then
   * extended by the text and a newline, and left alone when the text is
   * empty.
   */
  function AppendLog(log: Option<string>, text: string): (r: Option<string>)
    ensures r == log <==> text == ""
    ensures log.Some? ==> r.Some? && StartsWith(r.value, log.value)
    ensures text != "" ==> r.Some? && |r.value| == |if log.Some? then log.value else ""| + |text| + 1
    ensures text != "" ==> r.Some? && r.value[|r.value| - |text| - 1..] == text + "\n"
  {
    if text == "" then log
    else Some((if log.Some? then log.value else "") + text + "\n")
  }

  /** Logging twice appends both texts in order. */
  lemma AppendLogTwice(log: Option<string>, a: string, b: string)
    requires a != "" && b != ""
    ensures AppendLog(AppendLog(log, a), b) == AppendLog(log, a + "\n" + b)
  {
    var l := if log.Some? then log.value else "";
    assert l + a + "\n" + b + "\n" == l + (a + "\n" + b) + "\n";
  }

  /** The choice of the template text in `doc_string_to_log`. */
  method ChooseTemplate(call: StepCall, steps: seq<Step>, abspath: Option<string>, env: Env) returns (source: Result<string>)
    ensures source == TemplateSource(call, steps, abspath, env)
  {
    if call.template != "" {
      source := Ok(call.template);
    } else if call.filename != "" {
      if abspath.None? {
        return Err(AttributeError);
      }
      var path := Paths.Join(abspath.value, call.filename);
      var content := env.readFile(path);
      source := Ok(if content.Some? then content.value else MissingTemplate(path));
    } else if call.docstring != "" {
      source := Ok(call.docstring);
    } else {
      source := StepsTemplate(steps, abspath, env);
    }
  }

  /** The Gherkin doc string step of `doc_string_to_log`. */
  method RenderDocString(process: Value, docText: Value, scenario: Scenario, now: Now, env: Env) returns (text: string)
    ensures text == GherkinPart(process, docText, scenario, now, env)
  {
    text := "";
    if Truthy(process) && docText.Str? && docText.s != "" {
      var rendered := env.jinja(docText.s, ScenarioContext(scenario, now));
      if rendered.Rendered? {
        text := text + rendered.text + "\n\n";
      }
    }
  }

  /** The Mako step of `doc_string_to_log`: a non-empty template text is rendered. */
  method RenderTemplate(source: Result<string>, args: map<string, Value>, abspath: Option<string>, env: Env)
    returns (r: Result<string>)
    ensures r == TemplatePart(source, args, abspath, env)
  {
    if source.Err? {
      return Err(source.error);
    }
    if source.value == "" {
      return Ok("");
    }
    if abspath.None? {
      return Err(AttributeError);
    }
    var rendered := env.mako(source.value, abspath.value, args);
    if rendered.RenderRaised? {
      return Err(TemplateError);
    }
    r := Ok(rendered.text + "\n");
  }

  /** The composition of the text in `doc_string_to_log`: the Gherkin part, then the template part. */
  method ComposeDocText(process: Value, call: StepCall, scenario: Scenario, abspath: Option<string>, report: Value,
                        now: Now, env: Env)
    returns (r: Result<string>)
    ensures r == DocText(process, call, scenario, abspath, report, now, env)
  {
    var gherkin := RenderDocString(process, call.docText, scenario, now, env);
    var source := ChooseTemplate(call, scenario.steps, abspath, env);
    var args := RenderArgs(call.stepId, call.kwargs, report);
    var part := RenderTemplate(source, args, abspath, env);
    if part.Err? {
      return Err(part.error);
    }
    r := Ok(gherkin + part.value);
  }

  /**
   * `doc_string_to_log(context, func, args, kwargs, template, filename)`:
   * builds the text, then appends it to `context.log`.
   */
  method DocStringToLog(ctx: Context, cfg: Settings.Config, call: StepCall, scenario: Scenario, now: Now, env: Env)
    returns (out: HookOutcome)
    modifies ctx
    ensures ctx.report == old(ctx.report) && ctx.trace == old(ctx.trace) && ctx.cwd == old(ctx.cwd)
    ensures ctx.featureLog == old(ctx.featureLog) && ctx.featureAbspath == old(ctx.featureAbspath)
    ensures ctx.log == DocLog(cfg.settings, call, scenario, old(ctx.featureAbspath), ctx.report, old(ctx.log), now, env)
    ensures out == DocOutcome(cfg.settings, call, scenario, old(ctx.featureAbspath), ctx.report, now, env)
  {
    var process := cfg.Get("process_gherkin_doc_string", Bool(true));
    if process.Exited? {
      return Exited(process.message);
    }
    var composed := ComposeDocText(process.value, call, scenario, ctx.featureAbspath, ctx.report, now, env);
    if composed.Err? {
      return Raised(composed.error);
    }
    var text := composed.value;
    if |text| > 0 {
      if ctx.log.None? {
        ctx.log := Some("");
      }
      ctx.log := Some(ctx.log.value + text + "\n");
    }
    out := Returned(Null);
  }

  /** How `doc_string_to_log` ends. */
  function DocOutcome(settings: map<string, Value>, call: StepCall, scenario: Scenario, abspath: Option<string>,
                      report: Value, now: Now, env: Env): (out: HookOutcome)
    ensures out.Exited? <==> !Settings.Valid(settings)
    ensures out.Returned? ==> out.value == Null
  {
    if !Settings.Valid(settings) then Exited(Settings.InvalidMessage)
    else
      match DocText(Get(settings, "process_gherkin_doc_string", Bool(true)), call, scenario, abspath, report, now, env)
      case Err(e) => Raised(e)
      case Ok(_) => Returned(Null)
  }

  /** `context.log` after `doc_string_to_log`: extended only when the call returns. */
  function DocLog(settings: map<string, Value>, call: StepCall, scenario: Scenario, abspath: Option<string>,
                  report: Value, log: Option<string>, now: Now, env: Env): (r: Option<string>)
    ensures !DocOutcome(settings, call, scenario, abspath, report, now, env).Returned? ==> r == log
    ensures log.Some? ==> r.Some? && StartsWith(r.value, log.value)
  {
    if !Settings.Valid(settings) then log
    else
      match DocText(Get(settings, "process_gherkin_doc_string", Bool(true)), call, scenario, abspath, report, now, env)
      case Err(_) => log
      case Ok(t) => AppendLog(log, t)
  }

  // ---------------------------------------------------------------- the decorator

  /** What the wrapped step returns to behave: its own result, `None` when it raised. */
  function StepResult(outcome: CallOutcome): Value {
    if outcome.Returns? then outcome.value else Null
  }

  /** How the `report` wrapper ends. */
  function ReportOutcome(settings: map<string, Value>, call: StepCall, scenario: Scenario, abspath: Option<string>,
                         now: Now, env: Env): (out: HookOutcome)
    ensures out.Exited? <==> !Settings.Valid(settings)
    ensures out.Returned? ==> out.value == (if call.outcome.Returns? then call.outcome.value else Null)
    ensures Settings.Valid(settings) && !GateOpen(Get(settings, "report_tag", Str("report")), scenario.tags) ==>
      out == Returned(StepResult(call.outcome))
    ensures out.Raised? ==>
      && Settings.Valid(settings) && GateOpen(Get(settings, "report_tag", Str("report")), scenario.tags)
      && out == DocOutcome(settings, call, scenario, abspath, call.reportAfter, now, env)
    ensures Settings.Valid(settings) && GateOpen(Get(settings, "report_tag", Str("report")), scenario.tags) ==>
      out == if DocOutcome(settings, call, scenario, abspath, call.reportAfter, now, env).Raised?
             then DocOutcome(settings, call, scenario, abspath, call.reportAfter, now, env)
             else Returned(StepResult(call.outcome))
  {
    if !Settings.Valid(settings) then Exited(Settings.InvalidMessage)
    else if !GateOpen(Get(settings, "report_tag", Str("report")), scenario.tags) then Returned(StepResult(call.outcome))
    else
      match DocOutcome(settings, call, scenario, abspath, call.reportAfter, now, env)
      case Raised(e) => Raised(e)
      case _ => Returned(StepResult(call.outcome))
  }

  /**
   * The exception of a step that raises is swallowed: the wrapper ends as
   * it would had the step returned `None`, and logs the same text.
   */
  lemma StepExceptionSwallowed(settings: map<string, Value>, call: StepCall, scenario: Scenario, abspath: Option<string>,
                               log: Option<string>, now: Now, env: Env, e: PyError)
    ensures ReportOutcome(settings, call.(outcome := Throws(e)), scenario, abspath, now, env)
      == ReportOutcome(settings, call.(outcome := Returns(Null)), scenario, abspath, now, env)
    ensures ReportLog(settings, call.(outcome := Throws(e)), scenario, abspath, log, now, env)
      == ReportLog(settings, call.(outcome := Returns(Null)), scenario, abspath, log, now, env)
  {
    DocTextIgnoresOutcome(settings, call, scenario, abspath, now, env, Throws(e));
    DocTextIgnoresOutcome(settings, call, scenario, abspath, now, env, Returns(Null));
  }

  /** The narrative depends on the step's doc string, template and arguments, not on how the step ended. */
  lemma DocTextIgnoresOutcome(settings: map<string, Value>, call: StepCall, scenario: Scenario, abspath: Option<string>,
                              now: Now, env: Env, o: CallOutcome)
    ensures var process := Get(settings, "process_gherkin_doc_string", Bool(true));
      DocText(process, call.(outcome := o), scenario, abspath, call.reportAfter, now, env)
        == DocText(process, call, scenario, abspath, call.reportAfter, now, env)
  {
    var other := call.(outcome := o);
    assert other.docText == call.docText && other.stepId == call.stepId && other.kwargs == call.kwargs;
    assert TemplateSource(other, scenario.steps, abspath, env) == TemplateSource(call, scenario.steps, abspath, env);
  }

  /** `context.log` after the `report` wrapper. */
  function ReportLog(settings: map<string, Value>, call: StepCall, scenario: Scenario, abspath: Option<string>,
                     log: Option<string>, now: Now, env: Env): (r: Option<string>)
    ensures !Settings.Valid(settings) || !GateOpen(Get(settings, "report_tag", Str("report")), scenario.tags) ==> r == log
    ensures log.Some? ==> r.Some? && StartsWith(r.value, log.value)
  {
    if Settings.Valid(settings) && GateOpen(Get(settings, "report_tag", Str("report")), scenario.tags) then
      DocLog(settings, call, scenario, abspath, call.reportAfter, log, now, env)
    else log
  }

  /**
   * The wrapper `report(template, filename)` puts around a step
   * definition: the step runs with any exception swallowed, then the
   * narrative is logged when the tag gate is open.
   */
  method ReportStep(ctx: Context, cfg: Settings.Config, call: StepCall, scenario: Scenario, now: Now, env: Env)
    returns (out: HookOutcome)
    modifies ctx
    ensures ctx.trace == old(ctx.trace) + [StepCalled]
    ensures ctx.report == call.reportAfter && ctx.cwd == old(ctx.cwd)
    ensures ctx.featureLog == old(ctx.featureLog) && ctx.featureAbspath == old(ctx.featureAbspath)
    ensures ctx.log == ReportLog(cfg.settings, call, scenario, old(ctx.featureAbspath), old(ctx.log), now, env)
    ensures out == ReportOutcome(cfg.settings, call, scenario, old(ctx.featureAbspath), now, env)
  {
    ctx.trace := ctx.trace + [StepCalled];
    ctx.report := call.reportAfter;
    var result := Null;
    if call.outcome.Returns? {
      result := call.outcome.value;
    }
    var tag := cfg.Get("report_tag", Str("report"));
    if tag.Exited? {
      return Exited(tag.message);
    }
    if !Truthy(tag.value) || (tag.value.Str? && tag.value.s in scenario.tags) {
      var logged := DocStringToLog(ctx, cfg, call, scenario, now, env);
      if logged.Raised? {
        return logged;
      }
    }
    out := Returned(result);
  }
}
