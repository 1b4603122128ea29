/**
 * The `after_scenario` wrapper of `bddreporting/after_scenario.py`: once a
 * scenario has run, its header and its log buffer are composed into the
 * scenario's report text, which is handed to the report writer or appended
 * to the feature's buffer; the process may then be halted on failure.
 */
module AfterScenario {
  import opened Wrappers
  import opened Strings
  import opened Values
  import opened Externals
  import opened Behave
  import Settings
  import Extraction
  import Writer

  const HaltMessage := "Exiting the behave test runner."

  /**
   * `dict(zip(headings, cells))`: the pairs up to the shorter list, a later
   * heading overriding an equal earlier one.
   */
  function ZipToMap(headings: seq<string>, cells: seq<string>): map<string, Value>
    decreases |headings|
  {
    if headings == [] || cells == [] then map[]
    else map[headings[0] := Str(cells[0])] + ZipToMap(headings[1..], cells[1..])
  }

  /**
   * The parameters of a row are exactly its paired headings, and each
   * heading carries the cell of its last occurrence.
   */
  lemma {:induction false} ZipToMapPairs(headings: seq<string>, cells: seq<string>)
    ensures forall i :: 0 <= i < |headings| && i < |cells| ==> headings[i] in ZipToMap(headings, cells)
    ensures forall k :: k in ZipToMap(headings, cells) ==>
      exists i :: 0 <= i < |headings| && i < |cells| && headings[i] == k
    ensures forall i :: 0 <= i < |headings| && i < |cells| && LastHeading(headings, cells, i) ==>
      ZipToMap(headings, cells)[headings[i]] == Str(cells[i])
    decreases |headings|
  {
    if headings != [] && cells != [] {
      var h, c := headings[1..], cells[1..];
      var rest := ZipToMap(h, c);
      var r := ZipToMap(headings, cells);
      ZipToMapPairs(h, c);
      forall i | 0 <= i < |headings| && i < |cells| ensures headings[i] in r {
        if i > 0 { assert h[i - 1] == headings[i]; }
      }
      forall k | k in r ensures exists i :: 0 <= i < |headings| && i < |cells| && headings[i] == k {
        if k != headings[0] {
          var i :| 0 <= i < |h| && i < |c| && h[i] == k;
          assert headings[i + 1] == k;
        }
      }
      forall i | 0 <= i < |headings| && i < |cells| && LastHeading(headings, cells, i)
        ensures r[headings[i]] == Str(cells[i])
      {
        if i == 0 {
          assert headings[0] !in rest by {
            forall k | k in rest ensures k != headings[0] {
              var j :| 0 <= j < |h| && j < |c| && h[j] == k;
              assert headings[j + 1] == k;
            }
          }
        } else {
          assert LastHeading(h, c, i - 1) by {
            forall j | i - 1 < j < |h| && j < |c| ensures h[j] != h[i - 1] {
              assert h[j] == headings[j + 1];
            }
          }
          assert h[i - 1] == headings[i] && c[i - 1] == cells[i];
        }
      }
    }
  }

  /** No later paired heading equals the heading at `i`. */
  predicate LastHeading(headings: seq<string>, cells: seq<string>, i: nat) {
    forall j :: i < j < |headings| && j < |cells| ==> headings[j] != headings[i]
  }

  /**
   * The outline parameters: the scenario's narrative names, overridden by
   * the current example row's cells under their headings when there is a
   * row with cells.
   */
  function OutlineParams(scenario: Scenario, now: Now, row: Option<Row>): (r: map<string, Value>)
    ensures RowTruthy(row) ==> forall k :: k in ZipToMap(row.value.headings, row.value.cells) ==>
      k in r && r[k] == ZipToMap(row.value.headings, row.value.cells)[k]
    ensures forall k :: k in ScenarioContext(scenario, now) ==> k in r
    ensures r.Keys == ScenarioContext(scenario, now).Keys
                      + (if RowTruthy(row) then ZipToMap(row.value.headings, row.value.cells).Keys else {})
    ensures forall k :: k in ScenarioContext(scenario, now) && (!RowTruthy(row) || k !in ZipToMap(row.value.headings, row.value.cells))
              ==> r[k] == ScenarioContext(scenario, now)[k]
    ensures !RowTruthy(row) ==> r == ScenarioContext(scenario, now)
  {
    ScenarioContext(scenario, now) + (if RowTruthy(row) then ZipToMap(row.value.headings, row.value.cells) else map[])
  }

  /** The header: the configured `scenario_header` when truthy, else the text extracted from the scenario's description. */
  function Header(settings: map<string, Value>, scenario: Scenario): (h: Value)
    ensures Truthy(Get(settings, "scenario_header", Bool(false))) ==> h == Get(settings, "scenario_header", Bool(false))
    ensures !Truthy(Get(settings, "scenario_header", Bool(false))) ==> h == Str(Extraction.Extracted(scenario.description))
  {
    var configured := Get(settings, "scenario_header", Bool(false));
    if Truthy(configured) then configured else Str(Extraction.Extracted(scenario.description))
  }

  /** The header after Jinja2 rendering; a rendering that raises leaves it as it was. */
  function RenderedHeader(header: Value, params: map<string, Value>, env: Env): (r: Value)
    ensures !header.Str? ==> r == header
    ensures header.Str? ==>
      match env.jinja(header.s, params)
      case Rendered(t) => r == Str(t)
      case RenderRaised => r == header
  {
    match RenderSource(env, header, params)
    case Rendered(t) => Str(t)
    case RenderRaised => header
  }

  /**
   * What the header contributes: nothing when it is falsy, a non-empty
   * string followed by a blank line, and a `TypeError` for any other
   * truthy value.
   */
  function HeaderText(header: Value): (r: Result<string>)
    ensures r.Err? <==> Truthy(header) && !header.Str?
    ensures r.Ok? && r.value != "" ==> header.Str? && header.s != "" && r.value == header.s + "\n\n"
    ensures r == Ok("") <==> !Truthy(header)
  {
    if !Truthy(header) then Ok("")
    else if header.Str? then Ok(header.s + "\n\n")
    else Err(TypeError)
  }

  /** `context.log` as text, "" when absent. */
  function LogText(log: Option<string>): string {
    if log.Some? then log.value else ""
  }

  /**
   * The scenario's report text: the header's contribution followed by the
   * log. Formatting the scenario name with the outline parameters may raise
   * first; its result is not used.
   */
  function ScenarioText(settings: map<string, Value>, scenario: Scenario, row: Option<Row>, log: Option<string>,
                        now: Now, env: Env): Result<string>
  {
    var params := OutlineParams(scenario, now, row);
    if RowTruthy(row) && env.format(scenario.name, params).RenderRaised? then Err(FormatError)
    else
      match HeaderText(RenderedHeader(Header(settings, scenario), params, env))
      case Err(e) => Err(e)
      case Ok(h) => Ok(h + LogText(log))
  }

  /** The scenario's text goes to the report writer when `export_scenario` is truthy (by default it is). */
  predicate Exports(settings: map<string, Value>) {
    Truthy(Get(settings, "export_scenario", Bool(true)))
  }

  /** The run stops after a failed scenario when `halt_execution_on_failure` is truthy. */
  predicate Halts(settings: map<string, Value>, failed: bool) {
    Truthy(Get(settings, "halt_execution_on_failure", Bool(false))) && failed
  }

  /** The scenario's text goes to the report writer: it is not empty and scenarios are exported. */
  predicate WritesScenario(settings: map<string, Value>, text: string) {
    text != "" && Exports(settings)
  }

  /** The `write_text` call of the scenario's text in the working directory `cwd`. */
  function ScenarioWrite(settings: map<string, Value>, scenario: Scenario, text: string, env: Env, cwd: string): Writer.Plan {
    Writer.WritePlan(text, scenario.feature.filename, scenario.feature.name, scenario.name, scenario.tags, settings, env, cwd)
  }

  /** The event recording that call. */
  function WriteEvent(scenario: Scenario, text: string): Event {
    TextWritten(text, scenario.feature.filename, scenario.feature.name, scenario.name, scenario.tags)
  }

  /** The routing of the text returns normally: either no write is made or the write finishes. */
  predicate WriteReturns(settings: map<string, Value>, scenario: Scenario, text: string, env: Env, cwd: string) {
    !WritesScenario(settings, text) || ScenarioWrite(settings, scenario, text, env, cwd).status.Finished?
  }

  /** The feature buffer after the scenario's text is routed: appended when not exported and the buffer exists. */
  function Appended(settings: map<string, Value>, featureLog: Option<string>, text: string): Option<string> {
    if text != "" && !Exports(settings) && featureLog.Some? then Some(featureLog.value + text) else featureLog
  }

  /** The end of the wrapper once the text is routed: the halt on failure, or the call of the wrapped hook. */
  function Finish(settings: map<string, Value>, failed: bool, handler: CallOutcome, events: seq<Event>,
                  featureLog: Option<string>, cwd: string): (h: Hooked)
    ensures h.featureLog == featureLog && h.cwd == cwd
    ensures h.out.Exited? ==> h.out.message == HaltMessage && Halts(settings, failed)
    ensures h.events == events || h.events == events + [HandlerCalled]
    ensures h.events == events + [HandlerCalled] <==> !Halts(settings, failed)
    ensures Halts(settings, failed) ==> h.out == Exited(HaltMessage)
    ensures !Halts(settings, failed) ==> h.out == Forward(handler)
  {
    if Halts(settings, failed) then Hooked(Exited(HaltMessage), events, featureLog, cwd)
    else Hooked(Forward(handler), events + [HandlerCalled], featureLog, cwd)
  }

  /** The end of the wrapper after the write `written` made by `p`: a write that does not finish ends it. */
  function AfterWrite(settings: map<string, Value>, failed: bool, handler: CallOutcome, written: Event,
                      featureLog: Option<string>, p: Writer.Plan): (h: Hooked)
    requires written.TextWritten?
    ensures h.featureLog == featureLog && h.cwd == p.cwd
    ensures h.out.Exited? ==> p.status.WriteExited? || (h.out.message == HaltMessage && Halts(settings, failed))
    ensures h.events == [written] || h.events == [written, HandlerCalled]
    ensures HandlerCalled in h.events <==> p.status.Finished? && !Halts(settings, failed)
    ensures p.status.Finished? && Halts(settings, failed) ==> h.out == Exited(HaltMessage)
    ensures HandlerCalled in h.events ==> h.out == Forward(handler)
    ensures p.status.WriteRaised? ==> h.out == Raised(p.status.error)
    ensures p.status.WriteExited? ==> h.out == Exited(p.status.message)
  {
    match p.status
    case Finished => Finish(settings, failed, handler, [written], featureLog, p.cwd)
    case WriteRaised(e) => Hooked(Raised(e), [written], featureLog, p.cwd)
    case WriteExited(m) => Hooked(Exited(m), [written], featureLog, p.cwd)
  }

  /**
   * What the wrapper does once the gate is passed and the scenario's text
   * has been composed (or has raised), in the working directory `cwd`: a
   * non-empty text is written or appended to the feature buffer; a write
   * that raises or exits ends the wrapper there; otherwise the run halts on
   * failure or the wrapped hook is called.
   */
  function Routed(settings: map<string, Value>, scenario: Scenario, composed: Result<string>, failed: bool,
                  handler: CallOutcome, featureLog: Option<string>, env: Env, cwd: string): (h: Hooked)
    requires Settings.Valid(settings)
    ensures h.out.Exited? ==> h.out.message == HaltMessage && Halts(settings, failed)
    ensures HandlerCalled in h.events <==>
      composed.Ok? && WriteReturns(settings, scenario, composed.value, env, cwd) && !Halts(settings, failed)
    ensures featureLog.Some? ==> h.featureLog.Some? && StartsWith(h.featureLog.value, featureLog.value)
    ensures featureLog.None? ==> h.featureLog.None?
    ensures forall i :: 0 <= i < |h.events| && h.events[i].TextWritten? ==>
      h.events[i].text != "" && h.events[i].scenarioName == scenario.name && i == 0
    ensures h.cwd != cwd ==> composed.Ok? && h.cwd == ScenarioWrite(settings, scenario, composed.value, env, cwd).cwd
    ensures composed.Err? ==> h.out == Raised(composed.error)
    ensures HandlerCalled in h.events ==> h.out == Forward(handler)
    ensures composed.Ok? && WriteReturns(settings, scenario, composed.value, env, cwd) && Halts(settings, failed) ==>
      h.out == Exited(HaltMessage)
  {
    match composed
    case Err(e) => Hooked(Raised(e), [], featureLog, cwd)
    case Ok(text) =>
      if WritesScenario(settings, text) then
        AfterWrite(settings, failed, handler, WriteEvent(scenario, text), featureLog, ScenarioWrite(settings, scenario, text, env, cwd))
      else Finish(settings, failed, handler, [], Appended(settings, featureLog, text), cwd)
  }

  /**
   * What the `after_scenario` wrapper does, given the scenario's state and
   * the runner state, started in the working directory `cwd`.
   */
  function AfterScenarioSpec(settings: map<string, Value>, scenario: Scenario, row: Option<Row>, failed: bool,
                             handler: CallOutcome, log: Option<string>, featureLog: Option<string>,
                             now: Now, env: Env, cwd: string): (h: Hooked)
    ensures !Settings.Valid(settings) ==> h == Hooked(Exited(Settings.InvalidMessage), [], featureLog, cwd)
    ensures Settings.Valid(settings) && h.out.Exited? ==> h.out.message == HaltMessage && Halts(settings, failed)
    ensures HandlerCalled in h.events <==>
      && Settings.Valid(settings)
      && GateOpen(Get(settings, "report_tag", Str("report")), scenario.tags)
      && ScenarioText(settings, scenario, row, log, now, env).Ok?
      && WriteReturns(settings, scenario, ScenarioText(settings, scenario, row, log, now, env).value, env, cwd)
      && !Halts(settings, failed)
    ensures featureLog.Some? ==> h.featureLog.Some? && StartsWith(h.featureLog.value, featureLog.value)
    ensures featureLog.None? ==> h.featureLog.None?
    ensures forall i :: 0 <= i < |h.events| && h.events[i].TextWritten? ==>
      h.events[i].text != "" && h.events[i].scenarioName == scenario.name && i == 0
    ensures h.cwd != cwd ==>
      && ScenarioText(settings, scenario, row, log, now, env).Ok?
      && h.cwd == ScenarioWrite(settings, scenario, ScenarioText(settings, scenario, row, log, now, env).value, env, cwd).cwd
    ensures Settings.Valid(settings) && !GateOpen(Get(settings, "report_tag", Str("report")), scenario.tags) ==>
      h == Hooked(Returned(Null), [], featureLog, cwd)
    ensures HandlerCalled in h.events ==> h.out == Forward(handler)
    ensures
      && Settings.Valid(settings)
      && GateOpen(Get(settings, "report_tag", Str("report")), scenario.tags)
      && ScenarioText(settings, scenario, row, log, now, env).Ok?
      && WriteReturns(settings, scenario, ScenarioText(settings, scenario, row, log, now, env).value, env, cwd)
      && Halts(settings, failed)
      ==> h.out == Exited(HaltMessage)
  {
    if !Settings.Valid(settings) then Hooked(Exited(Settings.InvalidMessage), [], featureLog, cwd)
    else if !GateOpen(Get(settings, "report_tag", Str("report")), scenario.tags) then Hooked(Returned(Null), [], featureLog, cwd)
    else Routed(settings, scenario, ScenarioText(settings, scenario, row, log, now, env), failed, handler, featureLog, env, cwd)
  }

  /**
   * The composition of the scenario's text in the `after_scenario`
   * wrapper: the header choice, the outline parameters, the rendering of
   * the header, and the log appended after it.
   */
  method ComposeText(cfg: Settings.Config, scenario: Scenario, row: Option<Row>, log: Option<string>, now: Now, env: Env)
    returns (r: Result<string>)
    requires Settings.Valid(cfg.settings)
    ensures r == ScenarioText(cfg.settings, scenario, row, log, now, env)
  {
    var configured := cfg.Get("scenario_header", Bool(false));
    var header: Value;
    if Truthy(configured.value) {
      var stored := cfg.Get("scenario_header", Str(""));
      header := stored.value;
    } else {
      var extracted := Extraction.ExtractMultilineString(scenario.description);
      header := Str(extracted);
    }
    assert header == Header(cfg.settings, scenario);
    var params := ScenarioContext(scenario, now);
    if RowTruthy(row) {
      params := params + ZipToMap(row.value.headings, row.value.cells);
      var formatted := env.format(scenario.name, params);
      if formatted.RenderRaised? {
        return Err(FormatError);
      }
    }
    assert params == OutlineParams(scenario, now, row);
    var rendered := RenderSource(env, header, params);
    if rendered.Rendered? {
      header := Str(rendered.text);
    }
    var text := "";
    if Truthy(header) {
      if !header.Str? {
        return Err(TypeError);
      }
      text := header.s + "\n\n";
    }
    assert HeaderText(header) == Ok(text);
    assert header == RenderedHeader(Header(cfg.settings, scenario), params, env);
    if log.Some? {
      text := text + log.value;
    } else {
      assert text + LogText(log) == text;
    }
    r := Ok(text);
  }

  /** The `write_text` call of the scenario's text, recorded in the trace; it moves the context's working directory. */
  method WriteScenario(ctx: Context, cfg: Settings.Config, scenario: Scenario, text: string, env: Env)
    returns (status: Writer.Status)
    modifies ctx
    ensures var p := ScenarioWrite(cfg.settings, scenario, text, env, old(ctx.cwd));
      status == p.status && ctx.cwd == p.cwd
    ensures ctx.trace == old(ctx.trace) + [WriteEvent(scenario, text)]
    ensures ctx.log == old(ctx.log) && ctx.report == old(ctx.report) && ctx.featureAbspath == old(ctx.featureAbspath)
    ensures ctx.featureLog == old(ctx.featureLog)
  {
    ctx.trace := ctx.trace + [WriteEvent(scenario, text)];
    var effects, finalCwd;
    effects, status, finalCwd := Writer.WriteText(text, scenario.feature.filename, scenario.feature.name,
                                                  scenario.name, scenario.tags, cfg.settings, env, ctx.cwd);
    ctx.cwd := finalCwd;
  }

  /** The end of the wrapper once the text is routed: the halt on failure, or the call of the wrapped hook. */
  method FinishHook(ctx: Context, cfg: Settings.Config, failed: bool, handler: CallOutcome)
    returns (out: HookOutcome)
    requires Settings.Valid(cfg.settings)
    modifies ctx
    ensures var h := Finish(cfg.settings, failed, handler, [], old(ctx.featureLog), old(ctx.cwd));
      out == h.out && ctx.trace == old(ctx.trace) + h.events
    ensures ctx.log == old(ctx.log) && ctx.report == old(ctx.report) && ctx.featureAbspath == old(ctx.featureAbspath)
    ensures ctx.featureLog == old(ctx.featureLog) && ctx.cwd == old(ctx.cwd)
  {
    var halt := cfg.Get("halt_execution_on_failure", Bool(false));
    if Truthy(halt.value) && failed {
      return Exited(HaltMessage);
    }
    ctx.trace := ctx.trace + [HandlerCalled];
    out := Forward(handler);
  }

  /** The write of an exported text and the rest of the wrapper after it. */
  method WriteAndFinish(ctx: Context, cfg: Settings.Config, scenario: Scenario, text: string, failed: bool,
                        handler: CallOutcome, env: Env)
    returns (out: HookOutcome)
    requires Settings.Valid(cfg.settings)
    modifies ctx
    ensures var h := AfterWrite(cfg.settings, failed, handler, WriteEvent(scenario, text), old(ctx.featureLog),
                                ScenarioWrite(cfg.settings, scenario, text, env, old(ctx.cwd)));
      && out == h.out && ctx.trace == old(ctx.trace) + h.events
      && ctx.featureLog == h.featureLog && ctx.cwd == h.cwd
    ensures ctx.log == old(ctx.log) && ctx.report == old(ctx.report) && ctx.featureAbspath == old(ctx.featureAbspath)
  {
    var status := WriteScenario(ctx, cfg, scenario, text, env);
    // The settings were validated before, so the writer does not exit here.
    if status.WriteRaised? {
      return Raised(status.error);
    }
    out := FinishHook(ctx, cfg, failed, handler);
  }

  /**
   * The tail of the wrapper: a non-empty composed text is written when
   * exported and otherwise appended to the feature buffer when there is one;
   * a write that does not finish ends the wrapper; then the run halts on
   * failure or the wrapped hook is called.
   */
  method RouteText(ctx: Context, cfg: Settings.Config, scenario: Scenario, composed: Result<string>, failed: bool,
                   handler: CallOutcome, env: Env)
    returns (out: HookOutcome)
    requires Settings.Valid(cfg.settings)
    modifies ctx
    ensures var h := Routed(cfg.settings, scenario, composed, failed, handler, old(ctx.featureLog), env, old(ctx.cwd));
      && out == h.out && ctx.trace == old(ctx.trace) + h.events
      && ctx.featureLog == h.featureLog && ctx.cwd == h.cwd
    ensures ctx.log == old(ctx.log) && ctx.report == old(ctx.report) && ctx.featureAbspath == old(ctx.featureAbspath)
  {
    if composed.Err? {
      return Raised(composed.error);
    }
    var text := composed.value;
    if |text| > 0 {
      var exporting := cfg.Get("export_scenario", Bool(true));
      if Truthy(exporting.value) {
        out := WriteAndFinish(ctx, cfg, scenario, text, failed, handler, env);
        return;
      } else if ctx.featureLog.Some? {
        ctx.featureLog := Some(ctx.featureLog.value + text);
      }
    }
    out := FinishHook(ctx, cfg, failed, handler);
  }

  /**
   * `after_scenario(func)`'s wrapper called for `scenario`; `row` is the
   * active outline row, `failed` whether the scenario failed, and `handler`
   * what the wrapped hook does.
   */
  method AfterScenarioHook(ctx: Context, cfg: Settings.Config, scenario: Scenario, row: Option<Row>, failed: bool,
                           handler: CallOutcome, now: Now, env: Env)
    returns (out: HookOutcome)
    modifies ctx
    ensures var h := AfterScenarioSpec(cfg.settings, scenario, row, failed, handler, old(ctx.log), old(ctx.featureLog), now, env, old(ctx.cwd));
      && out == h.out && ctx.trace == old(ctx.trace) + h.events
      && ctx.featureLog == h.featureLog && ctx.cwd == h.cwd
    ensures ctx.log == old(ctx.log) && ctx.report == old(ctx.report) && ctx.featureAbspath == old(ctx.featureAbspath)
  {
    var tag := cfg.Get("report_tag", Str("report"));
    if tag.Exited? {
      return Exited(tag.message);
    }
    if !(!Truthy(tag.value) || (tag.value.Str? && tag.value.s in scenario.tags)) {
      return Returned(Null);
    }
    var composed := ComposeText(cfg, scenario, row, ctx.log, now, env);
    out := RouteText(ctx, cfg, scenario, composed, failed, handler, env);
  }

  /**
   * The routing of a non-empty scenario text: exported, it is written under
   * the feature's file and names with the scenario's unformatted name and
   * the feature buffer is left alone; otherwise it is appended to the
   * feature buffer when that exists and is dropped when it does not.
   */
  lemma TextRouting(settings: map<string, Value>, scenario: Scenario, row: Option<Row>, failed: bool,
                    handler: CallOutcome, log: Option<string>, featureLog: Option<string>, now: Now, env: Env, cwd: string)
    requires Settings.Valid(settings) && GateOpen(Get(settings, "report_tag", Str("report")), scenario.tags)
    requires ScenarioText(settings, scenario, row, log, now, env).Ok?
    requires ScenarioText(settings, scenario, row, log, now, env).value != ""
    ensures var text := ScenarioText(settings, scenario, row, log, now, env).value;
      var h := AfterScenarioSpec(settings, scenario, row, failed, handler, log, featureLog, now, env, cwd);
      && (Exports(settings) ==>
            && h.events[0] == TextWritten(text, scenario.feature.filename, scenario.feature.name, scenario.name, scenario.tags)
            && h.featureLog == featureLog
            && h.cwd == ScenarioWrite(settings, scenario, text, env, cwd).cwd)
      && (!Exports(settings) ==>
            && (forall i :: 0 <= i < |h.events| ==> !h.events[i].TextWritten?)
            && h.featureLog == (if featureLog.Some? then Some(featureLog.value + text) else None)
            && h.cwd == cwd)
  {
  }

  /**
   * The composed text is the rendered header followed by a blank line (only
   * when the header is a non-empty string), then the log.
   */
  lemma ComposedText(settings: map<string, Value>, scenario: Scenario, row: Option<Row>, log: Option<string>, now: Now, env: Env)
    requires !(RowTruthy(row) && env.format(scenario.name, OutlineParams(scenario, now, row)).RenderRaised?)
    ensures var header := RenderedHeader(Header(settings, scenario), OutlineParams(scenario, now, row), env);
      var r := ScenarioText(settings, scenario, row, log, now, env);
      && (header.Str? && header.s != "" ==> r == Ok(header.s + "\n\n" + LogText(log)))
      && (!Truthy(header) ==> r == Ok(LogText(log)))
      && (Truthy(header) && !header.Str? ==> r == Err(TypeError))
  {
    var header := RenderedHeader(Header(settings, scenario), OutlineParams(scenario, now, row), env);
    var r := ScenarioText(settings, scenario, row, log, now, env);
    assert r == if HeaderText(header).Err? then Err(HeaderText(header).error) else Ok(HeaderText(header).value + LogText(log));
    if !Truthy(header) {
      assert "" + LogText(log) == LogText(log);
    }
  }

  /**
   * The schema admits `scenario_header: true`: the header is then the
   * boolean itself, which Jinja2 cannot render, and the wrapper raises a
   * `TypeError` before writing anything or calling the wrapped hook.
   */
  lemma TrueHeaderRaises(scenario: Scenario, failed: bool, handler: CallOutcome, log: Option<string>,
                         featureLog: Option<string>, now: Now, env: Env, cwd: string)
    ensures var s := Settings.InitialSettings()["scenario_header" := Bool(true)];
      && Settings.Valid(s)
      && AfterScenarioSpec(s, scenario, None, failed, handler, log, featureLog, now, env, cwd) == Hooked(Raised(TypeError), [], featureLog, cwd)
  {
    var s := Settings.InitialSettings()["scenario_header" := Bool(true)];
    Settings.InitialSettingsValid();
    Settings.UpdateOneValid(Settings.InitialSettings(), "scenario_header", Bool(true));
    assert Get(s, "report_tag", Str("report")) == Null;
    assert Header(s, scenario) == Bool(true);
  }

  /** A scenario whose tags miss a truthy `report_tag` is skipped entirely: the wrapped hook is not called. */
  lemma GateClosedSkipsHandler(settings: map<string, Value>, scenario: Scenario, row: Option<Row>, failed: bool,
                               handler: CallOutcome, log: Option<string>, featureLog: Option<string>, now: Now, env: Env,
                               cwd: string)
    requires Settings.Valid(settings) && !GateOpen(Get(settings, "report_tag", Str("report")), scenario.tags)
    ensures AfterScenarioSpec(settings, scenario, row, failed, handler, log, featureLog, now, env, cwd)
      == Hooked(Returned(Null), [], featureLog, cwd)
  {
  }

  /** With distinct headings, every cell is the parameter of its heading. */
  lemma DistinctHeadings(headings: seq<string>, cells: seq<string>, i: nat)
    requires forall a, b :: 0 <= a < b < |headings| ==> headings[a] != headings[b]
    requires i < |headings| && i < |cells|
    ensures headings[i] in ZipToMap(headings, cells) && ZipToMap(headings, cells)[headings[i]] == Str(cells[i])
  {
    assert LastHeading(headings, cells, i);
    ZipToMapPairs(headings, cells);
  }

  /**
   * A write that raises ends the wrapper with its exception: the run is
   * not halted and the wrapped hook is not called, whatever the scenario's
   * outcome.
   */
  lemma RaisingWriteEndsHook(settings: map<string, Value>, scenario: Scenario, row: Option<Row>, failed: bool,
                             handler: CallOutcome, log: Option<string>, featureLog: Option<string>, now: Now, env: Env,
                             cwd: string, text: string, e: PyError)
    requires Settings.Valid(settings) && GateOpen(Get(settings, "report_tag", Str("report")), scenario.tags)
    requires ScenarioText(settings, scenario, row, log, now, env) == Ok(text)
    requires WritesScenario(settings, text)
    requires ScenarioWrite(settings, scenario, text, env, cwd).status == Writer.WriteRaised(e)
    ensures AfterScenarioSpec(settings, scenario, row, failed, handler, log, featureLog, now, env, cwd)
      == Hooked(Raised(e), [WriteEvent(scenario, text)], featureLog, ScenarioWrite(settings, scenario, text, env, cwd).cwd)
  {
  }

  /**
   * The wrapper leaves the working directory where it started or, when a
   * pandoc run of its write failed, in the scenario's feature directory,
   * against which later relative paths are then resolved.
   */
  lemma ScenarioLeavesCwd(settings: map<string, Value>, scenario: Scenario, row: Option<Row>, failed: bool,
                          handler: CallOutcome, log: Option<string>, featureLog: Option<string>, now: Now, env: Env,
                          cwd: string)
    ensures var h := AfterScenarioSpec(settings, scenario, row, failed, handler, log, featureLog, now, env, cwd);
      h.cwd == cwd || h.cwd == Writer.FeatureDir(scenario.feature.filename, env, cwd)
  {
    var h := AfterScenarioSpec(settings, scenario, row, failed, handler, log, featureLog, now, env, cwd);
    if h.cwd != cwd {
      var text := ScenarioText(settings, scenario, row, log, now, env).value;
      Writer.WriteLeavesCwd(text, scenario.feature.filename, scenario.feature.name, scenario.name, scenario.tags,
                            settings, env, cwd);
    }
  }

  /** The default settings with scenarios exported and a `formats` entry `x-y` that is not a dict. */
  function NonDictSettings(): map<string, Value> {
    Settings.InitialSettings()["export_scenario" := Bool(true)]["formats" := Object(["x-y"], map["x-y" := Int(5)])]
  }

  /** The schema's pattern for format names does not cover `x-y`, so the settings above are valid. */
  lemma NonDictSettingsValid()
    ensures var s := NonDictSettings();
      && Settings.Valid(s) && Exports(s) && Get(s, "report_tag", Str("report")) == Null
      && Get(s, "report_dir", Str("reports")) == Str("reports/{{filename}}/")
      && Get(s, "report_file_basename", Str("{{scenario}}")) == Str("{{scenario}}")
      && Writer.FormatsOf(s) == Object(["x-y"], map["x-y" := Int(5)])
  {
    NonDictSettingsSchema();
  }

  /** The settings above pass the schema: each of the two updates keeps the initial settings valid. */
  lemma NonDictSettingsSchema()
    ensures Settings.Valid(NonDictSettings())
  {
    var s0 := Settings.InitialSettings();
    var s1 := s0["export_scenario" := Bool(true)];
    Settings.InitialSettingsValid();
    Settings.UpdateOneValid(s0, "export_scenario", Bool(true));
    assert Settings.PropertyOk("formats", Object(["x-y"], map["x-y" := Int(5)])) by {
      assert !Settings.MatchesPattern("x-y") by {
        assert !Settings.IsWordChar("x-y"[1]);
      }
    }
    Settings.UpdateOneValid(s1, "formats", Object(["x-y"], map["x-y" := Int(5)]));
  }

  /**
   * Under those settings a scenario tagged `x-y` makes the writer raise
   * `AttributeError` on the format's descriptor, and the wrapped hook is
   * not called.
   */
  lemma NonDictFormatSkipsHandler(scenario: Scenario, row: Option<Row>, failed: bool, handler: CallOutcome,
                                  log: Option<string>, featureLog: Option<string>, now: Now, env: Env, cwd: string)
    requires scenario.tags == ["x-y"]
    requires ScenarioText(NonDictSettings(), scenario, row, log, now, env).Ok?
    requires ScenarioText(NonDictSettings(), scenario, row, log, now, env).value != ""
    requires var ctx := Writer.PathContext(scenario.feature.filename, scenario.feature.name, scenario.name);
      env.jinja("reports/{{filename}}/", ctx).Rendered? && env.jinja("{{scenario}}", ctx).Rendered?
    ensures var h := AfterScenarioSpec(NonDictSettings(), scenario, row, failed, handler, log, featureLog, now, env, cwd);
      && Settings.Valid(NonDictSettings())
      && h.out == Raised(AttributeError) && HandlerCalled !in h.events
  {
    NonDictSettingsValid();
    var s := NonDictSettings();
    var text := ScenarioText(s, scenario, row, log, now, env).value;
    Writer.NonDictFormatRaises(text, scenario.feature.filename, scenario.feature.name, scenario.name, s, env, cwd);
    RaisingWriteEndsHook(s, scenario, row, failed, handler, log, featureLog, now, env, cwd, text, AttributeError);
  }
}
