/**
 * The `after_feature` wrapper of `bddreporting/after_feature.py`, which
 * hands the feature's buffer to the report writer, and what the three
 * feature and scenario wrappers do together to that buffer.
 */
module AfterFeature {
  import opened Wrappers
  import opened Strings
  import opened Values
  import opened Behave
  import Externals
  import Writer
  import Settings
  import BeforeFeature
  import AfterScenario

  /** The scenario name the feature's report is written under. */
  const UnknownScenario := "_unknown_"

  /** The write of the feature's buffer: made exactly when the buffer exists and is not empty. */
  function FeatureWrite(featureLog: Option<string>, feature: Feature): (w: seq<Event>)
    ensures |w| <= 1
    ensures w != [] <==> featureLog.Some? && featureLog.value != ""
    ensures w != [] ==> w[0] == TextWritten(featureLog.value, feature.filename, feature.name, UnknownScenario, feature.tags)
  {
    if featureLog.Some? && |featureLog.value| > 0 then
      [TextWritten(featureLog.value, feature.filename, feature.name, UnknownScenario, feature.tags)]
    else []
  }

  /** The `write_text` call of the feature's buffer `text` in the working directory `cwd`. */
  function FeaturePlan(settings: map<string, Value>, feature: Feature, text: string, env: Externals.Env, cwd: string): Writer.Plan {
    Writer.WritePlan(text, feature.filename, feature.name, UnknownScenario, feature.tags, settings, env, cwd)
  }

  /** The end of the wrapper after the write `write` made by `p`: the wrapped hook is called only when it finishes. */
  function FeatureEnd(handler: CallOutcome, write: seq<Event>, featureLog: Option<string>, p: Writer.Plan): Hooked {
    match p.status
    case Finished => Hooked(Forward(handler), write + [HandlerCalled], featureLog, p.cwd)
    case WriteRaised(e) => Hooked(Raised(e), write, featureLog, p.cwd)
    case WriteExited(m) => Hooked(Exited(m), write, featureLog, p.cwd)
  }

  /**
   * What `after_feature(func)`'s wrapper does for `feature`. It reads no
   * settings itself, so it applies no `report_tag` gate; the writer reads
   * them, and a write that raises or exits ends the wrapper before the
   * wrapped hook is called.
   */
  function AfterFeatureSpec(settings: map<string, Value>, feature: Feature, handler: CallOutcome,
                            featureLog: Option<string>, env: Externals.Env, cwd: string): (h: Hooked)
    ensures h.featureLog == featureLog
    ensures h.events == FeatureWrite(featureLog, feature) || h.events == FeatureWrite(featureLog, feature) + [HandlerCalled]
    ensures HandlerCalled in h.events <==>
      FeatureWrite(featureLog, feature) == [] || FeaturePlan(settings, feature, featureLog.value, env, cwd).status.Finished?
    ensures HandlerCalled in h.events ==> h.out == Forward(handler)
    ensures FeatureWrite(featureLog, feature) == [] ==> h == Hooked(Forward(handler), [HandlerCalled], featureLog, cwd)
    ensures FeatureWrite(featureLog, feature) != [] ==> h.cwd == FeaturePlan(settings, feature, featureLog.value, env, cwd).cwd
  {
    if featureLog.Some? && |featureLog.value| > 0 then
      FeatureEnd(handler, FeatureWrite(featureLog, feature), featureLog, FeaturePlan(settings, feature, featureLog.value, env, cwd))
    else Hooked(Forward(handler), [HandlerCalled], featureLog, cwd)
  }

  /** The `write_text` call of the feature's non-empty buffer `text`, recorded in the trace; it moves the working directory. */
  method WriteFeature(ctx: Context, cfg: Settings.Config, feature: Feature, text: string, env: Externals.Env)
    returns (status: Writer.Status)
    modifies ctx
    ensures var p := FeaturePlan(cfg.settings, feature, text, env, old(ctx.cwd));
      status == p.status && ctx.cwd == p.cwd
    ensures ctx.trace == old(ctx.trace) + [TextWritten(text, feature.filename, feature.name, UnknownScenario, feature.tags)]
    ensures ctx.log == old(ctx.log) && ctx.featureLog == old(ctx.featureLog)
    ensures ctx.featureAbspath == old(ctx.featureAbspath) && ctx.report == old(ctx.report)
  {
    ctx.trace := ctx.trace + [TextWritten(text, feature.filename, feature.name, UnknownScenario, feature.tags)];
    var effects, finalCwd;
    effects, status, finalCwd := Writer.WriteText(text, feature.filename, feature.name,
                                                  UnknownScenario, feature.tags, cfg.settings, env, ctx.cwd);
    ctx.cwd := finalCwd;
  }

  /** The write of the feature's non-empty buffer `text` and the rest of the wrapper after it. */
  method WriteAndCall(ctx: Context, cfg: Settings.Config, feature: Feature, text: string, handler: CallOutcome,
                      env: Externals.Env)
    returns (out: HookOutcome)
    modifies ctx
    ensures var h := FeatureEnd(handler, [TextWritten(text, feature.filename, feature.name, UnknownScenario, feature.tags)],
                                old(ctx.featureLog), FeaturePlan(cfg.settings, feature, text, env, old(ctx.cwd)));
      out == h.out && ctx.trace == old(ctx.trace) + h.events && ctx.cwd == h.cwd
    ensures ctx.log == old(ctx.log) && ctx.featureLog == old(ctx.featureLog)
    ensures ctx.featureAbspath == old(ctx.featureAbspath) && ctx.report == old(ctx.report)
  {
    ghost var p := FeaturePlan(cfg.settings, feature, text, env, ctx.cwd);
    var status := WriteFeature(ctx, cfg, feature, text, env);
    assert status == p.status;
    match status
    case WriteRaised(e) => out := Raised(e);
    case WriteExited(m) => out := Exited(m);
    case Finished =>
      ctx.trace := ctx.trace + [HandlerCalled];
      out := Forward(handler);
  }

  /** `after_feature(func)`'s wrapper called for `feature`, `handler` being what the wrapped hook does. */
  method AfterFeatureHook(ctx: Context, cfg: Settings.Config, feature: Feature, handler: CallOutcome, env: Externals.Env)
    returns (out: HookOutcome)
    modifies ctx
    ensures var h := AfterFeatureSpec(cfg.settings, feature, handler, old(ctx.featureLog), env, old(ctx.cwd));
      out == h.out && ctx.trace == old(ctx.trace) + h.events && ctx.cwd == h.cwd
    ensures ctx.log == old(ctx.log) && ctx.featureLog == old(ctx.featureLog)
    ensures ctx.featureAbspath == old(ctx.featureAbspath) && ctx.report == old(ctx.report)
  {
    if ctx.featureLog.Some? && |ctx.featureLog.value| > 0 {
      out := WriteAndCall(ctx, cfg, feature, ctx.featureLog.value, handler, env);
      return;
    }
    ctx.trace := ctx.trace + [HandlerCalled];
    out := Forward(handler);
  }

  /**
   * Though the wrapper validates nothing itself, a non-empty buffer under
   * invalid settings makes the writer exit the process with the validation
   * message, before the wrapped hook is called and in the same directory.
   */
  lemma InvalidSettingsExitOnWrite(settings: map<string, Value>, feature: Feature, handler: CallOutcome,
                                   text: string, env: Externals.Env, cwd: string)
    requires !Settings.Valid(settings) && text != ""
    ensures AfterFeatureSpec(settings, feature, handler, Some(text), env, cwd)
      == Hooked(Exited(Settings.InvalidMessage), FeatureWrite(Some(text), feature), Some(text), cwd)
  {
  }

  /**
   * With `export_scenario` set and falsy, a feature whose header renders to
   * a seed collects its scenario's text after the seed: `before_feature`
   * seeds the buffer, `after_scenario` appends to it instead of writing,
   * leaving the working directory alone, and `after_feature` writes seed
   * and text as one report.
   */
  lemma FeatureCollectsScenario(settings: map<string, Value>, feature: Feature, scenario: Scenario, row: Option<Row>,
                                failed: bool, onFeature: CallOutcome, onScenario: CallOutcome, log: Option<string>,
                                now: Now, env: Externals.Env, cwd: string, seed: string, text: string)
    requires Settings.Valid(settings)
    requires "export_scenario" in settings && !Truthy(settings["export_scenario"])
    requires GateOpen(Get(settings, "report_tag", Str("report")), feature.tags)
    requires GateOpen(Get(settings, "report_tag", Str("report")), scenario.tags)
    requires BeforeFeature.FeatureSeed(settings, feature, now, env) == Ok(Some(seed))
    requires AfterScenario.ScenarioText(settings, scenario, row, log, now, env) == Ok(text)
    ensures var b := BeforeFeature.BeforeFeatureSpec(settings, feature, onFeature, None, now, env, cwd);
      var a := AfterScenario.AfterScenarioSpec(settings, scenario, row, failed, onScenario, log, b.featureLog, now, env, b.cwd);
      && (forall i :: 0 <= i < |a.events| ==> !a.events[i].TextWritten?)
      && a.cwd == cwd
      && FeatureWrite(a.featureLog, feature) == [TextWritten(seed + text, feature.filename, feature.name, UnknownScenario, feature.tags)]
  {
    var b := BeforeFeature.BeforeFeatureSpec(settings, feature, onFeature, None, now, env, cwd);
    assert b.featureLog == Some(seed);
    assert !AfterScenario.Exports(settings);
    var a := AfterScenario.AfterScenarioSpec(settings, scenario, row, failed, onScenario, log, b.featureLog, now, env, b.cwd);
    assert seed != "" by {
      var rendered := Externals.RenderSource(env, BeforeFeature.FeatureHeader(settings, feature), BeforeFeature.DateContext(now));
      assert seed == rendered.text + "\n\n";
    }
    if text != "" {
      assert a.featureLog == Some(seed + text);
    } else {
      assert a.featureLog == Some(seed) && seed + text == seed;
    }
  }

  /**
   * With `export_scenario` set and falsy and a feature header that renders
   * empty, the feature's buffer is never created, so its scenario's text is
   * neither written nor kept, and `after_feature` writes nothing.
   */
  lemma TextLostWithoutSeed(settings: map<string, Value>, feature: Feature, scenario: Scenario, row: Option<Row>,
                            failed: bool, onFeature: CallOutcome, onScenario: CallOutcome, log: Option<string>,
                            now: Now, env: Externals.Env, cwd: string)
    requires Settings.Valid(settings)
    requires "export_scenario" in settings && !Truthy(settings["export_scenario"])
    requires GateOpen(Get(settings, "report_tag", Str("report")), feature.tags)
    requires BeforeFeature.FeatureSeed(settings, feature, now, env) == Ok(None)
    ensures var b := BeforeFeature.BeforeFeatureSpec(settings, feature, onFeature, None, now, env, cwd);
      var a := AfterScenario.AfterScenarioSpec(settings, scenario, row, failed, onScenario, log, b.featureLog, now, env, b.cwd);
      && b.featureLog == None
      && (forall i :: 0 <= i < |a.events| ==> !a.events[i].TextWritten?)
      && FeatureWrite(a.featureLog, feature) == []
  {
    var b := BeforeFeature.BeforeFeatureSpec(settings, feature, onFeature, None, now, env, cwd);
    assert !AfterScenario.Exports(settings);
    var a := AfterScenario.AfterScenarioSpec(settings, scenario, row, failed, onScenario, log, b.featureLog, now, env, b.cwd);
    assert a.featureLog == None;
  }

  /**
   * The schema does not require `export_scenario`. Without it the two
   * wrappers disagree: `after_scenario` exports every scenario and
   * `before_feature` also seeds the feature's buffer. A `Config` never
   * reaches such settings, since it starts with the key and updates only
   * add keys; settings stored some other way can.
   */
  lemma ExportDefaultsDisagree(settings: map<string, Value>)
    requires "export_scenario" !in settings
    ensures AfterScenario.Exports(settings) && BeforeFeature.SeedsFeature(settings)
  {
  }
}
