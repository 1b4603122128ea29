/**
 * The `before_feature` wrapper of `bddreporting/before_feature.py`: it
 * records the directory of the feature file and, when scenarios are not
 * exported one by one, seeds the feature's buffer with the rendered
 * feature header.
 */
module BeforeFeature {
  import opened Wrappers
  import opened Strings
  import opened Values
  import opened Externals
  import opened Behave
  import Settings
  import Extraction
  import Paths

  /** The header: the configured `feature_header` when truthy, else the text extracted from the feature's description. */
  function FeatureHeader(settings: map<string, Value>, feature: Feature): (h: Value)
    ensures Truthy(Get(settings, "feature_header", Bool(false))) ==> h == Get(settings, "feature_header", Bool(false))
    ensures !Truthy(Get(settings, "feature_header", Bool(false))) ==> h == Str(Extraction.Extracted(feature.description))
  {
    var configured := Get(settings, "feature_header", Bool(false));
    if Truthy(configured) then configured else Str(Extraction.Extracted(feature.description))
  }

  /** The names the feature header is rendered with: only the date and the time. */
  function DateContext(now: Now): RenderContext {
    map["date" := Str(now.date), "time" := Str(now.time)]
  }

  /**
   * The feature's buffer is seeded unless `export_scenario` is truthy; here
   * its default is `False`, where `after_scenario` reads it with `True`.
   */
  predicate SeedsFeature(settings: map<string, Value>) {
    !Truthy(Get(settings, "export_scenario", Bool(false)))
  }

  /**
   * The text the feature's buffer is seeded with: `None` when scenarios are
   * exported or the rendered header is empty, the rendered header and a
   * blank line otherwise. The rendering raising (a failed render, or a
   * header that is not a string) is not caught here.
   */
  function FeatureSeed(settings: map<string, Value>, feature: Feature, now: Now, env: Env): (r: Result<Option<string>>)
    ensures !SeedsFeature(settings) ==> r == Ok(None)
    ensures r.Err? <==> SeedsFeature(settings) && RenderSource(env, FeatureHeader(settings, feature), DateContext(now)).RenderRaised?
    ensures r.Ok? && r.value.Some? ==>
      var rendered := RenderSource(env, FeatureHeader(settings, feature), DateContext(now));
      && SeedsFeature(settings) && rendered.Rendered? && rendered.text != ""
      && r.value.value == rendered.text + "\n\n"
    ensures r == Ok(None) ==> !SeedsFeature(settings) || RenderSource(env, FeatureHeader(settings, feature), DateContext(now)) == Rendered("")
  {
    if !SeedsFeature(settings) then Ok(None)
    else
      match RenderSource(env, FeatureHeader(settings, feature), DateContext(now))
      case RenderRaised => Err(TemplateError)
      case Rendered(h) => if h == "" then Ok(None) else Ok(Some(h + "\n\n"))
  }

  /** The end of the wrapper once the seed is composed: a seed replaces the buffer and the wrapped hook is called. */
  function Seeded(seed: Result<Option<string>>, handler: CallOutcome, featureLog: Option<string>, cwd: string): Hooked {
    match seed
    case Err(e) => Hooked(Raised(e), [], featureLog, cwd)
    case Ok(s) => Hooked(Forward(handler), [HandlerCalled], if s.Some? then s else featureLog, cwd)
  }

  /**
   * What the `before_feature` wrapper does to the feature's buffer and the
   * trace, and how it ends; it never changes the working directory `cwd`.
   */
  function BeforeFeatureSpec(settings: map<string, Value>, feature: Feature, handler: CallOutcome,
                             featureLog: Option<string>, now: Now, env: Env, cwd: string): (h: Hooked)
    ensures !Settings.Valid(settings) ==> h == Hooked(Exited(Settings.InvalidMessage), [], featureLog, cwd)
    ensures h.cwd == cwd
    ensures h.events == [] || h.events == [HandlerCalled]
    ensures h.events == [HandlerCalled] <==>
      && Settings.Valid(settings)
      && GateOpen(Get(settings, "report_tag", Str("report")), feature.tags)
      && FeatureSeed(settings, feature, now, env).Ok?
    ensures h.events == [HandlerCalled] ==> h.out == Forward(handler)
    ensures h.featureLog != featureLog ==>
      && h.events == [HandlerCalled] && SeedsFeature(settings)
      && h.featureLog == FeatureSeed(settings, feature, now, env).value
  {
    if !Settings.Valid(settings) then Hooked(Exited(Settings.InvalidMessage), [], featureLog, cwd)
    else if !GateOpen(Get(settings, "report_tag", Str("report")), feature.tags) then Hooked(Returned(Null), [], featureLog, cwd)
    else
      Seeded(FeatureSeed(settings, feature, now, env), handler, featureLog, cwd)
  }

  /** The header part of the wrapper: the export check, the header choice and its rendering. */
  method ComposeSeed(cfg: Settings.Config, feature: Feature, now: Now, env: Env) returns (r: Result<Option<string>>)
    requires Settings.Valid(cfg.settings)
    ensures r == FeatureSeed(cfg.settings, feature, now, env)
  {
    var exporting := cfg.Get("export_scenario", Bool(false));
    if Truthy(exporting.value) {
      return Ok(None);
    }
    var configured := cfg.Get("feature_header", Bool(false));
    var header: Value;
    if Truthy(configured.value) {
      var stored := cfg.Get("feature_header", Str(""));
      header := stored.value;
    } else {
      var extracted := Extraction.ExtractMultilineString(feature.description);
      header := Str(extracted);
    }
    assert header == FeatureHeader(cfg.settings, feature);
    var rendered := RenderSource(env, header, DateContext(now));
    if rendered.RenderRaised? {
      return Err(TemplateError);
    }
    if |rendered.text| > 0 {
      r := Ok(Some(rendered.text + "\n\n"));
    } else {
      r := Ok(None);
    }
  }

  /** The seeding of the buffer and the call of the wrapped hook, once the gate is passed. */
  method SeedAndCall(ctx: Context, cfg: Settings.Config, feature: Feature, handler: CallOutcome, now: Now, env: Env)
    returns (out: HookOutcome)
    requires Settings.Valid(cfg.settings)
    modifies ctx
    ensures var h := Seeded(FeatureSeed(cfg.settings, feature, now, env), handler, old(ctx.featureLog), old(ctx.cwd));
      out == h.out && ctx.trace == old(ctx.trace) + h.events && ctx.featureLog == h.featureLog && ctx.cwd == h.cwd
    ensures ctx.log == old(ctx.log) && ctx.report == old(ctx.report) && ctx.featureAbspath == old(ctx.featureAbspath)
  {
    var seed := ComposeSeed(cfg, feature, now, env);
    if seed.Err? {
      return Raised(seed.error);
    }
    if seed.value.Some? {
      ctx.featureLog := seed.value;
    }
    ctx.trace := ctx.trace + [HandlerCalled];
    out := Forward(handler);
  }

  /**
   * `before_feature(func)`'s wrapper called for `feature`, `handler` being
   * what the wrapped hook does. The feature file's directory is recorded
   * first, before the settings are read, so it is set however the wrapper ends.
   */
  method BeforeFeatureHook(ctx: Context, cfg: Settings.Config, feature: Feature, handler: CallOutcome, now: Now, env: Env)
    returns (out: HookOutcome)
    modifies ctx
    ensures ctx.featureAbspath == Some(Paths.Dirname(env.abspath(old(ctx.cwd), feature.filename)))
    ensures var h := BeforeFeatureSpec(cfg.settings, feature, handler, old(ctx.featureLog), now, env, old(ctx.cwd));
      out == h.out && ctx.trace == old(ctx.trace) + h.events && ctx.featureLog == h.featureLog && ctx.cwd == h.cwd
    ensures ctx.log == old(ctx.log) && ctx.report == old(ctx.report)
  {
    ctx.featureAbspath := Some(Paths.Dirname(env.abspath(ctx.cwd, feature.filename)));
    var tag := cfg.Get("report_tag", Str("report"));
    if tag.Exited? {
      return Exited(tag.message);
    }
    if !(!Truthy(tag.value) || (tag.value.Str? && tag.value.s in feature.tags)) {
      return Returned(Null);
    }
    out := SeedAndCall(ctx, cfg, feature, handler, now, env);
  }

  /** When scenarios are exported one by one, the feature's buffer is left as it was, however the wrapper ends. */
  lemma ExportingLeavesBuffer(settings: map<string, Value>, feature: Feature, handler: CallOutcome,
                              featureLog: Option<string>, now: Now, env: Env, cwd: string)
    requires !SeedsFeature(settings)
    ensures BeforeFeatureSpec(settings, feature, handler, featureLog, now, env, cwd).featureLog == featureLog
  {
  }

  /**
   * A seed replaces whatever the buffer held, and a feature without a
   * non-empty rendered header keeps its buffer: the wrapper never appends.
   */
  lemma SeedReplacesBuffer(settings: map<string, Value>, feature: Feature, handler: CallOutcome,
                           featureLog: Option<string>, now: Now, env: Env, cwd: string)
    requires Settings.Valid(settings) && GateOpen(Get(settings, "report_tag", Str("report")), feature.tags)
    ensures var h := BeforeFeatureSpec(settings, feature, handler, featureLog, now, env, cwd);
      match FeatureSeed(settings, feature, now, env)
      case Ok(Some(seed)) => h.featureLog == Some(seed)
      case _ => h.featureLog == featureLog
  {
  }

  /**
   * With the default settings a feature's buffer is seeded with the default
   * `feature_header` rendered on the date and the time, followed by a blank
   * line, when that is not empty; a rendering that raises is a template error.
   */
  lemma DefaultSettingsSeed(feature: Feature, now: Now, env: Env)
    ensures var s := Settings.InitialSettings();
      && SeedsFeature(s)
      && FeatureHeader(s, feature) == Str("# {{feature}}\n\n")
      && FeatureSeed(s, feature, now, env) ==
           match env.jinja("# {{feature}}\n\n", DateContext(now))
           case RenderRaised => Err(TemplateError)
           case Rendered(t) => if t == "" then Ok(None) else Ok(Some(t + "\n\n"))
  {
  }
}
