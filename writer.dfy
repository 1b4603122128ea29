/**
 * `write_text` of `bddreporting/utils.py`: resolves the output formats of a
 * report from its tags and the settings, and plans, in order, the effects
 * the call has on the file system and on the process (directory creation,
 * working-directory changes, pandoc conversions, custom converters and the
 * fallback markdown file). The effects are recorded, not performed.
 */
module Writer {
  import opened Wrappers
  import opened Strings
  import opened Values
  import opened Externals
  import opened FrontMatter
  import Settings
  import Paths

  // ---------------------------------------------------------------- format resolution

  /** The elements of `s` that satisfy `p`, in their order in `s`. */
  function Filter<T>(p: T -> bool, s: seq<T>): seq<T> {
    if s == [] then [] else (if p(s[0]) then [s[0]] else []) + Filter(p, s[1..])
  }

  lemma {:induction false} FilterAppend<T>(p: T -> bool, a: seq<T>, b: seq<T>)
    ensures Filter(p, a + b) == Filter(p, a) + Filter(p, b)
  {
    if a == [] {
      assert a + b == b;
    } else {
      var head := if p(a[0]) then [a[0]] else [];
      assert (a + b)[0] == a[0] && (a + b)[1..] == a[1..] + b;
      assert Filter(p, a + b) == head + Filter(p, a[1..] + b);
      FilterAppend(p, a[1..], b);
      assert head + (Filter(p, a[1..]) + Filter(p, b)) == (head + Filter(p, a[1..])) + Filter(p, b);
    }
  }

  lemma {:induction false} FilterMembers<T>(p: T -> bool, s: seq<T>, x: T)
    ensures x in Filter(p, s) <==> x in s && p(x)
  {
    if s != [] {
      FilterMembers(p, s[1..], x);
      assert s == [s[0]] + s[1..];
    }
  }

  /** The lower-case form of a format name is among the lower-cased tags. */
  predicate TagSelects(lowerTags: seq<string>, ext: string) {
    Lower(ext) in lowerTags
  }

  /** The configured format names, in configuration order, that a tag names regardless of case. */
  function TagSelected(tags: seq<string>, known: seq<string>): seq<string> {
    var lowerTags := LowerAll(tags);
    Filter((ext: string) => TagSelects(lowerTags, ext), known)
  }

  /** The `default_formats` entries that are exact names of configured formats, in their order, duplicates kept. */
  function KnownDefaults(defaults: seq<Value>, known: seq<string>): (r: seq<string>)
    ensures forall i :: 0 <= i < |r| ==> r[i] in known
  {
    if defaults == [] then []
    else
      (if defaults[0].Str? && defaults[0].s in known then [defaults[0].s] else [])
      + KnownDefaults(defaults[1..], known)
  }

  lemma {:induction false} KnownDefaultsAppend(a: seq<Value>, b: seq<Value>, known: seq<string>)
    ensures KnownDefaults(a + b, known) == KnownDefaults(a, known) + KnownDefaults(b, known)
  {
    if a == [] {
      assert a + b == b;
    } else {
      assert (a + b)[0] == a[0] && (a + b)[1..] == a[1..] + b;
      KnownDefaultsAppend(a[1..], b, known);
    }
  }

  /** The formats a report is written in: the tag-selected ones, or else the known defaults. */
  function ResolveFormats(tags: seq<string>, known: seq<string>, defaults: seq<Value>): (r: seq<string>)
    ensures r == [] <==> TagSelected(tags, known) == [] && KnownDefaults(defaults, known) == []
  {
    var selected := TagSelected(tags, known);
    if selected != [] then selected else KnownDefaults(defaults, known)
  }

  /**
   * A format is tag-selected exactly when it is configured and its
   * lower-case form equals the lower-case form of some tag.
   */
  lemma TagSelectedMembers(tags: seq<string>, known: seq<string>, ext: string)
    ensures ext in TagSelected(tags, known) <==>
      ext in known && exists i :: 0 <= i < |tags| && Lower(tags[i]) == Lower(ext)
  {
    var lowerTags := LowerAll(tags);
    FilterMembers((e: string) => TagSelects(lowerTags, e), known, ext);
    if Lower(ext) in lowerTags {
      var i :| 0 <= i < |lowerTags| && lowerTags[i] == Lower(ext);
      assert Lower(tags[i]) == Lower(ext);
    }
  }

  /** Tag selection keeps configuration order: it distributes over a split of the configured names. */
  lemma TagSelectedKeepsOrder(tags: seq<string>, a: seq<string>, b: seq<string>)
    ensures TagSelected(tags, a + b) == TagSelected(tags, a) + TagSelected(tags, b)
  {
    var lowerTags := LowerAll(tags);
    FilterAppend((e: string) => TagSelects(lowerTags, e), a, b);
  }

  /**
   * A default entry counts once per occurrence when it names a configured
   * format and not at all otherwise.
   */
  lemma {:induction false} KnownDefaultsCount(defaults: seq<Value>, known: seq<string>, name: string)
    ensures multiset(KnownDefaults(defaults, known))[name]
      == if name in known then multiset(defaults)[Str(name)] else 0
  {
    if defaults != [] {
      KnownDefaultsCount(defaults[1..], known, name);
      assert defaults == [defaults[0]] + defaults[1..];
      assert multiset(defaults) == multiset([defaults[0]]) + multiset(defaults[1..]);
    }
  }

  /**
   * Defaults apply only when no tag selects a format, and every resolved
   * format is a configured one.
   */
  lemma ResolvedFormatsAreKnown(tags: seq<string>, known: seq<string>, defaults: seq<Value>)
    ensures TagSelected(tags, known) != [] ==> ResolveFormats(tags, known, defaults) == TagSelected(tags, known)
    ensures TagSelected(tags, known) == [] ==> ResolveFormats(tags, known, defaults) == KnownDefaults(defaults, known)
    ensures forall i :: 0 <= i < |ResolveFormats(tags, known, defaults)| ==> ResolveFormats(tags, known, defaults)[i] in known
  {
    var lowerTags := LowerAll(tags);
    var sel := TagSelected(tags, known);
    forall i | 0 <= i < |sel| ensures sel[i] in known {
      FilterMembers((e: string) => TagSelects(lowerTags, e), known, sel[i]);
    }
  }

  /** With tag `DOCX` and formats `docx`, `txt` configured, exactly the `docx` format is written. */
  lemma UpperCaseTagSelectsFormat(defaults: seq<Value>)
    ensures ResolveFormats(["DOCX"], ["docx", "txt"], defaults) == ["docx"]
  {
    var lowerTags := LowerAll(["DOCX"]);
    assert LowerChar('D') == 'd' && LowerChar('O') == 'o' && LowerChar('C') == 'c' && LowerChar('X') == 'x';
    assert Lower("DOCX") == "docx";
    assert lowerTags == ["docx"];
    assert Lower("docx") == "docx";
    assert Lower("txt") == "txt";
    var p := (e: string) => TagSelects(lowerTags, e);
    assert ["docx", "txt"][1..] == ["txt"];
    assert ["txt"][1..] == [];
    assert Filter(p, ["txt"]) == [];
  }

  /** With no tag naming a format and `default_formats` `["txt"]`, exactly the `txt` format is written. */
  lemma DefaultsApplyWithoutTag()
    ensures ResolveFormats(["smoke"], ["docx", "txt"], [Str("txt")]) == ["txt"]
  {
    var lowerTags := LowerAll(["smoke"]);
    assert Lower("smoke") == "smoke";
    assert lowerTags == ["smoke"];
    assert Lower("docx") == "docx" && Lower("txt") == "txt";
    var p := (e: string) => TagSelects(lowerTags, e);
    assert ["docx", "txt"][1..] == ["txt"];
    assert Filter(p, ["txt"]) == [];
    assert KnownDefaults([Str("txt")][1..], ["docx", "txt"]) == [];
  }

  /**
   * The format resolution of `write_text`: a comprehension over the
   * configured formats, then, only when it selected none, an appending
   * loop over the defaults.
   */
  method SelectFormats(tags: seq<string>, known: seq<string>, defaults: seq<Value>) returns (formats: seq<string>)
    ensures formats == ResolveFormats(tags, known, defaults)
  {
    var lowerTags := LowerAll(tags);
    ghost var p := (e: string) => TagSelects(lowerTags, e);
    formats := [];
    for i := 0 to |known|
      invariant formats == Filter(p, known[..i])
    {
      if Lower(known[i]) in lowerTags {
        formats := formats + [known[i]];
      }
      assert known[..i + 1] == known[..i] + [known[i]];
      FilterAppend(p, known[..i], [known[i]]);
    }
    assert known[..|known|] == known;
    if |formats| == 0 {
      for i := 0 to |defaults|
        invariant formats == KnownDefaults(defaults[..i], known)
      {
        if defaults[i].Str? && defaults[i].s in known {
          formats := formats + [defaults[i].s];
        }
        assert defaults[..i + 1] == defaults[..i] + [defaults[i]];
        KnownDefaultsAppend(defaults[..i], [defaults[i]], known);
      }
      assert defaults[..|defaults|] == defaults;
    }
  }

  // ---------------------------------------------------------------- planned effects

  /** An effect of `write_text` on the file system or the process. */
  datatype Effect =
    | MakeDirs(path: string)
    | ChangeDir(path: string)
    | Pandoc(source: string, to: Value, extraArgs: Value, outputFile: string)
    | ConversionFailed(outputFile: string)
    | CustomConvert(converter: Value, outputFile: string)
    | WriteFile(path: string, content: string)

  /** How a `write_text` call ends. */
  datatype Status = Finished | WriteRaised(error: PyError) | WriteExited(message: string)

  /** What stays fixed across the formats of one `write_text` call. */
  datatype Job = Job(
    text: string,
    featureDir: string,
    directory: string,
    basename: Value,
    pathContext: RenderContext,
    formats: map<string, Value>,
    env: Env)

  /** The effects of one or more formats, the working directory afterwards, and the exception that ended them, if any. */
  datatype Step = Step(effects: seq<Effect>, cwd: string, error: Option<PyError>)

  /** The rendered report file base name (rendered anew, with the same result, for every format). */
  function BaseName(job: Job): Rendered {
    RenderSource(job.env, job.basename, job.pathContext)
  }

  /** The output path of one format: the directory joined with the base name plus `"." + ext`. */
  function OutputPath(job: Job, ext: string): string
    requires BaseName(job).Rendered?
  {
    Paths.Join(job.directory, BaseName(job).text + "." + ext)
  }

  /** The output file an effect writes, for the conversions. */
  function OutputOf(e: Effect): seq<string> {
    match e
    case Pandoc(_, _, _, out) => [out]
    case CustomConvert(_, out) => [out]
    case _ => []
  }

  function Outputs(effects: seq<Effect>): seq<string> {
    if effects == [] then [] else OutputOf(effects[0]) + Outputs(effects[1..])
  }

  lemma {:induction false} OutputsAppend(a: seq<Effect>, b: seq<Effect>)
    ensures Outputs(a + b) == Outputs(a) + Outputs(b)
  {
    if a == [] {
      assert a + b == b;
    } else {
      assert (a + b)[0] == a[0] && (a + b)[1..] == a[1..] + b;
      OutputsAppend(a[1..], b);
    }
  }

  /** The `extra_args` pandoc receives: the front matter's when it overrides, else the format's own. */
  function ExtraArgs(job: Job, data: Value, o: Override): Value
    requires data.Object? && "extra_args" in data.fields
  {
    if o.Replace? then o.args else data.fields["extra_args"]
  }

  /** No effect in the list creates a directory or writes a file. */
  predicate NoWrites(effects: seq<Effect>) {
    forall i :: 0 <= i < |effects| ==> !effects[i].WriteFile? && !effects[i].MakeDirs?
  }

  /**
   * The steps for one format. Without a `module`, pandoc converts the text
   * to the format's `to` (the format name by default) with the working
   * directory set to the feature's directory; the previous directory is
   * restored only when pandoc returns normally. With a `module`, the custom
   * converter is called instead.
   */
  function ConvertOne(job: Job, ext: string, cwd: string): (st: Step)
    ensures st.error.None? ==> BaseName(job).Rendered? && ext in job.formats && job.formats[ext].Object?
    ensures st.error.Some? ==> st.effects == [] && st.cwd == cwd
    ensures NoWrites(st.effects)
    ensures st.cwd == cwd
      || (BaseName(job).Rendered? && st.cwd == job.featureDir && ConversionFailed(OutputPath(job, ext)) in st.effects)
  {
    match BaseName(job)
    case RenderRaised => Step([], cwd, Some(TemplateError))
    case Rendered(base) =>
      var outputFile := Paths.Join(job.directory, base + "." + ext);
      if ext !in job.formats then Step([], cwd, Some(KeyError))
      else
        var data := job.formats[ext];
        if !data.Object? then Step([], cwd, Some(AttributeError))
        else
          var converter := Get(data.fields, "module", Bool(false));
          if Truthy(converter) then Step([CustomConvert(converter, outputFile)], cwd, None)
          else
            var frontMatter := ParseFrontMatter(job.text, job.env.yaml);
            if "extra_args" !in data.fields then Step([], cwd, Some(KeyError))
            else
              var to := Get(data.fields, "to", Str(ext));
              var o := ExtraArgsOverride(frontMatter);
              if o.OverrideRaised? then Step([], cwd, Some(o.error))
              else
                var args := ExtraArgs(job, data, o);
                var call := Pandoc(job.text, to, args, outputFile);
                if job.env.pandocSucceeds(job.text, to, args, outputFile) then
                  Step([ChangeDir(job.featureDir), call, ChangeDir(cwd)], cwd, None)
                else
                  Step([ChangeDir(job.featureDir), call, ConversionFailed(outputFile)], job.featureDir, None)
  }

  /**
   * A format that is converted without an exception has exactly one
   * conversion, to its output path; through pandoc when it names no
   * `module`, with the front matter's `extra_args` when the front matter
   * holds some and the format's own otherwise.
   */
  lemma ConvertOneOutput(job: Job, ext: string, cwd: string)
    requires ConvertOne(job, ext, cwd).error.None?
    ensures Outputs(ConvertOne(job, ext, cwd).effects) == [OutputPath(job, ext)]
    ensures var data := job.formats[ext];
      !Truthy(Get(data.fields, "module", Bool(false))) ==>
        && "extra_args" in data.fields
        && var o := ExtraArgsOverride(ParseFrontMatter(job.text, job.env.yaml));
        && !o.OverrideRaised?
        && Pandoc(job.text, Get(data.fields, "to", Str(ext)), ExtraArgs(job, data, o), OutputPath(job, ext))
             in ConvertOne(job, ext, cwd).effects
    ensures var data := job.formats[ext];
      Truthy(Get(data.fields, "module", Bool(false))) ==>
        ConvertOne(job, ext, cwd).effects == [CustomConvert(Get(data.fields, "module", Bool(false)), OutputPath(job, ext))]
  {
    var es := ConvertOne(job, ext, cwd).effects;
    if |es| == 3 {
      assert es[1..][1..][1..] == [];
      assert Outputs(es[1..][1..]) == [];
      assert Outputs(es[1..]) == OutputOf(es[1]);
    } else {
      assert es[1..] == [];
    }
  }

  /** The steps for the formats in order, stopping at the first exception. */
  function ConvertAll(job: Job, exts: seq<string>, cwd: string): Step
    decreases |exts|
  {
    if exts == [] then Step([], cwd, None)
    else
      var first := ConvertOne(job, exts[0], cwd);
      if first.error.Some? then first
      else
        var rest := ConvertAll(job, exts[1..], first.cwd);
        Step(first.effects + rest.effects, rest.cwd, rest.error)
  }

  /** `ConvertAll` on a non-empty list: the first format's step, then the rest unless it raised. */
  lemma ConvertAllCons(job: Job, exts: seq<string>, cwd: string)
    requires exts != []
    ensures var first := ConvertOne(job, exts[0], cwd);
      ConvertAll(job, exts, cwd) ==
        if first.error.Some? then first
        else Step(first.effects + ConvertAll(job, exts[1..], first.cwd).effects,
                  ConvertAll(job, exts[1..], first.cwd).cwd, ConvertAll(job, exts[1..], first.cwd).error)
  {
  }

  /** One turn of the conversion loop: the step for the format at `i` extends the effects so far. */
  lemma ConvertAllAdvance(job: Job, formats: seq<string>, cwd: string, i: nat, effects: seq<Effect>, current: string)
    requires i < |formats|
    requires var rest := ConvertAll(job, formats[i..], current);
      ConvertAll(job, formats, cwd) == Step(effects + rest.effects, rest.cwd, rest.error)
    ensures var st := ConvertOne(job, formats[i], current);
      && (st.error.Some? ==> ConvertAll(job, formats, cwd) == Step(effects + st.effects, st.cwd, st.error))
      && (st.error.None? ==>
            var rest := ConvertAll(job, formats[i + 1..], st.cwd);
            ConvertAll(job, formats, cwd) == Step((effects + st.effects) + rest.effects, rest.cwd, rest.error))
  {
    assert formats[i..][0] == formats[i] && formats[i..][1..] == formats[i + 1..];
    ConvertAllCons(job, formats[i..], current);
    var st := ConvertOne(job, formats[i], current);
    var rest := ConvertAll(job, formats[i + 1..], st.cwd);
    assert effects + (st.effects + rest.effects) == (effects + st.effects) + rest.effects;
  }

  /** Converting never creates directories and never writes the fallback file. */
  lemma {:induction false} ConvertAllWritesNoFallback(job: Job, exts: seq<string>, cwd: string)
    ensures NoWrites(ConvertAll(job, exts, cwd).effects)
    decreases |exts|
  {
    if exts != [] {
      var first := ConvertOne(job, exts[0], cwd);
      if first.error.None? {
        var rest := ConvertAll(job, exts[1..], first.cwd);
        ConvertAllWritesNoFallback(job, exts[1..], first.cwd);
        var all := first.effects + rest.effects;
        forall i | 0 <= i < |all| ensures !all[i].WriteFile? && !all[i].MakeDirs? {
          if i >= |first.effects| {
            assert all[i] == rest.effects[i - |first.effects|];
          }
        }
      }
    }
  }

  /**
   * When no exception ends the loop, one conversion per resolved format is
   * issued, in order, each to the directory joined with the rendered base
   * name and `"." + ext`.
   */
  lemma {:induction false} ConvertAllOutputs(job: Job, exts: seq<string>, cwd: string)
    requires exts != [] && ConvertAll(job, exts, cwd).error.None?
    ensures BaseName(job).Rendered?
    ensures Outputs(ConvertAll(job, exts, cwd).effects) == seq(|exts|, i requires 0 <= i < |exts| => OutputPath(job, exts[i]))
    decreases |exts|
  {
    ConvertAllCons(job, exts, cwd);
    var first := ConvertOne(job, exts[0], cwd);
    var rest := ConvertAll(job, exts[1..], first.cwd);
    ConvertOneOutput(job, exts[0], cwd);
    OutputsAppend(first.effects, rest.effects);
    if |exts| > 1 {
      ConvertAllOutputs(job, exts[1..], first.cwd);
      OutputPathsCons(job, exts);
    } else {
      assert rest.effects == [];
    }
  }

  /** The output paths of a non-empty list of formats: the first format's, then the rest's. */
  lemma OutputPathsCons(job: Job, exts: seq<string>)
    requires exts != [] && BaseName(job).Rendered?
    ensures seq(|exts|, i requires 0 <= i < |exts| => OutputPath(job, exts[i]))
         == [OutputPath(job, exts[0])] + seq(|exts| - 1, i requires 0 <= i < |exts| - 1 => OutputPath(job, exts[1..][i]))
  {
    var want := seq(|exts|, i requires 0 <= i < |exts| => OutputPath(job, exts[i]));
    var tail := seq(|exts| - 1, i requires 0 <= i < |exts| - 1 => OutputPath(job, exts[1..][i]));
    forall i | 0 <= i < |exts| ensures want[i] == ([OutputPath(job, exts[0])] + tail)[i] {
      if i > 0 {
        assert exts[1..][i - 1] == exts[i];
      }
    }
  }

  predicate AnyConversionFailed(effects: seq<Effect>) {
    exists i :: 0 <= i < |effects| && effects[i].ConversionFailed?
  }

  /** Once the working directory is the feature's directory, converting keeps it there. */
  lemma {:induction false} FeatureDirSticks(job: Job, exts: seq<string>)
    ensures ConvertAll(job, exts, job.featureDir).cwd == job.featureDir
    decreases |exts|
  {
    if exts != [] {
      var first := ConvertOne(job, exts[0], job.featureDir);
      if first.error.None? {
        FeatureDirSticks(job, exts[1..]);
      }
    }
  }

  /**
   * The working directory is restored only when every pandoc call returned:
   * after a failed conversion the process stays in the feature's directory.
   */
  lemma {:induction false} CwdAfterConversions(job: Job, exts: seq<string>, cwd: string)
    ensures var st := ConvertAll(job, exts, cwd);
      st.cwd == (if AnyConversionFailed(st.effects) then job.featureDir else cwd)
    decreases |exts|
  {
    if exts != [] {
      var first := ConvertOne(job, exts[0], cwd);
      if first.error.None? {
        var rest := ConvertAll(job, exts[1..], first.cwd);
        var all := first.effects + rest.effects;
        if first.cwd == cwd {
          CwdAfterConversions(job, exts[1..], cwd);
          if AnyConversionFailed(all) {
            var i :| 0 <= i < |all| && all[i].ConversionFailed?;
            if i < |first.effects| {
              // a failed conversion leaves the feature directory as the working directory
              FeatureDirSticks(job, exts[1..]);
            } else {
              assert rest.effects[i - |first.effects|].ConversionFailed?;
            }
          } else {
            assert !AnyConversionFailed(rest.effects) by {
              forall i | 0 <= i < |rest.effects| ensures !rest.effects[i].ConversionFailed? {
                assert all[i + |first.effects|] == rest.effects[i];
              }
            }
          }
        } else {
          FeatureDirSticks(job, exts[1..]);
          var k :| 0 <= k < |first.effects| && first.effects[k] == ConversionFailed(OutputPath(job, exts[0]));
          assert all[k].ConversionFailed?;
        }
      }
    }
  }


  // ---------------------------------------------------------------- write_text

  /** The configured `formats` dict, `{}` when absent. */
  function FormatsOf(settings: map<string, Value>): Value {
    Get(settings, "formats", Object([], map[]))
  }

  /** The names of the configured formats, in configuration order. */
  function KnownFormats(settings: map<string, Value>): seq<string> {
    var f := FormatsOf(settings);
    if f.Object? then f.keys else []
  }

  function FormatFields(settings: map<string, Value>): map<string, Value> {
    var f := FormatsOf(settings);
    if f.Object? then f.fields else map[]
  }

  function DefaultsOf(settings: map<string, Value>): seq<Value> {
    var d := Get(settings, "default_formats", Array([]));
    if d.Array? then d.items else []
  }

  /** The formats `write_text` resolves for these tags under these settings. */
  function FormatsFor(tags: seq<string>, settings: map<string, Value>): seq<string> {
    ResolveFormats(tags, KnownFormats(settings), DefaultsOf(settings))
  }

  function PathContext(filename: string, featureName: string, scenarioName: string): RenderContext {
    map["filename" := Str(Paths.Basename(filename)), "feature" := Str(featureName), "scenario" := Str(scenarioName)]
  }

  /** The absolute directory of the feature file, resolved in the working directory `cwd`. */
  function FeatureDir(filename: string, env: Env, cwd: string): (r: string)
    ensures '/' !in filename ==> r == env.abspath(cwd, "")
  {
    env.abspath(cwd, Paths.Dirname(filename))
  }

  /** The rendered `report_dir` setting. */
  function ReportDir(filename: string, featureName: string, scenarioName: string, settings: map<string, Value>, env: Env): Rendered {
    RenderSource(env, Get(settings, "report_dir", Str("reports")), PathContext(filename, featureName, scenarioName))
  }

  /** The report directory: the feature's directory joined with the rendered `report_dir`. */
  function ReportDirectory(filename: string, featureName: string, scenarioName: string, settings: map<string, Value>, env: Env, cwd: string): (r: string)
    requires ReportDir(filename, featureName, scenarioName, settings, env).Rendered?
    ensures var d := ReportDir(filename, featureName, scenarioName, settings, env).text;
      && (d != [] && d[0] == '/' ==> r == d)
      && (!(d != [] && d[0] == '/') ==> StartsWith(r, FeatureDir(filename, env, cwd)) && |d| <= |r| && r[|r| - |d|..] == d)
  {
    Paths.Join(FeatureDir(filename, env, cwd), ReportDir(filename, featureName, scenarioName, settings, env).text)
  }

  function JobFor(text: string, filename: string, featureName: string, scenarioName: string,
                  settings: map<string, Value>, env: Env, cwd: string): Job
    requires ReportDir(filename, featureName, scenarioName, settings, env).Rendered?
  {
    Job(text, FeatureDir(filename, env, cwd), ReportDirectory(filename, featureName, scenarioName, settings, env, cwd),
        Get(settings, "report_file_basename", Str("{{scenario}}")),
        PathContext(filename, featureName, scenarioName),
        FormatFields(settings), env)
  }

  /** The fallback file written when no format was resolved: the stripped text in `<scenario>.md`. */
  function FallbackFile(text: string, filename: string, featureName: string, scenarioName: string,
                        settings: map<string, Value>, env: Env, cwd: string): Effect
    requires ReportDir(filename, featureName, scenarioName, settings, env).Rendered?
  {
    WriteFile(Paths.Join(ReportDirectory(filename, featureName, scenarioName, settings, env, cwd), scenarioName + ".md"), Strip(text))
  }

  /** The effects of a `write_text` call in order, how it ends, and the working directory it leaves. */
  datatype Plan = Plan(effects: seq<Effect>, status: Status, cwd: string)

  /**
   * The part of `write_text` after the report directory is known: create
   * it, convert each resolved format, and write `fallback` when no format
   * was resolved.
   */
  function Emit(job: Job, formats: seq<string>, cwd: string, fallback: Effect): (p: Plan)
    ensures !p.status.WriteExited?
  {
    var st := ConvertAll(job, formats, cwd);
    Plan([MakeDirs(job.directory)] + st.effects + (if formats == [] then [fallback] else []),
         if st.error.Some? then WriteRaised(st.error.value) else Finished,
         st.cwd)
  }

  /**
   * What `write_text(text, filename, feature_name, scenario_name, tags)`
   * does under the stored `settings` when started in `cwd`: nothing for an
   * empty text; an exit when the settings are invalid; otherwise the report
   * directory is created, each resolved format is converted, and the
   * fallback file is written when no format was resolved.
   */
  function WritePlan(text: string, filename: string, featureName: string, scenarioName: string,
                     tags: seq<string>, settings: map<string, Value>, env: Env, cwd: string): (p: Plan)
    ensures text == "" ==> p == Plan([], Finished, cwd)
    ensures p.status.WriteExited? <==> text != "" && !Settings.Valid(settings)
    ensures p.status.WriteExited? ==> p == Plan([], WriteExited(Settings.InvalidMessage), cwd)
  {
    if text == "" then Plan([], Finished, cwd)
    else if !Settings.Valid(settings) then Plan([], WriteExited(Settings.InvalidMessage), cwd)
    else if ReportDir(filename, featureName, scenarioName, settings, env).RenderRaised? then
      Plan([], WriteRaised(TemplateError), cwd)
    else
      Emit(JobFor(text, filename, featureName, scenarioName, settings, env, cwd), FormatsFor(tags, settings), cwd,
           FallbackFile(text, filename, featureName, scenarioName, settings, env, cwd))
  }

  /** The loop of `write_text` over the resolved formats, stopping at the first exception. */
  method ConvertFormats(job: Job, formats: seq<string>, cwd: string)
    returns (effects: seq<Effect>, error: Option<PyError>, finalCwd: string)
    ensures Step(effects, finalCwd, error) == ConvertAll(job, formats, cwd)
  {
    effects, error, finalCwd := [], None, cwd;
    var i := 0;
    while i < |formats|
      invariant 0 <= i <= |formats|
      invariant var rest := ConvertAll(job, formats[i..], finalCwd);
        ConvertAll(job, formats, cwd) == Step(effects + rest.effects, rest.cwd, rest.error)
    {
      var st := ConvertOne(job, formats[i], finalCwd);
      ConvertAllAdvance(job, formats, cwd, i, effects, finalCwd);
      effects, finalCwd := effects + st.effects, st.cwd;
      if st.error.Some? {
        error := st.error;
        return;
      }
      i := i + 1;
    }
    assert formats[i..] == [];
  }

  /** `write_text`: validation, the report directory, the resolution of the formats, and the loop over them. */
  method WriteText(text: string, filename: string, featureName: string, scenarioName: string,
                   tags: seq<string>, settings: map<string, Value>, env: Env, cwd: string)
    returns (effects: seq<Effect>, status: Status, finalCwd: string)
    ensures Plan(effects, status, finalCwd) == WritePlan(text, filename, featureName, scenarioName, tags, settings, env, cwd)
  {
    effects, status, finalCwd := [], Finished, cwd;
    if |text| == 0 {
      return;
    }
    if !Settings.Valid(settings) {
      status := WriteExited(Settings.InvalidMessage);
      return;
    }
    var featureDir := env.abspath(cwd, Paths.Dirname(filename));
    var pathContext := PathContext(filename, featureName, scenarioName);
    var reportDir := RenderSource(env, Get(settings, "report_dir", Str("reports")), pathContext);
    if reportDir.RenderRaised? {
      status := WriteRaised(TemplateError);
      return;
    }
    var directory := Paths.Join(featureDir, reportDir.text);
    var formats := SelectFormats(tags, KnownFormats(settings), DefaultsOf(settings));
    var job := Job(text, featureDir, directory, Get(settings, "report_file_basename", Str("{{scenario}}")),
                   pathContext, FormatFields(settings), env);
    assert job == JobFor(text, filename, featureName, scenarioName, settings, env, cwd);
    var converted, error;
    converted, error, finalCwd := ConvertFormats(job, formats, cwd);
    ghost var st := ConvertAll(job, formats, cwd);
    assert converted == st.effects && error == st.error && finalCwd == st.cwd;
    status := if error.Some? then WriteRaised(error.value) else Finished;
    var fallback := WriteFile(Paths.Join(directory, scenarioName + ".md"), Strip(text));
    var tail := if |formats| == 0 then [fallback] else [];
    effects := [MakeDirs(directory)] + converted + tail;
    assert fallback == FallbackFile(text, filename, featureName, scenarioName, settings, env, cwd);
    assert Plan(effects, status, finalCwd) == Emit(job, formats, cwd, fallback);
  }

  predicate WritesFile(effects: seq<Effect>) {
    exists i :: 0 <= i < |effects| && effects[i].WriteFile?
  }

  lemma EmitFallback(job: Job, formats: seq<string>, cwd: string, fallback: Effect)
    requires fallback.WriteFile?
    ensures var p := Emit(job, formats, cwd, fallback);
      && (WritesFile(p.effects) <==> formats == [])
      && (formats == [] ==> p.effects[|p.effects| - 1] == fallback)
  {
    var p := Emit(job, formats, cwd, fallback);
    var st := ConvertAll(job, formats, cwd);
    ConvertAllWritesNoFallback(job, formats, cwd);
    var head := [MakeDirs(job.directory)] + st.effects;
    assert !WritesFile(head) by {
      forall i | 0 <= i < |head| ensures !head[i].WriteFile? {
        if i > 0 { assert head[i] == st.effects[i - 1]; }
      }
    }
    if formats == [] {
      assert p.effects[|p.effects| - 1].WriteFile?;
    } else {
      assert p.effects == head;
    }
  }

  /**
   * A file is written directly exactly when the text is non-empty, the
   * settings are valid, the report directory renders and no format is
   * resolved; it is then the last effect, and holds the stripped text in
   * `<scenario>.md` under the report directory.
   */
  lemma FallbackIff(text: string, filename: string, featureName: string, scenarioName: string,
                    tags: seq<string>, settings: map<string, Value>, env: Env, cwd: string)
    ensures var p := WritePlan(text, filename, featureName, scenarioName, tags, settings, env, cwd);
      WritesFile(p.effects) <==>
        && text != "" && Settings.Valid(settings)
        && ReportDir(filename, featureName, scenarioName, settings, env).Rendered?
        && FormatsFor(tags, settings) == []
    ensures var p := WritePlan(text, filename, featureName, scenarioName, tags, settings, env, cwd);
      WritesFile(p.effects) ==>
        p.effects[|p.effects| - 1] == WriteFile(
          Paths.Join(ReportDirectory(filename, featureName, scenarioName, settings, env, cwd), scenarioName + ".md"), Strip(text))
  {
    if text != "" && Settings.Valid(settings) && ReportDir(filename, featureName, scenarioName, settings, env).Rendered? {
      EmitFallback(JobFor(text, filename, featureName, scenarioName, settings, env, cwd), FormatsFor(tags, settings), cwd,
                   FallbackFile(text, filename, featureName, scenarioName, settings, env, cwd));
    }
  }

  lemma EmitOutputs(job: Job, formats: seq<string>, cwd: string, fallback: Effect)
    requires formats != [] && Emit(job, formats, cwd, fallback).status == Finished
    ensures var p := Emit(job, formats, cwd, fallback);
      && p.effects[0] == MakeDirs(job.directory)
      && BaseName(job).Rendered?
      && Outputs(p.effects) == seq(|formats|, i requires 0 <= i < |formats| => OutputPath(job, formats[i]))
  {
    var st := ConvertAll(job, formats, cwd);
    ConvertAllOutputs(job, formats, cwd);
    var d := [MakeDirs(job.directory)];
    assert Emit(job, formats, cwd, fallback).effects == d + st.effects;
    OutputsAppend(d, st.effects);
    assert Outputs(d) == [] by { assert d[1..] == []; }
  }

  /**
   * When no exception ends `write_text` and some format is resolved, the
   * report directory is created first, then one conversion per resolved
   * format is issued, in the resolved order.
   */
  lemma WriteOutputs(text: string, filename: string, featureName: string, scenarioName: string,
                     tags: seq<string>, settings: map<string, Value>, env: Env, cwd: string)
    requires text != "" && Settings.Valid(settings)
    requires ReportDir(filename, featureName, scenarioName, settings, env).Rendered?
    requires FormatsFor(tags, settings) != []
    requires WritePlan(text, filename, featureName, scenarioName, tags, settings, env, cwd).status == Finished
    ensures var p := WritePlan(text, filename, featureName, scenarioName, tags, settings, env, cwd);
      var formats := FormatsFor(tags, settings);
      var job := JobFor(text, filename, featureName, scenarioName, settings, env, cwd);
      && p.effects[0] == MakeDirs(ReportDirectory(filename, featureName, scenarioName, settings, env, cwd))
      && BaseName(job).Rendered?
      && Outputs(p.effects) == seq(|formats|, i requires 0 <= i < |formats| => OutputPath(job, formats[i]))
  {
    EmitOutputs(JobFor(text, filename, featureName, scenarioName, settings, env, cwd), FormatsFor(tags, settings), cwd,
                FallbackFile(text, filename, featureName, scenarioName, settings, env, cwd));
  }

  lemma EmitCwd(job: Job, formats: seq<string>, cwd: string, fallback: Effect)
    requires !fallback.ConversionFailed?
    ensures var p := Emit(job, formats, cwd, fallback);
      p.cwd == (if AnyConversionFailed(p.effects) then job.featureDir else cwd)
  {
    var p := Emit(job, formats, cwd, fallback);
    var st := ConvertAll(job, formats, cwd);
    CwdAfterConversions(job, formats, cwd);
    if AnyConversionFailed(st.effects) {
      var i :| 0 <= i < |st.effects| && st.effects[i].ConversionFailed?;
      assert p.effects[i + 1] == st.effects[i];
    }
  }

  /**
   * The working directory `write_text` leaves: the one it started in,
   * unless a pandoc conversion failed, which leaves the feature's directory.
   */
  lemma WriteLeavesCwd(text: string, filename: string, featureName: string, scenarioName: string,
                       tags: seq<string>, settings: map<string, Value>, env: Env, cwd: string)
    ensures var p := WritePlan(text, filename, featureName, scenarioName, tags, settings, env, cwd);
      p.cwd == (if AnyConversionFailed(p.effects) then FeatureDir(filename, env, cwd) else cwd)
  {
    if text != "" && Settings.Valid(settings) && ReportDir(filename, featureName, scenarioName, settings, env).Rendered? {
      EmitCwd(JobFor(text, filename, featureName, scenarioName, settings, env, cwd), FormatsFor(tags, settings), cwd,
              FallbackFile(text, filename, featureName, scenarioName, settings, env, cwd));
    }
  }

  /**
   * After a write whose pandoc run failed, the working directory is the
   * feature's directory, so the next write resolves its feature file's
   * directory relative to it rather than to the directory the first write
   * started in; after any other write it resolves it as before.
   */
  lemma NextWriteResolvedInFeatureDir(text: string, filename: string, featureName: string, scenarioName: string,
                                      tags: seq<string>, settings: map<string, Value>, env: Env, cwd: string,
                                      nextFilename: string)
    ensures var p := WritePlan(text, filename, featureName, scenarioName, tags, settings, env, cwd);
      FeatureDir(nextFilename, env, p.cwd) ==
        if AnyConversionFailed(p.effects) then env.abspath(FeatureDir(filename, env, cwd), Paths.Dirname(nextFilename))
        else FeatureDir(nextFilename, env, cwd)
  {
    WriteLeavesCwd(text, filename, featureName, scenarioName, tags, settings, env, cwd);
  }

  /** Untagged reports under the initial settings are written as `docx` and then `txt`. */
  lemma InitialSettingsFormats()
    ensures FormatsFor([], Settings.InitialSettings()) == ["docx", "txt"]
  {
    var s := Settings.InitialSettings();
    assert KnownFormats(s) == ["docx", "pptx", "html", "md", "txt"];
    assert DefaultsOf(s) == [Str("docx"), Str("txt")];
    assert LowerAll([]) == [];
    var p := (e: string) => TagSelects([], e);
    assert Filter(p, []) == [];
    assert Filter(p, ["txt"]) == [];
    assert Filter(p, ["md", "txt"]) == [];
    assert Filter(p, ["html", "md", "txt"]) == [];
    assert Filter(p, ["pptx", "html", "md", "txt"]) == [];
    var ds := [Str("docx"), Str("txt")];
    assert ds[1..] == [Str("txt")];
    assert KnownDefaults([Str("txt")][1..], KnownFormats(s)) == [];
  }
  /** A write whose first conversion raises leaves only the report directory behind, in the same working directory. */
  lemma ConversionRaises(text: string, filename: string, featureName: string, scenarioName: string,
                         tags: seq<string>, settings: map<string, Value>, env: Env, cwd: string, e: PyError)
    requires text != "" && Settings.Valid(settings)
    requires ReportDir(filename, featureName, scenarioName, settings, env).Rendered?
    requires ConvertAll(JobFor(text, filename, featureName, scenarioName, settings, env, cwd), FormatsFor(tags, settings), cwd)
      == Step([], cwd, Some(e))
    ensures WritePlan(text, filename, featureName, scenarioName, tags, settings, env, cwd)
      == Plan([MakeDirs(ReportDirectory(filename, featureName, scenarioName, settings, env, cwd))], WriteRaised(e), cwd)
  {
    var job := JobFor(text, filename, featureName, scenarioName, settings, env, cwd);
    var formats := FormatsFor(tags, settings);
    var fallback := FallbackFile(text, filename, featureName, scenarioName, settings, env, cwd);
    assert WritePlan(text, filename, featureName, scenarioName, tags, settings, env, cwd) == Emit(job, formats, cwd, fallback);
    assert formats != [];
    assert [MakeDirs(job.directory)] + [] + [] == [MakeDirs(job.directory)];
  }

  /** A tag naming the only configured format, `x-y`, selects it. */
  lemma OnlyFormatSelected(settings: map<string, Value>)
    requires KnownFormats(settings) == ["x-y"]
    ensures FormatsFor(["x-y"], settings) == ["x-y"]
  {
    assert Lower("x-y") == "x-y";
    var sel := (e: string) => TagSelects(LowerAll(["x-y"]), e);
    assert Filter(sel, ["x-y"][1..]) == [];
  }

  /** Converting to `x-y`, whose descriptor is not a dict, raises before any effect. */
  lemma NonDictConversionRaises(job: Job, cwd: string)
    requires BaseName(job).Rendered? && job.formats == map["x-y" := Int(5)]
    ensures ConvertAll(job, ["x-y"], cwd) == Step([], cwd, Some(AttributeError))
  {
    assert ConvertOne(job, "x-y", cwd) == Step([], cwd, Some(AttributeError));
  }

  /**
   * A `formats` entry whose name the schema's pattern does not cover may be
   * any value; when a tag selects such an entry that is not a dict,
   * `write_text` raises an `AttributeError` once the report directory
   * exists, before converting anything.
   */
  lemma NonDictFormatRaises(text: string, filename: string, featureName: string, scenarioName: string,
                            settings: map<string, Value>, env: Env, cwd: string)
    requires text != "" && Settings.Valid(settings)
    requires FormatsOf(settings) == Object(["x-y"], map["x-y" := Int(5)])
    requires ReportDir(filename, featureName, scenarioName, settings, env).Rendered?
    requires RenderSource(env, Get(settings, "report_file_basename", Str("{{scenario}}")),
                          PathContext(filename, featureName, scenarioName)).Rendered?
    ensures var p := WritePlan(text, filename, featureName, scenarioName, ["x-y"], settings, env, cwd);
      && p.status == WriteRaised(AttributeError)
      && p.effects == [MakeDirs(ReportDirectory(filename, featureName, scenarioName, settings, env, cwd))]
      && p.cwd == cwd
  {
    OnlyFormatSelected(settings);
    var job := JobFor(text, filename, featureName, scenarioName, settings, env, cwd);
    assert job.formats == map["x-y" := Int(5)] && BaseName(job).Rendered?;
    NonDictConversionRaises(job, cwd);
    ConversionRaises(text, filename, featureName, scenarioName, ["x-y"], settings, env, cwd, AttributeError);
  }
}
