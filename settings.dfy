/**
 * The settings store of `bddreporting/config.py`: a process-wide mapping
 * from option names to values, its default contents, the JSON schema it
 * is checked against (written out as a predicate), and the `update`,
 * `get` and `all` operations, each of which validates the whole mapping
 * and exits the process when it does not satisfy the schema.
 */
module Settings {
  import opened Values

  /** The message `sys.exit` is given when validation fails (jsonschema's own error text is not modelled). */
  const InvalidMessage := "Invalid settings. Exiting the behave test runner. Validation Error: "

  /** The ten keys the schema declares under "properties". */
  const Properties: set<string> := {
    "report_tag", "report_dir", "report_file_basename", "process_gherkin_doc_string",
    "scenario_header", "feature_header", "export_scenario", "halt_execution_on_failure",
    "default_formats", "formats"
  }

  /** The seven keys the schema lists under "required". */
  const Required: set<string> := {
    "report_tag", "report_dir", "process_gherkin_doc_string", "scenario_header",
    "halt_execution_on_failure", "default_formats", "formats"
  }

  predicate IsWordChar(c: char) {
    'a' <= c <= 'z' || 'A' <= c <= 'Z' || '0' <= c <= '9' || c == '_'
  }

  predicate AllWordChars(s: string) {
    forall k :: 0 <= k < |s| ==> IsWordChar(s[k])
  }

  /**
   * `re.search("^[a-zA-Z0-9_]+$", s)` succeeds. Python's `$` also matches
   * just before a newline that ends the string.
   */
  predicate MatchesPattern(s: string) {
    (s != "" && AllWordChars(s))
    || (|s| >= 2 && s[|s| - 1] == '\n' && AllWordChars(s[..|s| - 1]))
  }

  /** The schema's constraint on the value of one top-level key; `false` for an undeclared key. */
  predicate PropertyOk(key: string, v: Value) {
    match key
    case "report_tag" => v.Str? || v.Null?
    case "report_dir" => v.Str?
    case "report_file_basename" => v.Str?
    case "process_gherkin_doc_string" => v.Bool?
    case "scenario_header" => v.Str? || v.Bool? || v.Null?
    case "feature_header" => v.Str? || v.Bool? || v.Null?
    case "export_scenario" => v.Bool?
    case "halt_execution_on_failure" => v.Bool?
    case "default_formats" =>
      v.Array? && forall i :: 0 <= i < |v.items| ==> v.items[i].Str? && MatchesPattern(v.items[i].s)
    case "formats" =>
      IsDict(v) && forall k :: k in v.fields && MatchesPattern(k) ==> v.fields[k].Object?
    case _ => false
  }

  /** The settings satisfy the schema: every required key is present and every key present is declared and well typed. */
  predicate Valid(s: map<string, Value>) {
    && Required <= s.Keys
    && forall k {:trigger PropertyOk(k, s[k])} :: k in s ==> PropertyOk(k, s[k])
  }

  /** What validity gives the hooks: only declared keys, and the required ones with the type the schema demands. */
  lemma ValidShape(s: map<string, Value>)
    requires Valid(s)
    ensures Required <= s.Keys <= Properties
    ensures IsDict(s["formats"]) && s["default_formats"].Array? && s["report_dir"].Str?
    ensures s["process_gherkin_doc_string"].Bool? && s["halt_execution_on_failure"].Bool?
  {
    forall k | k in s ensures k in Properties {
      assert PropertyOk(k, s[k]);
    }
    assert PropertyOk("formats", s["formats"]);
    assert PropertyOk("default_formats", s["default_formats"]);
    assert PropertyOk("report_dir", s["report_dir"]);
    assert PropertyOk("process_gherkin_doc_string", s["process_gherkin_doc_string"]);
    assert PropertyOk("halt_execution_on_failure", s["halt_execution_on_failure"]);
  }

  /** A format descriptor holding only `extra_args`. */
  function FormatArgs(args: seq<Value>): Value {
    Object(["extra_args"], map["extra_args" := Array(args)])
  }

  /** The `formats` dict `Config._settings` starts with. */
  function DefaultFormats(): Value {
    Object(
      ["docx", "pptx", "html", "md", "txt"],
      map[
        "docx" := FormatArgs([Str("--toc")]),
        "pptx" := FormatArgs([Str("--toc")]),
        "html" := FormatArgs([]),
        "md" := FormatArgs([]),
        "txt" := Object(["to", "extra_args"], map["to" := Str("plain"), "extra_args" := Array([])])
      ])
  }

  /** The mapping `Config._settings` starts with. */
  function InitialSettings(): map<string, Value> {
    map[
      "report_tag" := Null,
      "report_dir" := Str("reports/{{filename}}/"),
      "report_file_basename" := Str("{{scenario}}"),
      "process_gherkin_doc_string" := Bool(true),
      "scenario_header" := Str("## {{scenario}}\n\n"),
      "feature_header" := Str("# {{feature}}\n\n"),
      "export_scenario" := Bool(false),
      "halt_execution_on_failure" := Bool(false),
      "default_formats" := Array([Str("docx"), Str("txt")]),
      "formats" := DefaultFormats()
    ]
  }

  /** The result of an operation that validates first: a value, or the process exits. */
  datatype Outcome<+T> = Returned(value: T) | Exited(message: string)

  /** The settings store. `settings` is the class attribute `Config._settings`. */
  class Config {
    var settings: map<string, Value>

    constructor ()
      ensures settings == InitialSettings()
    {
      settings := InitialSettings();
    }

    /**
     * `Config.update(**kwargs)`: merges `kwargs` into the stored mapping in
     * place, THEN validates. A merge that breaks the schema stays stored
     * when the process exits.
     */
    method Update(kwargs: map<string, Value>) returns (out: Outcome<()>)
      modifies this
      ensures settings == old(settings) + kwargs
      ensures forall k :: k in kwargs ==> settings[k] == kwargs[k]
      ensures forall k :: k in old(settings) && k !in kwargs ==> settings[k] == old(settings)[k]
      ensures out == if Valid(settings) then Returned(()) else Exited(InvalidMessage)
    {
      settings := settings + kwargs;
      out := if Valid(settings) then Returned(()) else Exited(InvalidMessage);
    }

    /** `Config.get(key, default)`: validates, then looks the key up. */
    method Get(key: string, default: Value) returns (out: Outcome<Value>)
      ensures out.Returned? <==> Valid(settings)
      ensures out.Exited? ==> out.message == InvalidMessage
      ensures out.Returned? && key in settings ==> out.value == settings[key]
      ensures out.Returned? && key !in settings ==> out.value == default
    {
      if !Valid(settings) {
        return Exited(InvalidMessage);
      }
      out := Returned(Values.Get(settings, key, default));
    }

    /** `Config.all()`: validates, then returns the whole mapping. */
    method All() returns (out: Outcome<map<string, Value>>)
      ensures out.Returned? <==> Valid(settings)
      ensures out.Exited? ==> out.message == InvalidMessage
      ensures out.Returned? ==> out.value == settings
    {
      if !Valid(settings) {
        return Exited(InvalidMessage);
      }
      out := Returned(settings);
    }
  }

  /** The settings the store starts with satisfy the schema. */
  lemma DefaultFormatsOk()
    ensures PropertyOk("formats", DefaultFormats())
  {
    var f := DefaultFormats();
    assert IsDict(f);
    forall k | k in f.fields ensures f.fields[k].Object? {
      assert k in f.keys;
    }
  }

  /** The settings the store starts with satisfy the schema. */
  lemma InitialSettingsValid()
    ensures Valid(InitialSettings())
  {
    var s := InitialSettings();
    assert AllWordChars("docx") && AllWordChars("txt");
    assert PropertyOk("default_formats", s["default_formats"]);
    DefaultFormatsOk();
    forall k | k in s ensures PropertyOk(k, s[k]) {
      if k == "formats" {
      } else if k == "default_formats" {
      } else {
        assert k in {"report_tag", "report_dir", "report_file_basename", "process_gherkin_doc_string",
          "scenario_header", "feature_header", "export_scenario", "halt_execution_on_failure"};
      }
    }
  }

  /**
   * On valid settings, an update stays valid exactly when every value it
   * supplies is allowed for its key: `update` never removes a key, so only
   * the supplied entries can break the schema.
   */
  lemma UpdateValidIff(s: map<string, Value>, kwargs: map<string, Value>)
    requires Valid(s)
    ensures Valid(s + kwargs) <==> forall k :: k in kwargs ==> PropertyOk(k, kwargs[k])
  {
    var t := s + kwargs;
    if forall k :: k in kwargs ==> PropertyOk(k, kwargs[k]) {
      forall k | k in t ensures PropertyOk(k, t[k]) {
        if k !in kwargs { assert t[k] == s[k]; }
      }
    } else {
      var k :| k in kwargs && !PropertyOk(k, kwargs[k]);
      assert t[k] == kwargs[k];
    }
  }

  /** Storing one value the schema accepts keeps valid settings valid. */
  lemma UpdateOneValid(s: map<string, Value>, key: string, v: Value)
    requires Valid(s) && PropertyOk(key, v)
    ensures Valid(s[key := v])
  {
    var t := s[key := v];
    forall k | k in t ensures PropertyOk(k, t[k]) {
      if k != key { assert t[k] == s[k]; }
    }
  }

  /** Any key outside the ten declared properties makes the settings invalid. */
  lemma UndeclaredKeyInvalid(s: map<string, Value>, key: string, v: Value)
    requires key !in Properties
    ensures !Valid(s[key := v])
  {
    var t := s[key := v];
    assert t[key] == v && !PropertyOk(key, t[key]);
  }

  /** Removing one of the seven required keys makes the settings invalid. */
  lemma MissingRequiredInvalid(s: map<string, Value>, key: string)
    requires key in Required
    ensures !Valid(s - {key})
  {
  }

  /** On valid settings, reading a required key returns the stored value whatever the default. */
  lemma GetRequiredIgnoresDefault(s: map<string, Value>, key: string, d1: Value, d2: Value)
    requires Valid(s) && key in Required
    ensures Get(s, key, d1) == Get(s, key, d2) == s[key]
  {
  }

  /**
   * The schema does not tie `default_formats` to the keys of `formats`:
   * naming an unconfigured format keeps the settings valid.
   */
  lemma DefaultFormatsNeedNotBeKnown()
    ensures var s := InitialSettings()["default_formats" := Array([Str("pdf")])];
      Valid(s) && "pdf" !in s["formats"].fields
  {
    InitialSettingsValid();
    var s := InitialSettings()["default_formats" := Array([Str("pdf")])];
    assert AllWordChars("pdf");
    assert PropertyOk("default_formats", s["default_formats"]);
    assert forall k :: k in s && k != "default_formats" ==> s[k] == InitialSettings()[k];
  }

  /**
   * Because of Python's `$`, a format name with one trailing newline passes
   * the pattern, while a name with a hyphen does not.
   */
  lemma PatternAcceptsTrailingNewline()
    ensures MatchesPattern("docx\n")
    ensures !MatchesPattern("do-cx") && !MatchesPattern("")
  {
    assert "docx\n"[..4] == "docx";
    assert AllWordChars("docx");
    assert !IsWordChar("do-cx"[2]);
  }

  /**
   * Every `formats` entry whose key matches the pattern is an object; an
   * entry whose key does not match is not constrained.
   */
  lemma FormatEntries(s: map<string, Value>, key: string)
    requires Valid(s)
    ensures IsDict(s["formats"])
    ensures key in s["formats"].fields && MatchesPattern(key) ==> s["formats"].fields[key].Object?
  {
    assert PropertyOk("formats", s["formats"]);
  }

  lemma NonMatchingFormatUnconstrained()
    ensures var s := InitialSettings()["formats" := Object(["a-b"], map["a-b" := Int(5)])];
      Valid(s) && !s["formats"].fields["a-b"].Object?
  {
    InitialSettingsValid();
    var s := InitialSettings()["formats" := Object(["a-b"], map["a-b" := Int(5)])];
    assert !MatchesPattern("a-b") by { assert !IsWordChar("a-b"[1]); }
    assert PropertyOk("formats", s["formats"]);
    assert forall k :: k in s && k != "formats" ==> s[k] == InitialSettings()[k];
  }

  /** Every `default_formats` item of valid settings is a string that matches the pattern. */
  lemma DefaultFormatItems(s: map<string, Value>, i: nat)
    requires Valid(s) && s["default_formats"].Array? && i < |s["default_formats"].items|
    ensures s["default_formats"].items[i].Str? && MatchesPattern(s["default_formats"].items[i].s)
  {
    assert PropertyOk("default_formats", s["default_formats"]);
  }
}
