/**
 * The foreign code the reporting hooks call, as uninterpreted functions:
 * the Jinja2 and Mako template engines, `str.format`, the YAML loader,
 * `os.path.abspath`, reading files and the pandoc converter.
 */
module Externals {
  import opened Wrappers
  import opened Values

  /** What a template engine produces: the rendered text, or an exception. */
  datatype Rendered = Rendered(text: string) | RenderRaised

  /** What `yaml.safe_load` produces: a value (`Null` for an empty document), or an exception. */
  datatype YamlResult = Loaded(value: Value) | YamlError

  type RenderContext = map<string, Value>

  datatype Env = Env(
    /** `applyJinja2Template(source, context)` on a string source. */
    jinja: (string, RenderContext) -> Rendered,
    /** Rendering a Mako template text, with includes looked up in a directory, on the given arguments. */
    mako: (string, string, RenderContext) -> Rendered,
    /** Python's `str.format` of a text, with the entries of a mapping as keyword arguments. */
    format: (string, RenderContext) -> Rendered,
    /** `yaml.safe_load(text)`. */
    yaml: string -> YamlResult,
    /** `os.path.abspath(path)` when the process's working directory is `cwd`. */
    abspath: (string, string) -> string,
    /** The contents of the file at a path, `None` when there is none. */
    readFile: string -> Option<string>,
    /** Whether pandoc's conversion of a text to a format, with extra arguments, into an output file returns normally. */
    pandocSucceeds: (string, Value, Value, string) -> bool)

  /**
   * `applyJinja2Template(source, context)` on any value: a source that is
   * not a string makes Jinja2's lexer raise before anything is rendered.
   */
  function RenderSource(env: Env, source: Value, context: RenderContext): (r: Rendered)
    ensures !source.Str? ==> r == RenderRaised
    ensures source.Str? ==> r == env.jinja(source.s, context)
  {
    if source.Str? then env.jinja(source.s, context) else RenderRaised
  }
}
