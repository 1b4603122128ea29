/**
 * `parse_front_matter` of `bddreporting/utils.py` and the decision, inside
 * `write_text`, whether a document's front matter replaces a format's
 * `extra_args`.
 */
module FrontMatter {
  import opened Strings
  import opened Values
  import opened Externals

  const Fence: string := "---"

  /** The value of a YAML load, with an exception read as `None` (the bare `except` of the source). */
  function LoadedOrNone(y: YamlResult): Value {
    match y
    case Loaded(v) => v
    case YamlError => Null
  }

  /**
   * `parse_front_matter(content)`: when `content` starts with `---` and
   * another `---` occurs at index 3 or later, the YAML value of the text
   * between them, stripped; `None` otherwise and when loading raises.
   */
  function ParseFrontMatter(content: string, yaml: string -> YamlResult): (r: Value)
    ensures !StartsWith(content, Fence) ==> r == Null
    ensures StartsWith(content, Fence) && Find(content, Fence, 3) == -1 ==> r == Null
  {
    if StartsWith(content, Fence) then
      var e := Find(content, Fence, 3);
      if e == -1 then Null else LoadedOrNone(yaml(Strip(content[3..e])))
    else Null
  }

  /**
   * A document that opens with a fenced block is read back as that block's
   * YAML value, whatever follows the closing fence, provided the block cannot
   * be mistaken for a fence (no `---` in it, nor across its end).
   */
  lemma ParseComposed(block: string, body: string, yaml: string -> YamlResult)
    requires !Contains(block + "--", Fence)
    ensures ParseFrontMatter(Fence + block + Fence + body, yaml) == LoadedOrNone(yaml(Strip(block)))
  {
    var content := Fence + block + Fence + body;
    var e := 3 + |block|;
    assert content[..3] == Fence;
    assert content[e..e + 3] == Fence;
    assert OccursAt(content, Fence, e);
    forall i | 3 <= i < e ensures !OccursAt(content, Fence, i) {
      if OccursAt(content, Fence, i) {
        var p := i - 3;
        assert content[i..i + 3] == (block + "--")[p..p + 3];
        assert OccursAt(block + "--", Fence, p);
        ContainsIff(block + "--", Fence);
      }
    }
    var f := Find(content, Fence, 3);
    assert f == e;
    assert content[3..e] == block;
  }

  /** Whether front matter changes a format's `extra_args`, and how. */
  datatype Override = Keep | Replace(args: Value) | OverrideRaised(error: PyError)

  /**
   * A truthy front matter that holds `extra_args` replaces a format's
   * arguments with its own. Only a dict holding `extra_args` replaces them. A string or a
   * list that "contains" `extra_args` has no `get`; `in` on a number or `True` raises.
   */
  function ExtraArgsOverride(fm: Value): (o: Override)
    ensures o.Replace? <==> fm.Object? && "extra_args" in fm.fields
    ensures o.Replace? ==> o.args == fm.fields["extra_args"]
    ensures o == Keep <==> (
      || !Truthy(fm)
      || (fm.Object? && "extra_args" !in fm.fields)
      || (fm.Str? && !Contains(fm.s, "extra_args"))
      || (fm.Array? && Str("extra_args") !in fm.items))
  {
    if !Truthy(fm) then Keep
    else
      match fm
      case Object(_, f) => if "extra_args" in f then Replace(f["extra_args"]) else Keep
      case Str(s) => if Contains(s, "extra_args") then OverrideRaised(AttributeError) else Keep
      case Array(xs) => if Str("extra_args") in xs then OverrideRaised(AttributeError) else Keep
      case _ => OverrideRaised(TypeError)
  }
}
