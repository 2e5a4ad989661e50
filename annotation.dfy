/**
 * The form generator `htmlFields` of src/annotation.js: for every property
 * of an annotation type, a `<div>` block with a label and either a select of
 * the property's values, a No/Yes select for a boolean property, or a text
 * input; the lines are joined with newlines. Values are substituted into the
 * HTML text as they are, without escaping.
 */
module Annotation {
  import opened Wrappers
  import opened Text

  /** A property description: `values` may be absent, and is truthy whenever
      present (an array, even an empty one). */
  datatype PropertySpec = PropertySpec(
    property: string, prompt: string, values: Option<seq<string>>, valueType: Option<string>)

  /** The feature being annotated; `htmlFields` does not read it. */
  datatype Feature = Feature(id: string)

  function LabelLine(p: PropertySpec): string
  {
    "  <label for=\"" + p.property + "\">" + p.prompt + ":</label>"
  }

  function SelectLine(p: PropertySpec): string
  {
    "  <select id=\"" + p.property + "\" name=\"" + p.property + "\">"
  }

  function InputLine(p: PropertySpec): string
  {
    "  <input type=\"text\" id=\"" + p.property + "\" name=\"" + p.property + "\"/>"
  }

  const OptionPrefix: string := "    <option value=\""

  function OptionLine(v: string): string
  {
    OptionPrefix + v + "\">" + v + "</option>"
  }

  /** One option line per value, in order. */
  function OptionLines(vs: seq<string>): seq<string>
  {
    if |vs| == 0 then [] else OptionLines(vs[..|vs| - 1]) + [OptionLine(vs[|vs| - 1])]
  }

  const BooleanOptions: seq<string> := [
    "    <option value=\"false\">No</option>",
    "    <option value=\"true\">Yes</option>"]

  /** The lines between the label and the closing `</div>`. */
  function ControlLines(p: PropertySpec): seq<string>
  {
    if p.values.Some? then [SelectLine(p)] + OptionLines(p.values.value) + ["  </select>"]
    else if p.valueType == Some("boolean") then [SelectLine(p)] + BooleanOptions + ["  </select>"]
    else [InputLine(p)]
  }

  /** The block of one property. */
  function Block(p: PropertySpec): seq<string>
  {
    ["<div>", LabelLine(p)] + ControlLines(p) + ["</div>"]
  }

  /** The blocks of all properties, in order. */
  function FieldLines(properties: seq<PropertySpec>): seq<string>
  {
    if |properties| == 0 then []
    else FieldLines(properties[..|properties| - 1]) + Block(properties[|properties| - 1])
  }

  /** `htmlFields(properties, feature)`: the lines of every property's block,
      in order, joined with newlines; the feature plays no part. */
  method HtmlFields(properties: seq<PropertySpec>, feature: Feature) returns (r: string)
    ensures r == Join(FieldLines(properties), '\n')
  {
    var html: seq<string> := [];
    for i := 0 to |properties|
      invariant html == FieldLines(properties[..i])
    {
      html := PushBlock(html, properties[i]);
      FieldLinesStep(properties, i);
    }
    assert properties[..|properties|] == properties;
    r := Join(html, '\n');
  }

  lemma FieldLinesStep(properties: seq<PropertySpec>, i: nat)
    requires i < |properties|
    ensures FieldLines(properties[..i + 1]) == FieldLines(properties[..i]) + Block(properties[i])
  {
    assert properties[..i + 1][..i] == properties[..i];
  }

  /** The body of `htmlFields`' outer loop: pushes one property's lines. */
  method PushBlock(html: seq<string>, p: PropertySpec) returns (out: seq<string>)
    ensures out == html + Block(p)
  {
    var control: seq<string>;
    if p.values.Some? {
      control := [SelectLine(p)];
      control := PushOptions(control, p.values.value);
      control := control + ["  </select>"];
    } else if p.valueType == Some("boolean") {
      control := [SelectLine(p)] + BooleanOptions + ["  </select>"];
    } else {
      control := [InputLine(p)];
    }
    out := html + ["<div>", LabelLine(p)];
    out := out + control;
    out := out + ["</div>"];
    PushBlockShape(html, ["<div>", LabelLine(p)], control, ["</div>"]);
  }

  lemma PushBlockShape(html: seq<string>, a: seq<string>, b: seq<string>, c: seq<string>)
    ensures html + a + b + c == html + (a + b + c)
  {
  }

  /** `htmlFields`' inner loop: one option line per value, in order. */
  method PushOptions(html: seq<string>, vs: seq<string>) returns (out: seq<string>)
    ensures out == html + OptionLines(vs)
  {
    out := html;
    for j := 0 to |vs|
      invariant out == html + OptionLines(vs[..j])
    {
      assert vs[..j + 1][..j] == vs[..j];
      out := out + [OptionLine(vs[j])];
    }
    assert vs[..|vs|] == vs;
  }

  /** The blocks of a concatenation are the blocks of each part, in order:
      every property contributes its own block and nothing else. */
  lemma {:induction false} FieldLinesAppend(a: seq<PropertySpec>, b: seq<PropertySpec>)
    ensures FieldLines(a + b) == FieldLines(a) + FieldLines(b)
    decreases |b|
  {
    if |b| == 0 {
      assert a + b == a;
    } else {
      var b' := b[..|b| - 1];
      assert (a + b)[..|a + b| - 1] == a + b';
      FieldLinesAppend(a, b');
    }
  }

  /** A block opens with `<div>` and the label naming the property and its
      prompt, and closes with `</div>`. */
  lemma BlockShape(p: PropertySpec)
    ensures var b := Block(p);
      && |b| >= 4 && b[0] == "<div>" && b[1] == LabelLine(p) && b[|b| - 1] == "</div>"
      && FieldLines([p]) == b
  {
    assert [p][..0] == [];
  }

  /** `values` takes precedence: with values present, the value type plays no
      part. */
  lemma ValuesTakePrecedence(p: PropertySpec, valueType: Option<string>)
    requires p.values.Some?
    ensures Block(p) == Block(p.(valueType := valueType))
  {
  }

  /** The option lines hold the values in order. */
  lemma {:induction false} OptionLinesAt(vs: seq<string>)
    ensures |OptionLines(vs)| == |vs|
    ensures forall i :: 0 <= i < |vs| ==> OptionLines(vs)[i] == OptionLine(vs[i])
    decreases |vs|
  {
    if |vs| > 0 {
      OptionLinesAt(vs[..|vs| - 1]);
    }
  }

  /** Whether a line is an `<option>` line. */
  predicate IsOptionLine(line: string)
  {
    StartsWith(line, "    <option ")
  }

  function CountOptions(lines: seq<string>): nat
  {
    if |lines| == 0 then 0
    else CountOptions(lines[..|lines| - 1]) + (if IsOptionLine(lines[|lines| - 1]) then 1 else 0)
  }

  lemma {:induction false} CountOptionsAppend(a: seq<string>, b: seq<string>)
    ensures CountOptions(a + b) == CountOptions(a) + CountOptions(b)
    decreases |b|
  {
    if |b| == 0 {
      assert a + b == a;
    } else {
      var b' := b[..|b| - 1];
      assert (a + b)[..|a + b| - 1] == a + b';
      CountOptionsAppend(a, b');
    }
  }

  lemma CountOne(line: string)
    ensures CountOptions([line]) == if IsOptionLine(line) then 1 else 0
  {
    assert [line][..0] == [];
  }

  lemma OptionLineIsOption(v: string)
    ensures IsOptionLine(OptionLine(v))
  {
    assert OptionLine(v)[..12] == "    <option ";
  }

  lemma {:induction false} AllOptions(vs: seq<string>)
    ensures CountOptions(OptionLines(vs)) == |vs|
    decreases |vs|
  {
    if |vs| > 0 {
      var vs' := vs[..|vs| - 1];
      AllOptions(vs');
      CountOptionsAppend(OptionLines(vs'), [OptionLine(vs[|vs| - 1])]);
      CountOne(OptionLine(vs[|vs| - 1]));
      OptionLineIsOption(vs[|vs| - 1]);
    }
  }

  /** The label, select and input lines begin with two spaces and a tag, not
      with the four spaces of an option. */
  lemma TagLinesAreNotOptions(p: PropertySpec)
    ensures !IsOptionLine(LabelLine(p)) && !IsOptionLine(SelectLine(p)) && !IsOptionLine(InputLine(p))
  {
    LabelNotOption(p);
    SelectNotOption(p);
    InputNotOption(p);
  }

  lemma LabelNotOption(p: PropertySpec)
    ensures !IsOptionLine(LabelLine(p))
  {
    var tail := p.property + "\">" + p.prompt + ":</label>";
    assert LabelLine(p) == "  <label for=\"" + tail;
    TagAtTwo("  <label for=\"", tail);
  }

  lemma SelectNotOption(p: PropertySpec)
    ensures !IsOptionLine(SelectLine(p))
  {
    var tail := p.property + "\" name=\"" + p.property + "\">";
    assert SelectLine(p) == "  <select id=\"" + tail;
    TagAtTwo("  <select id=\"", tail);
  }

  lemma InputNotOption(p: PropertySpec)
    ensures !IsOptionLine(InputLine(p))
  {
    var tail := p.property + "\" name=\"" + p.property + "\"/>";
    assert InputLine(p) == "  <input type=\"text\" id=\"" + tail;
    TagAtTwo("  <input type=\"text\" id=\"", tail);
  }

  /** A line whose third character opens a tag is not an option line. */
  lemma TagAtTwo(head: string, rest: string)
    requires |head| > 2 && head[2] == '<'
    ensures !IsOptionLine(head + rest)
  {
    assert (head + rest)[2] == '<';
  }

  /** Counting the options of three consecutive pieces. */
  lemma CountThree(a: seq<string>, b: seq<string>, c: seq<string>)
    ensures CountOptions(a + b + c) == CountOptions(a) + CountOptions(b) + CountOptions(c)
  {
    CountOptionsAppend(a, b);
    CountOptionsAppend(a + b, c);
  }

  lemma BooleanOptionsCount()
    ensures CountOptions(BooleanOptions) == 2
  {
    assert BooleanOptions[0][..12] == "    <option ";
    assert BooleanOptions[1][..12] == "    <option ";
    assert BooleanOptions == [BooleanOptions[0]] + [BooleanOptions[1]];
    CountOne(BooleanOptions[0]);
    CountOne(BooleanOptions[1]);
    CountOptionsAppend([BooleanOptions[0]], [BooleanOptions[1]]);
  }

  /** The options among the control lines. */
  lemma ControlOptions(p: PropertySpec)
    ensures CountOptions(ControlLines(p)) ==
      if p.values.Some? then |p.values.value| else if p.valueType == Some("boolean") then 2 else 0
  {
    TagLinesAreNotOptions(p);
    if p.values.Some? {
      CountOne(SelectLine(p));
      CountOne("  </select>");
      AllOptions(p.values.value);
      CountThree([SelectLine(p)], OptionLines(p.values.value), ["  </select>"]);
    } else if p.valueType == Some("boolean") {
      CountOne(SelectLine(p));
      CountOne("  </select>");
      BooleanOptionsCount();
      CountThree([SelectLine(p)], BooleanOptions, ["  </select>"]);
    } else {
      CountOne(InputLine(p));
    }
  }

  /** The number of options in a block: one per value, in order, when values
      are present; exactly two (`false`/No then `true`/Yes) for a boolean
      property; none otherwise, where the block holds a single text input. */
  lemma BlockOptions(p: PropertySpec)
    ensures CountOptions(Block(p)) ==
      if p.values.Some? then |p.values.value| else if p.valueType == Some("boolean") then 2 else 0
    ensures p.values.None? && p.valueType != Some("boolean") ==> Block(p) == ["<div>", LabelLine(p), InputLine(p), "</div>"]
  {
    var head := ["<div>", LabelLine(p)];
    HeadOptions(p);
    ControlOptions(p);
    CountOne("</div>");
    CountThree(head, ControlLines(p), ["</div>"]);
  }

  lemma HeadOptions(p: PropertySpec)
    ensures CountOptions(["<div>", LabelLine(p)]) == 0
  {
    TagLinesAreNotOptions(p);
    assert ["<div>", LabelLine(p)] == ["<div>"] + [LabelLine(p)];
    CountOne("<div>");
    CountOne(LabelLine(p));
    CountOptionsAppend(["<div>"], [LabelLine(p)]);
  }

  /** The text up to the first double quote. */
  function UntilQuote(s: string): string
  {
    if |s| == 0 || s[0] == '"' then "" else [s[0]] + UntilQuote(s[1..])
  }

  lemma {:induction false} UntilQuoteOf(v: string, rest: string)
    requires '"' !in v
    ensures UntilQuote(v + "\"" + rest) == v
    decreases |v|
  {
    if |v| > 0 {
      assert (v + "\"" + rest)[1..] == v[1..] + "\"" + rest;
      UntilQuoteOf(v[1..], rest);
    } else {
      assert v + "\"" + rest == "\"" + rest;
    }
  }

  /** The `value` attribute of an option line. */
  function OptionValue(line: string): Option<string>
  {
    if StartsWith(line, OptionPrefix) then Some(UntilQuote(line[|OptionPrefix|..])) else None
  }

  /** Reading the `value` attribute back from each option line gives the
      property's values, in order, when no value holds a double quote. */
  lemma OptionValuesRoundTrip(vs: seq<string>)
    requires forall i :: 0 <= i < |vs| ==> '"' !in vs[i]
    ensures |OptionLines(vs)| == |vs|
    ensures forall i :: 0 <= i < |vs| ==> OptionValue(OptionLines(vs)[i]) == Some(vs[i])
  {
    OptionLinesAt(vs);
    forall i | 0 <= i < |vs|
      ensures OptionValue(OptionLines(vs)[i]) == Some(vs[i])
    {
      OptionValueOf(vs[i]);
    }
  }

  lemma OptionValueOf(v: string)
    requires '"' !in v
    ensures OptionValue(OptionLine(v)) == Some(v)
  {
    var rest := ">" + v + "</option>";
    var line := OptionLine(v);
    assert line == OptionPrefix + (v + "\"" + rest);
    assert line[..|OptionPrefix|] == OptionPrefix;
    assert line[|OptionPrefix|..] == v + "\"" + rest;
    UntilQuoteOf(v, rest);
  }

  /** No newline appears in the text of a property description. */
  predicate NoNewline(p: PropertySpec)
  {
    && '\n' !in p.property && '\n' !in p.prompt
    && (p.values.Some? ==> forall v :: v in p.values.value ==> '\n' !in v)
  }

  /** No line of the list holds a newline. */
  predicate SingleLines(lines: seq<string>)
  {
    forall line :: line in lines ==> '\n' !in line
  }

  lemma {:induction false} OptionLinesSingle(vs: seq<string>)
    requires forall v :: v in vs ==> '\n' !in v
    ensures SingleLines(OptionLines(vs))
    decreases |vs|
  {
    if |vs| > 0 {
      var vs' := vs[..|vs| - 1];
      assert forall v :: v in vs' ==> v in vs;
      OptionLinesSingle(vs');
      assert vs[|vs| - 1] in vs;
      OptionLineSingle(vs[|vs| - 1]);
      SingleAppend(OptionLines(vs'), [OptionLine(vs[|vs| - 1])]);
    }
  }

  lemma SingleAppend(a: seq<string>, b: seq<string>)
    requires SingleLines(a) && SingleLines(b)
    ensures SingleLines(a + b)
  {
  }

  /** The fixed text around the description's words holds no newline. */
  lemma TagLinesSingle(p: PropertySpec)
    requires '\n' !in p.property && '\n' !in p.prompt
    ensures '\n' !in LabelLine(p) && '\n' !in SelectLine(p) && '\n' !in InputLine(p)
  {
  }

  lemma OptionLineSingle(v: string)
    requires '\n' !in v
    ensures '\n' !in OptionLine(v)
  {
  }

  lemma ControlSingle(p: PropertySpec)
    requires NoNewline(p)
    ensures SingleLines(ControlLines(p))
  {
    TagLinesSingle(p);
    var body := if p.values.Some? then OptionLines(p.values.value) else BooleanOptions;
    if p.values.Some? {
      OptionLinesSingle(p.values.value);
    } else {
      BooleanSingle();
    }
    if p.values.Some? || p.valueType == Some("boolean") {
      SelectSingle(SelectLine(p), body);
    }
  }

  lemma BooleanSingle()
    ensures SingleLines(BooleanOptions)
  {
    assert forall line :: line in BooleanOptions ==> line == BooleanOptions[0] || line == BooleanOptions[1];
  }

  lemma SelectSingle(open: string, body: seq<string>)
    requires '\n' !in open && SingleLines(body)
    ensures SingleLines([open] + body + ["  </select>"])
  {
    SingleAppend([open], body);
    SingleAppend([open] + body, ["  </select>"]);
  }

  lemma BlockSingle(p: PropertySpec)
    requires NoNewline(p)
    ensures SingleLines(Block(p))
  {
    TagLinesSingle(p);
    ControlSingle(p);
    SingleAppend(["<div>", LabelLine(p)], ControlLines(p));
    SingleAppend(["<div>", LabelLine(p)] + ControlLines(p), ["</div>"]);
  }

  lemma {:induction false} FieldLinesSingle(properties: seq<PropertySpec>)
    requires forall p :: p in properties ==> NoNewline(p)
    ensures SingleLines(FieldLines(properties))
    decreases |properties|
  {
    if |properties| > 0 {
      var init := properties[..|properties| - 1];
      assert forall p :: p in init ==> p in properties;
      FieldLinesSingle(init);
      BlockSingle(properties[|properties| - 1]);
      SingleAppend(FieldLines(init), Block(properties[|properties| - 1]));
    }
  }

  /** The output splits back into the generated lines at its newlines: one
      line per element, as long as the descriptions hold no newline. */
  lemma HtmlLinesRoundTrip(properties: seq<PropertySpec>)
    requires |properties| > 0
    requires forall p :: p in properties ==> NoNewline(p)
    ensures Split(Join(FieldLines(properties), '\n'), '\n') == FieldLines(properties)
  {
    var lines := FieldLines(properties);
    FieldLinesSingle(properties);
    NonEmpty(properties);
    SingleAt(lines);
    SplitJoin(lines, '\n');
  }

  lemma NonEmpty(properties: seq<PropertySpec>)
    requires |properties| > 0
    ensures |FieldLines(properties)| >= 1
  {
    BlockShape(properties[|properties| - 1]);
  }

  lemma SingleAt(lines: seq<string>)
    requires SingleLines(lines)
    ensures forall i :: 0 <= i < |lines| ==> '\n' !in lines[i]
  {
    forall i | 0 <= i < |lines|
      ensures '\n' !in lines[i]
    {
      assert lines[i] in lines;
    }
  }
}
