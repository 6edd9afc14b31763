/** The statistics panel of the window: one fixed-width line per reported
    quantity, key on the left, value and unit on the right, with a run of
    underscores in between, all inside HTML markup for a label. */
module Statistics {
  import opened Basics
  import opened Text

  /** The narrowest text width `create` accepts. */
  const MinTextWidth := 30

  /** One reported quantity: its key and the unit written after its value. */
  datatype Property = Property(key: string, unit: string)

  /** The six quantities of the panel, in display order. */
  const DefaultProperties: seq<Property> := [
    Property("Run", ""),
    Property("Files moved", ""),
    Property("Average file size", "kB"),
    Property("Largest file size", "kB"),
    Property("Average moves per run", ""),
    Property("Overwritten files", "")
  ]

  /** Markup before the first line and after the last (the closing tags are
      in the order the program writes them). */
  const Open := "<center><code>"
  const Close := "</center></code>"

  const LineStart := "<br>"
  const LineEnd := "</br>"

  /** The text width `create` settles on: the requested width, but never
      less than `MinTextWidth`. */
  function ClampWidth(textWidth: int): (w: int)
    ensures w >= MinTextWidth
    ensures textWidth >= MinTextWidth ==> w == textWidth
    ensures textWidth < MinTextWidth ==> w == MinTextWidth
  {
    Max(textWidth, MinTextWidth)
  }

  /** One panel line: `key`, then `textWidth - |key| - |valStr| - |unit|`
      underscores (none when that is not positive), then `valStr` and
      `unit`, inside `<br>` and `</br>`. */
  function FormatLine(textWidth: int, key: string, valStr: string, unit: string): (r: string)
    ensures |r| == |LineStart| + Max(textWidth, |key| + |valStr| + |unit|) + |LineEnd|
  {
    var nDots := textWidth - |key| - |valStr| - |unit|;
    LineStart + key + Repeat('_', nDots) + valStr + unit + LineEnd
  }

  /** Every line starts with `<br>` and the whole key, ends with the whole
      value, the unit and `</br>`, and holds only underscores in between:
      nothing is ever cut. */
  lemma FormatLineLayout(textWidth: int, key: string, valStr: string, unit: string)
    ensures var r := FormatLine(textWidth, key, valStr, unit);
      |r| >= |LineStart| + |key| + |valStr| + |unit| + |LineEnd| &&
      r[..|LineStart|] == LineStart &&
      r[|LineStart|..|LineStart| + |key|] == key &&
      r[|r| - |valStr| - |unit| - |LineEnd|..] == valStr + unit + LineEnd &&
      forall i :: |LineStart| + |key| <= i < |r| - |valStr| - |unit| - |LineEnd| ==> r[i] == '_'
  {
    var pad := Repeat('_', textWidth - |key| - |valStr| - |unit|);
    var r := FormatLine(textWidth, key, valStr, unit);
    assert r == LineStart + key + pad + (valStr + unit + LineEnd);
    assert r[|LineStart|..|LineStart| + |key|] == key;
    assert r[|LineStart| + |key| + |pad|..] == valStr + unit + LineEnd;
    forall i | |LineStart| + |key| <= i < |r| - |valStr| - |unit| - |LineEnd| ensures r[i] == '_' {
      assert r[i] == pad[i - |LineStart| - |key|];
    }
  }

  /** The text between `<br>` and `</br>` of a line. */
  function Inner(line: string): string
    requires |line| >= |LineStart| + |LineEnd|
  {
    line[|LineStart|..|line| - |LineEnd|]
  }

  /** When key, value and unit fit, the line's text is exactly `textWidth`
      characters: the key, `textWidth - |key| - |valStr| - |unit|`
      underscores, the value and the unit. */
  lemma FormatLineFits(textWidth: int, key: string, valStr: string, unit: string)
    requires |key| + |valStr| + |unit| <= textWidth
    ensures var r := FormatLine(textWidth, key, valStr, unit);
      |Inner(r)| == textWidth &&
      Inner(r) == key + Repeat('_', textWidth - |key| - |valStr| - |unit|) + valStr + unit
  {
    FormatLineLayout(textWidth, key, valStr, unit);
    var r := FormatLine(textWidth, key, valStr, unit);
    var pad := Repeat('_', textWidth - |key| - |valStr| - |unit|);
    var inner := key + pad + valStr + unit;
    assert |Inner(r)| == |inner|;
    forall i | 0 <= i < |inner| ensures Inner(r)[i] == inner[i] {
      if i < |key| {
        assert Inner(r)[i] == r[|LineStart|..|LineStart| + |key|][i];
      } else if i < |key| + |pad| {
      } else {
        var j := i - |key| - |pad|;
        assert Inner(r)[i] == r[|r| - |valStr| - |unit| - |LineEnd|..][j];
        assert (valStr + unit + LineEnd)[j] == (valStr + unit)[j];
      }
    }
  }

  /** When key, value and unit do not fit, no padding goes in: the line is
      the three pieces inside the markup. */
  lemma FormatLineOverflows(textWidth: int, key: string, valStr: string, unit: string)
    requires |key| + |valStr| + |unit| > textWidth
    ensures FormatLine(textWidth, key, valStr, unit) == LineStart + key + valStr + unit + LineEnd
  {
    FormatLineLayout(textWidth, key, valStr, unit);
    var r := FormatLine(textWidth, key, valStr, unit);
    var s := LineStart + key + valStr + unit + LineEnd;
    assert |r| == |s|;
    forall i | 0 <= i < |s| ensures r[i] == s[i] {
      if i < |LineStart| {
        assert r[i] == r[..|LineStart|][i];
      } else if i < |LineStart| + |key| {
        assert r[i] == r[|LineStart|..|LineStart| + |key|][i - |LineStart|];
      } else {
        assert r[i] == r[|LineStart| + |key|..][i - |LineStart| - |key|];
      }
    }
  }

  /** The lines `genText` writes when it has no data: one per property, in
      property order, each showing the value 0. */
  function DefaultLines(textWidth: int, props: seq<Property>): (lines: seq<string>)
    ensures |lines| == |props|
    ensures forall i :: 0 <= i < |props| ==>
      lines[i] == FormatLine(textWidth, props[i].key, "0", props[i].unit)
    decreases |props|
  {
    if props == [] then []
    else
      var p := props[|props| - 1];
      DefaultLines(textWidth, props[..|props| - 1]) + [FormatLine(textWidth, p.key, IntText(0), p.unit)]
  }

  /** The label text for a list of lines: the opening markup, the lines in
      order, the closing markup. */
  function Page(lines: seq<string>): (text: string)
    ensures |Open| + |Close| <= |text|
    ensures text[..|Open|] == Open && text[|text| - |Close|..] == Close
    ensures lines == [] ==> text == Open + Close
    ensures |lines| == 1 ==> text == Open + lines[0] + Close
  {
    Open + Concat(lines) + Close
  }

  /** Joining the markup and the lines as one list gives the page. */
  lemma ConcatPage(lines: seq<string>)
    ensures Concat([Open] + lines + [Close]) == Page(lines)
  {
    ConcatAppend([Open] + lines, [Close]);
    ConcatAppend([Open], lines);
    assert [Open][..0] == [] && [Close][..0] == [];
  }

  /** The label text `genText` produces without data. */
  function NoDataText(textWidth: int, props: seq<Property>): (text: string)
    ensures |Open| + |Close| <= |text|
    ensures text[..|Open|] == Open && text[|text| - |Close|..] == Close
    ensures props == [] ==> text == Open + Close
    ensures |props| == 1 ==>
      text == Open + FormatLine(textWidth, props[0].key, "0", props[0].unit) + Close
  {
    Page(DefaultLines(textWidth, props))
  }

  /** The length of a line whose key, value and unit fit `textWidth`. */
  function LineLength(textWidth: int): int {
    |LineStart| + textWidth + |LineEnd|
  }

  /** Every default property fits the narrowest width with the value 0. */
  lemma DefaultPropertiesFit()
    ensures forall i :: 0 <= i < |DefaultProperties| ==>
      |DefaultProperties[i].key| + 1 + |DefaultProperties[i].unit| <= MinTextWidth
  {
  }

  /** A page of lines of one common length `len`: line `k` occupies the
      `len` characters starting `k * len` after the opening markup. */
  lemma UniformPageLayout(lines: seq<string>, len: nat, k: nat)
    requires forall i :: 0 <= i < |lines| ==> |lines[i]| == len
    requires k < |lines|
    ensures |Page(lines)| == |Open| + |lines| * len + |Close|
    ensures Page(lines)[..|Open|] == Open
    ensures Page(lines)[|Page(lines)| - |Close|..] == Close
    ensures k * len + len <= |lines| * len
    ensures Page(lines)[|Open| + k * len..|Open| + k * len + len] == lines[k]
  {
    var body := Concat(lines);
    ConcatUniformAt(lines, len, k);
    assert Page(lines) == Open + body + Close;
    assert Page(lines)[|Open| + k * len..|Open| + k * len + len] == body[k * len..k * len + len];
  }

  lemma DefaultLinesLength(textWidth: int, props: seq<Property>)
    requires forall i :: 0 <= i < |props| ==> |props[i].key| + 1 + |props[i].unit| <= textWidth
    ensures forall i :: 0 <= i < |props| ==> |DefaultLines(textWidth, props)[i]| == LineLength(textWidth)
  {
    var lines := DefaultLines(textWidth, props);
    forall i | 0 <= i < |props| ensures |lines[i]| == LineLength(textWidth) {
      assert lines[i] == FormatLine(textWidth, props[i].key, "0", props[i].unit);
    }
  }

  /** When every property fits `textWidth` with the value 0, the no-data
      page is `Open`, then one line of `textWidth + 9` characters per
      property, line `k` showing property `k` with value 0, then `Close`. */
  lemma DefaultTextLayout(textWidth: int, props: seq<Property>, k: nat)
    requires forall i :: 0 <= i < |props| ==> |props[i].key| + 1 + |props[i].unit| <= textWidth
    requires k < |props|
    ensures |NoDataText(textWidth, props)| == |Open| + |props| * LineLength(textWidth) + |Close|
    ensures NoDataText(textWidth, props)[..|Open|] == Open
    ensures NoDataText(textWidth, props)[|NoDataText(textWidth, props)| - |Close|..] == Close
    ensures k * LineLength(textWidth) + LineLength(textWidth) <= |props| * LineLength(textWidth)
    ensures NoDataText(textWidth, props)[|Open| + k * LineLength(textWidth)..|Open| + (k * LineLength(textWidth) + LineLength(textWidth))]
      == FormatLine(textWidth, props[k].key, "0", props[k].unit)
  {
    var lines := DefaultLines(textWidth, props);
    DefaultLinesLength(textWidth, props);
    UniformPageLayout(lines, LineLength(textWidth), k);
    assert lines[k] == FormatLine(textWidth, props[k].key, "0", props[k].unit);
  }

  /** The panel `create` shows: at any admissible width, line `k` of the
      six holds property `k` with value 0, padded to exactly `textWidth`. */
  lemma CreatedTextLayout(textWidth: int, k: nat)
    requires textWidth >= MinTextWidth
    requires k < |DefaultProperties|
    ensures |NoDataText(textWidth, DefaultProperties)| == |Open| + 6 * LineLength(textWidth) + |Close|
    ensures |Open| + (k * LineLength(textWidth) + LineLength(textWidth)) <= |NoDataText(textWidth, DefaultProperties)|
    ensures var line := NoDataText(textWidth, DefaultProperties)[|Open| + k * LineLength(textWidth)..|Open| + (k * LineLength(textWidth) + LineLength(textWidth))];
      line == FormatLine(textWidth, DefaultProperties[k].key, "0", DefaultProperties[k].unit) &&
      |Inner(line)| == textWidth
  {
    DefaultPropertiesFit();
    DefaultTextLayout(textWidth, DefaultProperties, k);
    FormatLineFits(textWidth, DefaultProperties[k].key, "0", DefaultProperties[k].unit);
  }

  /** The statistics panel object: its width and properties, and the text
      its label currently shows. */
  class Statistics {
    var textWidth: int
    var properties: seq<Property>
    var labelText: string

    ghost predicate Valid()
      reads this
    {
      textWidth >= MinTextWidth && properties == DefaultProperties
    }

    /** `Statistics()` followed by `create(Widget, textWidth)`: settles the
        width and the properties, and fills the label with the no-data text. */
    constructor Create(textWidth: int)
      ensures Valid()
      ensures this.textWidth == ClampWidth(textWidth)
      ensures labelText == NoDataText(this.textWidth, DefaultProperties)
    {
      this.textWidth := ClampWidth(textWidth);
      properties := DefaultProperties;
      new;
      labelText := GenText();
    }

    /** `genText()` without data: every value is 0; one line per property is
        appended after the opening markup, then the closing markup, and the
        list is joined. */
    method GenText() returns (text: string)
      ensures text == NoDataText(textWidth, properties)
    {
      var vals := seq(|properties|, _ => 0);
      var lines := [Open];
      for i := 0 to |properties|
        invariant lines == [Open] + DefaultLines(textWidth, properties[..i])
      {
        var p := properties[i];
        assert properties[..i + 1][..i] == properties[..i];
        lines := lines + [FormatLine(textWidth, p.key, IntText(vals[i]), p.unit)];
      }
      assert properties[..|properties|] == properties;
      lines := lines + [Close];
      text := Concat(lines);
      ConcatPage(DefaultLines(textWidth, properties));
    }

    /** `reset()`: the label goes back to the no-data text. */
    method Reset()
      modifies this`labelText
      ensures labelText == NoDataText(textWidth, properties)
    {
      labelText := GenText();
    }
  }
}
