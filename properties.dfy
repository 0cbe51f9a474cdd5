/** The renderer of workspace property values (`parsePropertyValue` in
    public/app.js): one constructor per property type it knows, one for a
    null or undefined property and one for every other type tag. */
module Properties {
  import opened Common

  /** An entry of a `files` property: either an external link or a file
      hosted by the workspace; both carry a display name and a URL. */
  datatype FileRef = External(name: string, url: string) | Hosted(name: string, url: string)

  /** The `date` object of a date property. */
  datatype DateValue = DateValue(start: Option<string>, end: Option<string>)

  /** A property value as the workspace API delivers it, by its `type` tag. */
  datatype Prop =
    | Missing                                // null or undefined
    | Title(titleParts: seq<string>)         // plain_text of each rich-text part
    | RichText(textParts: seq<string>)
    | Number(number: Option<int>)            // None: number is null
    | Select(selected: Option<string>)       // the option's name; None: no option
    | MultiSelect(optionNames: seq<string>)
    | Date(date: Option<DateValue>)
    | Checkbox(checked: bool)
    | Url(url: Option<string>)
    | Email(email: Option<string>)
    | PhoneNumber(phone: Option<string>)
    | Formula(formula: Prop)                 // the nested formula result
    | Rollup(rollup: RollupValue)
    | People(personNames: seq<string>)
    | Files(files: seq<FileRef>)
    | Relation(relatedIds: seq<string>)
    | Unknown(tag: string)                   // any other type tag

  /** A rollup either carries an `array` of property values or is itself
      read as a single property value. */
  datatype RollupValue = ArrayRollup(items: seq<Prop>) | ValueRollup(value: Prop)

  /** What `parsePropertyValue` returns: a string, or the number of a
      number property passed through unchanged. */
  datatype Display = Str(text: string) | Num(n: int)

  /** JavaScript truthiness of a rendered value: '' and 0 are falsy. */
  predicate Shown(d: Display) {
    match d
    case Str(s) => s != ""
    case Num(n) => n != 0
  }

  /** The string a rendered value becomes in a text node, a template literal
      or a `join`. */
  function ToText(d: Display): (s: string)
    ensures s == "" <==> d == Str("")
  {
    match d
    case Str(s) => s
    case Num(n) => IntText(n)
  }

  /** `file.name || file.external.url` exactly as written: a hosted file has
      no `external` member, so an unnamed hosted file throws (None). */
  function FileLabelAsWritten(f: FileRef): (r: Option<string>)
    ensures r.None? <==> f.Hosted? && f.name == ""
    ensures r.Some? && f.name != "" ==> r.value == f.name
  {
    if f.name != "" then Some(f.name)
    else if f.External? then Some(f.url)
    else None
  }

  /** The unnamed hosted file that makes the label expression throw. */
  lemma UnnamedHostedFileThrows()
    ensures FileLabelAsWritten(Hosted("", "https://files.example/a.png")) == None
  {
  }

  /** The label of a file: its name, falling back to its own URL. */
  function FileLabel(f: FileRef): (l: string)
    ensures f.name != "" ==> l == f.name
    ensures f.name == "" ==> l == f.url
    ensures FileLabelAsWritten(f).Some? ==> FileLabelAsWritten(f).value == l
  {
    if f.name != "" then f.name else f.url
  }

  function FileLabels(files: seq<FileRef>): (labels: seq<string>)
    ensures |labels| == |files|
    ensures forall i :: 0 <= i < |files| ==> labels[i] == FileLabel(files[i])
  {
    seq(|files|, i requires 0 <= i < |files| => FileLabel(files[i]))
  }

  /** `parsePropertyValue(property)`. */
  function Render(p: Prop): (d: Display)
    ensures p.Missing? || p.Unknown? ==> d == Str("")
    ensures p.Checkbox? ==> Shown(d)
    ensures d.Num? ==> p.Number? || p.Formula? || (p.Rollup? && p.rollup.ValueRollup?)
  {
    match p
    case Missing => Str("")
    case Title(parts) => Str(Join(parts, ""))
    case RichText(parts) => Str(Join(parts, ""))
    case Number(n) => if n.Some? then Num(n.value) else Str("")
    case Select(name) => Str(OrEmpty(name))
    case MultiSelect(names) => Str(Join(names, ", "))
    case Date(date) =>
      if date.None? then Str("")
      else if Truthy(date.value.start) && Truthy(date.value.end)
      then Str(date.value.start.value + " - " + date.value.end.value)
      else Str(OrEmpty(date.value.start))
    case Checkbox(checked) => if checked then Str("\U{2705}") else Str("\U{274C}")
    case Url(url) => Str(OrEmpty(url))
    case Email(email) => Str(OrEmpty(email))
    case PhoneNumber(phone) => Str(OrEmpty(phone))
    case Formula(inner) => Render(inner)
    case Rollup(ArrayRollup(items)) =>
      Str(Join(seq(|items|, i requires 0 <= i < |items| => ToText(Render(items[i]))), ", "))
    case Rollup(ValueRollup(value)) => Render(value)
    case People(names) => Str(Join(names, ", "))
    case Files(files) => Str(Join(FileLabels(files), ", "))
    case Relation(ids) => Str(Join(ids, ", "))
    case Unknown(_) => Str("")
  }

  /** The texts of a rollup's array items, in order. */
  function ItemTexts(items: seq<Prop>): (texts: seq<string>)
    ensures |texts| == |items|
    ensures forall i :: 0 <= i < |items| ==> texts[i] == ToText(Render(items[i]))
  {
    seq(|items|, i requires 0 <= i < |items| => ToText(Render(items[i])))
  }

  /** Reference definition, by case, of a property whose rendering is the
      empty string. */
  predicate RendersEmpty(p: Prop) {
    match p
    case Missing => true
    case Title(parts) => forall i :: 0 <= i < |parts| ==> parts[i] == ""
    case RichText(parts) => forall i :: 0 <= i < |parts| ==> parts[i] == ""
    case Number(n) => n.None?
    case Select(name) => !Truthy(name)
    case MultiSelect(names) => |names| == 0 || (|names| == 1 && names[0] == "")
    case Date(date) => date.None? || !Truthy(date.value.start)
    case Checkbox(_) => false
    case Url(url) => !Truthy(url)
    case Email(email) => !Truthy(email)
    case PhoneNumber(phone) => !Truthy(phone)
    case Formula(inner) => RendersEmpty(inner)
    case Rollup(ArrayRollup(items)) => |items| == 0 || (|items| == 1 && RendersEmpty(items[0]))
    case Rollup(ValueRollup(value)) => RendersEmpty(value)
    case People(names) => |names| == 0 || (|names| == 1 && names[0] == "")
    case Files(files) => |files| == 0 || (|files| == 1 && files[0].name == "" && files[0].url == "")
    case Relation(ids) => |ids| == 0 || (|ids| == 1 && ids[0] == "")
    case Unknown(_) => true
  }

  /** Reference definition of a property that renders as the number 0. */
  predicate RendersZero(p: Prop) {
    match p
    case Number(n) => n == Some(0)
    case Formula(inner) => RendersZero(inner)
    case Rollup(ValueRollup(value)) => RendersZero(value)
    case _ => false
  }

  /** A property renders as '' exactly in the cases `RendersEmpty` lists, as
      0 exactly in the cases `RendersZero` lists, and so it is falsy exactly
      when one of the two holds. */
  lemma {:induction false} RenderFalsyIff(p: Prop)
    ensures Render(p) == Str("") <==> RendersEmpty(p)
    ensures Render(p) == Num(0) <==> RendersZero(p)
    ensures !Shown(Render(p)) <==> RendersEmpty(p) || RendersZero(p)
  {
    match p
    case Title(parts) => JoinNoSeparatorEmptyIff(parts);
    case RichText(parts) => JoinNoSeparatorEmptyIff(parts);
    case MultiSelect(names) => JoinEmptyIff(names, ", ");
    case People(names) => JoinEmptyIff(names, ", ");
    case Relation(ids) => JoinEmptyIff(ids, ", ");
    case Files(files) => JoinEmptyIff(FileLabels(files), ", ");
    case Formula(inner) => RenderFalsyIff(inner);
    case Rollup(ArrayRollup(items)) =>
      var texts := ItemTexts(items);
      assert Render(p) == Str(Join(texts, ", "));
      JoinEmptyIff(texts, ", ");
      if |items| == 1 {
        RenderFalsyIff(items[0]);
      }
    case Rollup(ValueRollup(value)) => RenderFalsyIff(value);
    case _ =>
  }

  /** Strips every formula and single-value rollup wrapper. */
  function Unwrap(p: Prop): (q: Prop)
    ensures !q.Formula? && !(q.Rollup? && q.rollup.ValueRollup?)
  {
    match p
    case Formula(inner) => Unwrap(inner)
    case Rollup(ValueRollup(value)) => Unwrap(value)
    case _ => p
  }

  /** A formula renders exactly as its nested value, and a rollup without an
      array as the rollup value itself, however deeply they nest. */
  lemma {:induction false} UnwrapTransparent(p: Prop)
    ensures Render(p) == Render(Unwrap(p))
  {
    match p
    case Formula(inner) => UnwrapTransparent(inner);
    case Rollup(ValueRollup(value)) => UnwrapTransparent(value);
    case _ =>
  }

  /** Only a number property, possibly wrapped, renders as a number, and it
      renders as exactly its number. */
  lemma NumberPassesThrough(p: Prop, n: int)
    ensures Render(p) == Num(n) <==> Unwrap(p) == Number(Some(n))
  {
    UnwrapTransparent(p);
  }

  /** title and rich_text render as the in-order concatenation of the
      parts' plain text, '' for no parts. */
  lemma TextRendering(parts: seq<string>)
    ensures Render(Title(parts)) == Str(Concat(parts))
    ensures Render(RichText(parts)) == Str(Concat(parts))
  {
    JoinNoSeparator(parts);
  }

  /** multi_select, people and relation render their names (ids) joined by
      ", " in list order: the rendering of a concatenated list is the two
      renderings with one separator between. */
  lemma ListRendering(xs: seq<string>, ys: seq<string>)
    requires |xs| > 0 && |ys| > 0
    ensures Render(MultiSelect(xs + ys)).text == Render(MultiSelect(xs)).text + ", " + Render(MultiSelect(ys)).text
    ensures Render(People(xs + ys)).text == Render(People(xs)).text + ", " + Render(People(ys)).text
    ensures Render(Relation(xs + ys)).text == Render(Relation(xs)).text + ", " + Render(Relation(ys)).text
  {
    JoinAppend(xs, ys, ", ");
  }

  /** A list property renders to its names' lengths plus two characters per
      separator. */
  lemma ListRenderingLength(names: seq<string>)
    requires |names| > 0
    ensures |Render(MultiSelect(names)).text| == TotalLength(names) + 2 * (|names| - 1)
  {
    JoinLength(names, ", ");
  }

  /** The labels of a concatenated file list are the two lists of labels. */
  lemma FileLabelsAppend(xs: seq<FileRef>, ys: seq<FileRef>)
    ensures FileLabels(xs + ys) == FileLabels(xs) + FileLabels(ys)
  {
    var all, both := FileLabels(xs + ys), FileLabels(xs) + FileLabels(ys);
    forall i | 0 <= i < |all|
      ensures all[i] == both[i]
    {
      if i < |xs| {
        assert (xs + ys)[i] == xs[i];
      } else {
        assert (xs + ys)[i] == ys[i - |xs|];
      }
    }
  }

  /** A files property renders as its labels joined by ", ". */
  lemma FilesText(files: seq<FileRef>)
    ensures Render(Files(files)) == Str(Join(FileLabels(files), ", "))
  {
  }

  /** files render as their labels (name, else URL) joined by ", ", in
      list order. */
  lemma FilesRendering(xs: seq<FileRef>, ys: seq<FileRef>)
    requires |xs| > 0 && |ys| > 0
    ensures Render(Files(xs + ys)).text == Render(Files(xs)).text + ", " + Render(Files(ys)).text
  {
    var left, right := FileLabels(xs), FileLabels(ys);
    FileLabelsAppend(xs, ys);
    FilesText(xs + ys);
    FilesText(xs);
    FilesText(ys);
    JoinAppend(left, right, ", ");
  }

  /** A rollup with an array renders as its items' texts joined by ", ". */
  lemma RollupArrayText(items: seq<Prop>)
    ensures Render(Rollup(ArrayRollup(items))) == Str(Join(ItemTexts(items), ", "))
  {
  }

  /** The item texts of a concatenated array are the two lists of texts. */
  lemma ItemTextsAppend(xs: seq<Prop>, ys: seq<Prop>)
    ensures ItemTexts(xs + ys) == ItemTexts(xs) + ItemTexts(ys)
  {
    var all, both := ItemTexts(xs + ys), ItemTexts(xs) + ItemTexts(ys);
    forall i | 0 <= i < |all|
      ensures all[i] == both[i]
    {
      if i < |xs| {
        assert (xs + ys)[i] == xs[i];
      } else {
        assert (xs + ys)[i] == ys[i - |xs|];
      }
    }
  }

  /** Rolled-up items keep their order: the rendering of a concatenated
      array is the two renderings with one separator between. */
  lemma RollupArrayRendering(xs: seq<Prop>, ys: seq<Prop>)
    requires |xs| > 0 && |ys| > 0
    ensures Render(Rollup(ArrayRollup(xs + ys))).text
         == Render(Rollup(ArrayRollup(xs))).text + ", " + Render(Rollup(ArrayRollup(ys))).text
  {
    var left, right := ItemTexts(xs), ItemTexts(ys);
    ItemTextsAppend(xs, ys);
    RollupArrayText(xs + ys);
    RollupArrayText(xs);
    RollupArrayText(ys);
    JoinAppend(left, right, ", ");
  }

  /** A date's text starts with its start and is empty exactly when there
      is no start; when there is also an end, the text is the start, the
      separator " - " and then the end; otherwise it is the start
      alone. */
  lemma DateRendering(start: Option<string>, end: Option<string>)
    ensures var t := Render(Date(Some(DateValue(start, end)))).text;
            && (t == "" <==> !Truthy(start))
            && (Truthy(start) ==> |start.value| <= |t| && t[..|start.value|] == start.value)
            && (Truthy(start) && Truthy(end) ==>
                  |t| == |start.value| + 3 + |end.value|
                  && t[|start.value|..|start.value| + 3] == " - "
                  && t[|t| - |end.value|..] == end.value)
            && (!Truthy(end) ==> t == OrEmpty(start))
  {
    var t := Render(Date(Some(DateValue(start, end)))).text;
    if Truthy(start) && Truthy(end) {
      assert t == start.value + " - " + end.value;
      assert t[..|start.value|] == start.value;
      assert t[|start.value|..|start.value| + 3] == " - ";
      assert t[|t| - |end.value|..] == end.value;
    }
  }
}
