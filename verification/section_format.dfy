/** The server's "table details" formatter (backend/server.js, lines 99-117):
    a parsed list of sections `{title, items}` becomes one line per section,
    `<title>: <item labels joined by ", ">`, the lines joined by "\n". When
    parsing or shaping throws, the raw field is stored as it came, or "" when
    it is absent. */
module SectionFormat {
  import opened Wrappers
  import opened Text
  import opened JsonValue

  /** A property that is present and truthy (`undefined` is falsy). */
  predicate TruthyProp(p: Option<Json>) {
    p.Some? && Truthy(p.value)
  }

  /** `a || b`, where `a` may be undefined. */
  function OrElse(a: Option<Json>, b: Json): Json {
    if TruthyProp(a) then a.value else b
  }

  /** The value one item maps to: for an object the first truthy of its
      `name`, `title` and `label`, else ""; an array is also of type "object"
      and has none of the three; a scalar maps to itself. Reading a property
      of a null item throws. */
  function ItemLabel(item: Json): (r: Option<Json>)
    ensures r.None? <==> item.JNull?
    ensures item.JObject? && TruthyProp(Prop(item, "name")) ==> r == Prop(item, "name")
    ensures (item.JObject? && !TruthyProp(Prop(item, "name")) && TruthyProp(Prop(item, "title")))
      ==> r == Prop(item, "title")
    ensures (item.JObject? && !TruthyProp(Prop(item, "name")) && !TruthyProp(Prop(item, "title"))
             && TruthyProp(Prop(item, "label")))
      ==> r == Prop(item, "label")
    ensures (item.JObject? && !TruthyProp(Prop(item, "name")) && !TruthyProp(Prop(item, "title"))
             && !TruthyProp(Prop(item, "label")))
      ==> r == Some(JString(""))
    ensures item.JArray? ==> r == Some(JString(""))
    ensures !IsObjectType(item) ==> r == Some(item)
  {
    if item.JNull? then None
    else if IsObjectType(item) then
      Some(OrElse(Prop(item, "name"), OrElse(Prop(item, "title"), OrElse(Prop(item, "label"), JString("")))))
    else Some(item)
  }

  /** The text one item contributes to `labels.join(", ")`; None when the
      item is null or `join` throws on its label. */
  function LabelText(item: Json): Option<string>
  {
    match ItemLabel(item)
    case None => None
    case Some(shown) => if Printable(shown) then Some(ElementStr(shown)) else None
  }

  /** The line for one section; None when building it throws: a null
      section, a title the template literal cannot write, `items` missing or
      not an array (its `.map` is not a function), a null item, or a label
      `join` cannot write. */
  function SectionLine(section: Json): Option<string>
  {
    if section.JNull? then None
    else if !PrintableProp(Prop(section, "title")) then None
    else
      match Prop(section, "items")
      case Some(JArray(items)) =>
        (match Traverse(items, LabelText)
         case Some(labels) => Some(TemplateStr(Prop(section, "title")) + ": " + Join(labels, ", "))
         case None => None)
      case _ => None
  }

  /** The formatted text of a parsed payload; None when `parsed.map` or one
      of the section callbacks throws. */
  function FormatSections(parsed: Json): Option<string>
  {
    match parsed
    case JArray(sections) =>
      (match Traverse(sections, SectionLine)
       case Some(lines) => Some(Join(lines, "\n"))
       case None => None)
    case _ => None
  }

  /** The text stored and mailed for the `tableDetails` form field `raw`,
      given what `JSON.parse(raw)` gave (None: it threw). `JSON.parse`
      throws on an absent field and on "" whatever `parsed` says. */
  function TableDetailsText(raw: Option<string>, parsed: Option<Json>): (text: string)
    ensures raw.None? ==> text == ""
    ensures TruthyText(raw) && parsed.Some? && Sectioned(parsed.value) ==> text == FormatSections(parsed.value).value
    ensures !(TruthyText(raw) && parsed.Some? && Sectioned(parsed.value)) ==> text == raw.GetOr("")
  {
    FormatSectionsSucceeds(parsed.GetOr(JNull));
    var formatted := if TruthyText(raw) && parsed.Some? then FormatSections(parsed.value) else None;
    match formatted
    case Some(t) => t
    case None => raw.GetOr("")
  }

  // ---------------------------------------------------------------------
  // The payload shape the formatter accepts, stated independently
  // ---------------------------------------------------------------------

  /** A section the formatter can write: an object whose title, if any, is
      printable and whose `items` is an array of labelled items. */
  predicate Shaped(section: Json) {
    && section.JObject?
    && ("title" in section.fields ==> Printable(section.fields["title"]))
    && "items" in section.fields
    && section.fields["items"].JArray?
    && LabelledItems(section.fields["items"].elems)
  }

  /** Items without nulls whose labels are printable. */
  predicate LabelledItems(items: seq<Json>) {
    forall i :: 0 <= i < |items| ==> !items[i].JNull? && Printable(ItemLabel(items[i]).value)
  }

  /** A payload the formatter can write: an array of shaped sections. */
  predicate Sectioned(parsed: Json) {
    parsed.JArray? && forall i :: 0 <= i < |parsed.elems| ==> Shaped(parsed.elems[i])
  }

  /** The section's title as the template literal writes it. */
  function TitleText(section: Json): string
    requires !section.JNull? && PrintableProp(Prop(section, "title"))
  {
    TemplateStr(Prop(section, "title"))
  }

  /** The item labels of a shaped section, in item order, as written. */
  function LabelsInOrder(items: seq<Json>): (labels: seq<string>)
    requires LabelledItems(items)
  {
    seq(|items|, i requires 0 <= i < |items| => ElementStr(ItemLabel(items[i]).value))
  }

  // ---------------------------------------------------------------------
  // Lemmas
  // ---------------------------------------------------------------------

  /** A section yields a line exactly when it is shaped, and the line is the
      title, ": ", and the item labels in order joined by ", ". */
  lemma SectionLineSpec(section: Json)
    ensures SectionLine(section).Some? <==> Shaped(section)
    ensures Shaped(section) ==>
      SectionLine(section) == Some(TitleText(section) + ": " + Join(LabelsInOrder(section.fields["items"].elems), ", "))
  {
    if !section.JNull? {
      match Prop(section, "items")
      case Some(JArray(items)) =>
        var t := Traverse(items, LabelText);
        if t.Some? {
          assert t.value == LabelsInOrder(items);
        } else {
          var i :| 0 <= i < |items| && LabelText(items[i]).None?;
          assert !(!items[i].JNull? && Printable(ItemLabel(items[i]).value));
        }
      case _ =>
    }
  }

  /** Formatting succeeds exactly on sectioned payloads; an empty list gives "". */
  lemma FormatSectionsSucceeds(parsed: Json)
    ensures FormatSections(parsed).Some? <==> Sectioned(parsed)
    ensures parsed == JArray([]) ==> FormatSections(parsed) == Some("")
  {
    if parsed.JArray? {
      forall i | 0 <= i < |parsed.elems| {
        SectionLineSpec(parsed.elems[i]);
      }
    }
  }

  /** One line per section, in order: when no line contains a newline,
      splitting the output on "\n" gives back exactly the section lines. */
  lemma {:induction false} OneLinePerSection(sections: seq<Json>)
    requires Sectioned(JArray(sections))
    requires |sections| >= 1
    requires forall i :: 0 <= i < |sections| ==> NewlineFree(SectionLine(sections[i]))
    ensures FormatSections(JArray(sections)).Some?
    ensures |Split(FormatSections(JArray(sections)).value, '\n')| == |sections|
    ensures forall i :: 0 <= i < |sections| ==>
      SectionLine(sections[i]) == Some(Split(FormatSections(JArray(sections)).value, '\n')[i])
  {
    FormatSectionsSucceeds(JArray(sections));
    var lines := Traverse(sections, SectionLine).value;
    forall i | 0 <= i < |lines|
      ensures '\n' !in lines[i]
    {
      assert SectionLine(sections[i]) == Some(lines[i]);
    }
    SplitJoin(lines, '\n');
  }

  /** The line of a section has no newline (titles and labels without one). */
  predicate NewlineFree(line: Option<string>) {
    line.Some? ==> '\n' !in line.value
  }
}
