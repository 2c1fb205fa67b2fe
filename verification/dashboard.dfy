/** The dashboard's rendering of a stored quotation (src/pages/website.jsx):
    `formatTableDetails` (lines 27-44) and the fallbacks of the grand-total
    and created-at cells (lines 87-89, 142, 151-153). */
module Dashboard {
  import opened Wrappers
  import opened Text
  import opened JsonValue

  /** The rule between two rendered rows. */
  const Dashes: string := "-----------------------------"

  const RowSeparator: string := "\n" + Dashes + "\n\n"

  /** The four labelled lines of one row; None when reading a field of a
      null row throws or a field cannot be written into the template. */
  function RowBlock(row: Json): Option<string>
  {
    if !Renderable(row) then None
    else Some("Item: " + TemplateStr(Prop(row, "item"))
              + "\nQuantity: " + TemplateStr(Prop(row, "qty"))
              + "\nPrice: " + TemplateStr(Prop(row, "price"))
              + "\nTotal: " + TemplateStr(Prop(row, "total")))
  }

  /** `parsed.map(row => ...).join(separator)`; None when it throws. */
  function RenderRows(parsed: Json): Option<string>
  {
    match parsed
    case JArray(rows) =>
      (match Traverse(rows, RowBlock)
       case Some(blocks) => Some(Join(blocks, RowSeparator))
       case None => None)
    case _ => None
  }

  /** `String(details).replace(/,/g, "\n")`. */
  function CommasToNewlines(s: string): (r: string)
    ensures |r| == |s|
    ensures ',' !in r
    ensures forall i :: 0 <= i < |s| ==> r[i] == (if s[i] == ',' then '\n' else s[i])
  {
    ReplaceAllPointwise(s, ',', '\n');
    ReplaceAll(s, ',', '\n')
  }

  /** A row the template can write: not null, and each of the four fields
      it reads is absent or printable. */
  predicate Renderable(row: Json) {
    && !row.JNull?
    && PrintableProp(Prop(row, "item"))
    && PrintableProp(Prop(row, "qty"))
    && PrintableProp(Prop(row, "price"))
    && PrintableProp(Prop(row, "total"))
  }

  /** A payload the row renderer can write: an array of renderable rows. */
  predicate RowList(parsed: Json) {
    parsed.JArray? && forall i :: 0 <= i < |parsed.elems| ==> Renderable(parsed.elems[i])
  }

  /** `formatTableDetails(details)`, given what `JSON.parse(details)` gave
      (None: it threw). It never throws: every failure inside the `try`
      lands in the comma-to-newline fallback. */
  function FormatTableDetails(details: Option<string>, parsed: Option<Json>): (shown: string)
    ensures !TruthyText(details) ==> shown == "N/A"
    ensures TruthyText(details) && parsed.Some? && RowList(parsed.value) ==> shown == RenderRows(parsed.value).value
    ensures TruthyText(details) && !(parsed.Some? && RowList(parsed.value)) ==> shown == CommasToNewlines(details.value)
  {
    RenderRowsSucceeds(parsed.GetOr(JNull));
    if !TruthyText(details) then "N/A"
    else
      var rendered := if parsed.Some? then RenderRows(parsed.value) else None;
      match rendered
      case Some(t) => t
      case None => CommasToNewlines(details.value)
  }

  /** The grand-total cell: `q.grand_total ? q.grand_total : "0.00"`. */
  function GrandTotalCell(grandTotal: Option<string>): (cell: string)
    ensures cell != ""
    ensures !TruthyText(grandTotal) ==> cell == "0.00"
    ensures TruthyText(grandTotal) ==> cell == grandTotal.value
  {
    if !TruthyText(grandTotal) then "0.00" else grandTotal.value
  }

  /** The created-at cell: the timestamp's locale rendering, or "N/A" when it
      is missing. `localized` stands for `new Date(t).toLocaleString()`. */
  function CreatedAtCell(createdAt: Option<string>, localized: string -> string): (cell: string)
    ensures !TruthyText(createdAt) ==> cell == "N/A"
    ensures TruthyText(createdAt) ==> cell == localized(createdAt.value)
  {
    if !TruthyText(createdAt) then "N/A" else localized(createdAt.value)
  }

  // ---------------------------------------------------------------------
  // What a rendered row looks like, stated independently
  // ---------------------------------------------------------------------

  /** The four lines a row shows, each label followed by the field's text. */
  function FieldLines(row: Json): (lines: seq<string>)
    requires Renderable(row)
  {
    [ "Item: " + TemplateStr(Prop(row, "item")),
      "Quantity: " + TemplateStr(Prop(row, "qty")),
      "Price: " + TemplateStr(Prop(row, "price")),
      "Total: " + TemplateStr(Prop(row, "total")) ]
  }

  /** The lines of a whole table: each row's four lines, consecutive rows
      parted by the dashed rule and an empty line. */
  function DisplayLines(rows: seq<Json>): seq<string>
    requires |rows| >= 1
    requires forall i :: 0 <= i < |rows| ==> Renderable(rows[i])
  {
    if |rows| == 1 then FieldLines(rows[0])
    else FieldLines(rows[0]) + [Dashes, ""] + DisplayLines(rows[1..])
  }

  /** None of a row's four field texts contains a newline. */
  predicate SingleLineFields(row: Json)
    requires Renderable(row)
  {
    && '\n' !in TemplateStr(Prop(row, "item"))
    && '\n' !in TemplateStr(Prop(row, "qty"))
    && '\n' !in TemplateStr(Prop(row, "price"))
    && '\n' !in TemplateStr(Prop(row, "total"))
  }

  // ---------------------------------------------------------------------
  // Lemmas
  // ---------------------------------------------------------------------

  /** Rendering succeeds exactly on arrays of renderable rows; an empty array
      renders as "". */
  lemma RenderRowsSucceeds(parsed: Json)
    ensures RenderRows(parsed).Some? <==> RowList(parsed)
    ensures parsed == JArray([]) ==> RenderRows(parsed) == Some("")
  {
  }

  /** One row shows as its four labelled lines. */
  lemma RowBlockLines(row: Json)
    requires Renderable(row)
    requires SingleLineFields(row)
    ensures Split(RowBlock(row).value, '\n') == FieldLines(row)
  {
    BlockJoinsFieldLines(row);
    FieldLinesSingle(row);
    SplitJoin(FieldLines(row), '\n');
  }

  lemma BlockJoinsFieldLines(row: Json)
    requires Renderable(row)
    ensures RowBlock(row) == Some(Join(FieldLines(row), "\n"))
  {
    var item, qty, price, total :=
      TemplateStr(Prop(row, "item")), TemplateStr(Prop(row, "qty")),
      TemplateStr(Prop(row, "price")), TemplateStr(Prop(row, "total"));
    JoinFour("Item: " + item, "Quantity: " + qty, "Price: " + price, "Total: " + total, "\n");
    assert "\nQuantity: " == "\n" + "Quantity: ";
    assert "\nPrice: " == "\n" + "Price: ";
    assert "\nTotal: " == "\n" + "Total: ";
    var upToItem := "Item: " + item;
    Regroup(upToItem, "Quantity: ", qty);
    var upToQty := upToItem + "\n" + ("Quantity: " + qty);
    Regroup(upToQty, "Price: ", price);
    var upToPrice := upToQty + "\n" + ("Price: " + price);
    Regroup(upToPrice, "Total: ", total);
  }

  lemma Regroup(s: string, caption: string, text: string)
    ensures s + ("\n" + caption) + text == s + "\n" + (caption + text)
  {
  }

  lemma FieldLinesSingle(row: Json)
    requires Renderable(row)
    requires SingleLineFields(row)
    ensures forall i :: 0 <= i < |FieldLines(row)| ==> '\n' !in FieldLines(row)[i]
  {
  }

  /** The lines of blocks joined by "\n" + rule + "\n\n": each block's own
      lines, consecutive blocks parted by the rule and an empty line. */
  function RuledLines(blocks: seq<string>, rule: string): seq<string>
    requires |blocks| >= 1
  {
    if |blocks| == 1 then Split(blocks[0], '\n')
    else Split(blocks[0], '\n') + [rule, ""] + RuledLines(blocks[1..], rule)
  }

  lemma {:induction false} SplitRuledJoin(blocks: seq<string>, rule: string)
    requires |blocks| >= 1
    requires '\n' !in rule
    ensures Split(Join(blocks, "\n" + rule + "\n\n"), '\n') == RuledLines(blocks, rule)
  {
    if |blocks| > 1 {
      var sep := "\n" + rule + "\n\n";
      SplitRuledJoin(blocks[1..], rule);
      var rest := Join(blocks[1..], sep);
      assert sep == ['\n'] + rule + ['\n'] + ['\n'];
      assert Join(blocks, sep) == blocks[0] + ['\n'] + (rule + ['\n'] + ("" + ['\n'] + rest));
      SplitAround(blocks[0], rule + ['\n'] + ("" + ['\n'] + rest), '\n');
      SplitAround(rule, "" + ['\n'] + rest, '\n');
      SplitAround("", rest, '\n');
      SplitFree(rule, '\n');
    }
  }

  /** Rows keep their order and are parted by the dashed rule: splitting the
      rendered table on "\n" gives exactly DisplayLines. */
  lemma {:induction false} RenderedTableLines(rows: seq<Json>)
    requires |rows| >= 1
    requires forall i :: 0 <= i < |rows| ==> Renderable(rows[i]) && SingleLineFields(rows[i])
    ensures RenderRows(JArray(rows)).Some?
    ensures Split(RenderRows(JArray(rows)).value, '\n') == DisplayLines(rows)
  {
    RenderRowsSucceeds(JArray(rows));
    var blocks := Traverse(rows, RowBlock).value;
    assert '\n' !in Dashes;
    SplitRuledJoin(blocks, Dashes);
    RuledDisplayLines(rows, blocks);
  }

  lemma {:induction false} RuledDisplayLines(rows: seq<Json>, blocks: seq<string>)
    requires |rows| >= 1 && |blocks| == |rows|
    requires forall i :: 0 <= i < |rows| ==> Renderable(rows[i]) && SingleLineFields(rows[i])
    requires forall i :: 0 <= i < |rows| ==> RowBlock(rows[i]) == Some(blocks[i])
    ensures RuledLines(blocks, Dashes) == DisplayLines(rows)
  {
    RowBlockLines(rows[0]);
    if |rows| > 1 {
      RuledDisplayLines(rows[1..], blocks[1..]);
    }
  }

  /** For text without newlines, the fallback turns the comma-separated
      pieces into lines. */
  lemma FallbackLines(s: string)
    requires '\n' !in s
    ensures Split(CommasToNewlines(s), '\n') == Split(s, ',')
  {
    SplitAfterReplace(s, ',', '\n');
  }

  /** The dashboard shows an empty cell exactly for a stored "[]". */
  lemma EmptyOnlyForEmptyArray(details: Option<string>, parsed: Option<Json>)
    ensures FormatTableDetails(details, parsed) == "" <==>
      TruthyText(details) && parsed == Some(JArray([]))
  {
    RenderRowsSucceeds(parsed.GetOr(JNull));
    if TruthyText(details) && parsed.Some? && RowList(parsed.value) && parsed.value.elems != [] {
      var blocks := Traverse(parsed.value.elems, RowBlock).value;
      assert RowBlock(parsed.value.elems[0]) == Some(blocks[0]);
      JoinHead(blocks, RowSeparator);
      var rest :| Join(blocks, RowSeparator) == blocks[0] + rest;
      assert |blocks[0]| > 0;
    }
  }
}
