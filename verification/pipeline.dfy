/** What the dashboard shows for the text the server stored: the server's
    formatter (backend/server.js, lines 99-117) feeds the dashboard's
    (src/pages/website.jsx, lines 27-44) through the `table_details` column. */
module Pipeline {
  import opened Wrappers
  import opened Text
  import opened JsonValue
  import opened SectionFormat
  import opened Dashboard

  /** The one fact about `JSON.parse` these lemmas rely on: by JSON's grammar,
      a text that parses to an array has '[' as its first non-whitespace
      character. */
  predicate ArrayParseSound(text: string, parsed: Option<Json>) {
    parsed.Some? && parsed.value.JArray? ==> FirstSignificant(text) == Some('[')
  }

  /** Sectioned text does not come back as rows: when the first title does
      not itself open with '[', the stored lines cannot parse to an array, so
      the dashboard shows them with every comma turned into a line break. */
  lemma SectionedTextShownAsPlainText(raw: string, sections: seq<Json>, reparsed: Option<Json>)
    requires raw != ""
    requires Sectioned(JArray(sections))
    requires |sections| >= 1
    requires FirstSignificant(TitleText(sections[0])) != Some('[')
    requires ArrayParseSound(TableDetailsText(Some(raw), Some(JArray(sections))), reparsed)
    ensures TableDetailsText(Some(raw), Some(JArray(sections))) != ""
    ensures FormatTableDetails(Some(TableDetailsText(Some(raw), Some(JArray(sections)))), reparsed)
      == CommasToNewlines(TableDetailsText(Some(raw), Some(JArray(sections))))
  {
    SectionedTextLead(sections);
  }

  /** The stored text of a non-empty section list starts where its first
      title starts, or at the ": " after it. */
  lemma SectionedTextLead(sections: seq<Json>)
    requires Sectioned(JArray(sections))
    requires |sections| >= 1
    requires FirstSignificant(TitleText(sections[0])) != Some('[')
    ensures FormatSections(JArray(sections)).Some?
    ensures FirstSignificant(FormatSections(JArray(sections)).value).Some?
    ensures FirstSignificant(FormatSections(JArray(sections)).value) != Some('[')
  {
    FormatSectionsSucceeds(JArray(sections));
    var stored := FormatSections(JArray(sections)).value;
    var lines := Traverse(sections, SectionLine).value;
    SectionLineSpec(sections[0]);
    var labels := Join(LabelsInOrder(sections[0].fields["items"].elems), ", ");
    var title := TitleText(sections[0]);
    assert lines[0] == title + ": " + labels;
    JoinHead(lines, "\n");
    var rest :| stored == lines[0] + rest;
    assert stored == title + ((": " + labels) + rest);
    FirstSignificantAppend(title, (": " + labels) + rest);
    ColonLeads((labels) + rest);
    assert ": " + labels + rest == ": " + (labels + rest);
  }

  lemma ColonLeads(s: string)
    ensures FirstSignificant(": " + s) == Some(':')
  {
    assert (": " + s)[0] == ':';
  }

  /** Row-shaped JSON (an array of non-null rows that is not a list of
      sections) is stored verbatim, and the dashboard then renders its rows. */
  lemma RowTableStoredVerbatim(raw: string, rows: seq<Json>)
    requires RowList(JArray(rows))
    requires !Sectioned(JArray(rows))
    requires ArrayParseSound(raw, Some(JArray(rows)))
    ensures TableDetailsText(Some(raw), Some(JArray(rows))) == raw
    ensures FormatTableDetails(Some(raw), Some(JArray(rows))) == RenderRows(JArray(rows)).value
  {
    assert raw != "";
  }

  /** An empty section list is stored as "", which the dashboard shows as
      "N/A"; so is a submission without the field. */
  lemma EmptyDetailsShowNA(raw: Option<string>, parsed: Option<Json>, reparsed: Option<Json>)
    requires raw.None? || parsed == Some(JArray([]))
    ensures TableDetailsText(raw, parsed) == ""
    ensures FormatTableDetails(Some(TableDetailsText(raw, parsed)), reparsed) == "N/A"
  {
    FormatSectionsSucceeds(JArray([]));
  }

  /** `{"toString":1}`: an object `String()` throws on. */
  const ToStringObject: Json := JObject(map["toString" := JNumber("1")])

  /** A section list whose one item is labelled by an object with a
      "toString" key: the label's `join` throws, so the server stores the
      raw field, as for any payload that is not a section list. */
  lemma UnprintableLabelStoredRaw(raw: string)
    requires raw != ""
    ensures var parsed := JArray([JObject(map["title" := JString("T"),
                                              "items" := JArray([JObject(map["name" := ToStringObject])])])]);
            FormatSections(parsed).None? && TableDetailsText(Some(raw), Some(parsed)) == raw
  {
    var item := JObject(map["name" := ToStringObject]);
    var section := JObject(map["title" := JString("T"), "items" := JArray([item])]);
    assert "toString" in ToStringObject.fields;
    assert ItemLabel(item) == Some(ToStringObject);
    assert [item][0] == item;
    SectionLineSpec(section);
    FormatSectionsSucceeds(JArray([section]));
  }

  /** A row whose `item` is an object with a "toString" key: the template
      literal throws, so the dashboard shows the text with commas turned
      into line breaks. */
  lemma UnprintableFieldFallsBack(details: string)
    requires details != ""
    ensures FormatTableDetails(Some(details), Some(JArray([JObject(map["item" := ToStringObject])])))
      == CommasToNewlines(details)
  {
    var row := JObject(map["item" := ToStringObject]);
    assert "toString" in ToStringObject.fields;
    assert Prop(row, "item") == Some(ToStringObject);
    assert JArray([row]).elems[0] == row;
  }

  /** A worked example: one section "Basic" with items "Logo" and
      "Banner" is stored as "Basic: Logo, Banner" and shown as two lines. */
  lemma BasicExample(reparsed: Option<Json>)
    requires ArrayParseSound(BasicStoredText, reparsed)
    ensures TableDetailsText(Some(BasicRaw), Some(BasicParsed)) == BasicStoredText
    ensures FormatTableDetails(Some(BasicStoredText), reparsed) == BasicShownText
  {
    BasicStored();
    BasicShown();
    BasicPieces();
  }

  const BasicStoredText: string := "Basic: Logo, Banner"

  const BasicShownText: string := "Basic: Logo\n Banner"

  const BasicRaw: string := "[{\"title\":\"Basic\",\"items\":[\"Logo\",\"Banner\"]}]"

  /** What `JSON.parse(BasicRaw)` returns. */
  const BasicParsed: Json :=
    JArray([JObject(map["title" := JString("Basic"),
                        "items" := JArray([JString("Logo"), JString("Banner")])])])

  lemma BasicStored()
    ensures TableDetailsText(Some(BasicRaw), Some(BasicParsed)) == "Basic: Logo, Banner"
  {
    var section := BasicParsed.elems[0];
    BasicSectionParts();
    SectionLineSpec(section);
    assert SectionLine(section) == Some("Basic: Logo, Banner");
    FormatSectionsSucceeds(BasicParsed);
    var lines := Traverse(BasicParsed.elems, SectionLine).value;
    assert lines == ["Basic: Logo, Banner"] by {
      assert SectionLine(BasicParsed.elems[0]) == Some(lines[0]);
    }
  }

  lemma BasicSectionParts()
    ensures Shaped(BasicParsed.elems[0])
    ensures TitleText(BasicParsed.elems[0]) == "Basic"
    ensures Join(LabelsInOrder(BasicParsed.elems[0].fields["items"].elems), ", ") == "Logo, Banner"
    ensures "Basic" + ": " + "Logo, Banner" == "Basic: Logo, Banner"
  {
    var items := BasicParsed.elems[0].fields["items"].elems;
    assert items == [JString("Logo"), JString("Banner")];
    assert LabelsInOrder(items) == ["Logo", "Banner"];
    assert ["Logo", "Banner"][1..] == ["Banner"];
  }

  lemma BasicShown()
    ensures CommasToNewlines("Basic: Logo, Banner") == "Basic: Logo\n Banner"
  {
    BasicPieces();
    CommaToNewline("Basic: Logo", " Banner");
  }

  lemma BasicPieces()
    ensures "Basic: Logo, Banner" == "Basic: Logo" + [','] + " Banner"
    ensures "Basic: Logo" + ['\n'] + " Banner" == "Basic: Logo\n Banner"
    ensures ',' !in "Basic: Logo" && ',' !in " Banner"
    ensures FirstSignificant(BasicStoredText) == Some('B')
  {
  }

  /** Two comma-free pieces around one comma become two lines. */
  lemma CommaToNewline(head: string, tail: string)
    requires ',' !in head && ',' !in tail
    ensures CommasToNewlines(head + [','] + tail) == head + ['\n'] + tail
  {
    ReplaceAllAppend(head + [','], tail, ',', '\n');
    ReplaceAllAppend(head, [','], ',', '\n');
    ReplaceAllFree(head, ',', '\n');
    ReplaceAllFree(tail, ',', '\n');
    assert ReplaceAll([','], ',', '\n') == ['\n'];
  }
}
