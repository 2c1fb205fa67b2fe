/** The `/send-email` route (backend/server.js, lines 60-190): the upload
    stage (file filter and stored file name), the required-field gate, the
    row handed to the database, and the fixed sequence of external steps,
    each of whose success or failure is an input. */
module Submission {
  import opened Wrappers
  import opened Text
  import opened JsonValue
  import SectionFormat

  /** The only MIME type the upload accepts. */
  const PdfMime: string := "application/pdf"

  /** The fixed recipient of the internal notification. */
  const AdminAddress: string := "info@aspireths.com"

  /** The file part of the multipart request (field `pdf`) before it is stored. */
  datatype FilePart = FilePart(originalName: string, mimetype: string)

  /** The stored upload as the handler sees it in `req.file`. */
  datatype StoredFile = StoredFile(filename: string, path: string)

  /** What the upload stage produces: no file part, a stored file, or a
      refusal by the file filter (the route handler then never runs). */
  datatype Upload = NoFile | Stored(file: StoredFile) | Refused

  /** The text form fields; None is a field that was not sent. The
      `grandTotal` field reaches the model only through what `parseFloat`
      made of it (see CoerceTotal). */
  datatype Form = Form(
    name: Option<string>,
    email: Option<string>,
    phone: Option<string>,
    message: Option<string>,
    tableDetails: Option<string>)

  /** The values bound to the INSERT statement, in column order. */
  datatype QuotationRow = QuotationRow(
    name: string,
    email: string,
    phone: string,
    message: string,
    tableDetails: string,
    grandTotal: real)

  /** An external step the handler starts. */
  datatype Effect =
    | Insert(row: QuotationRow)
    | MailAdmin(to: string, attachment: string)
    | MailClient(to: string, attachment: string)
    | Unlink(path: string)

  /** Whether each external step succeeds when it is started. */
  datatype StepResults = StepResults(insertOk: bool, adminMailOk: bool, clientMailOk: bool, unlinkOk: bool)

  datatype Status = Ok200 | BadRequest400 | ServerError500 | UploadRefused

  /** The response, the steps started in order, whether the row was saved,
      and whether the uploaded file is still on disk afterwards. */
  datatype Outcome = Outcome(status: Status, effects: seq<Effect>, rowSaved: bool, fileLeft: bool)

  // ---------------------------------------------------------------------
  // Upload stage
  // ---------------------------------------------------------------------

  /** `fileFilter`: a part is accepted exactly when its MIME type is PDF. */
  function FileFilter(mimetype: string): (accept: bool)
  {
    mimetype == PdfMime
  }

  /** The `filename` callback: `Date.now() + "-" + Math.round(Math.random() * 1e9)`,
      then "-" and the client's file name. `stamp` and `draw` stand for the
      clock reading and the rounded random draw. */
  function StoredName(stamp: nat, draw: nat, originalName: string): (name: string)
    ensures |originalName| < |name|
    ensures name[|name| - |originalName|..] == originalName
  {
    NatStr(stamp) + "-" + NatStr(draw) + "-" + originalName
  }

  /** The client's file name read back from a stored name: what follows the
      second "-". */
  function OriginalName(stored: string): Option<string>
  {
    match AfterFirst(stored, '-')
    case None => None
    case Some(rest) => AfterFirst(rest, '-')
  }

  /** multer's handling of the `pdf` part: the filter runs first, and only an
      accepted part is written under its generated name in `uploadDir`. */
  function ReceiveUpload(part: Option<FilePart>, uploadDir: string, stamp: nat, draw: nat): (u: Upload)
    ensures u.NoFile? <==> part.None?
    ensures u.Refused? <==> part.Some? && part.value.mimetype != PdfMime
    ensures u.Stored? ==> OriginalName(u.file.filename) == Some(part.value.originalName)
    ensures u.Stored? ==> u.file.path == uploadDir + "/" + u.file.filename
  {
    match part
    case None => NoFile
    case Some(p) =>
      if FileFilter(p.mimetype) then
        var name := StoredName(stamp, draw, p.originalName);
        StoredNameRoundTrip(stamp, draw, p.originalName);
        Stored(StoredFile(name, uploadDir + "/" + name))
      else Refused
  }

  // ---------------------------------------------------------------------
  // Handler
  // ---------------------------------------------------------------------

  /** The gate of lines 92-96. */
  predicate Complete(form: Form, file: Option<StoredFile>) {
    TruthyText(form.name) && TruthyText(form.email) && TruthyText(form.phone) && file.Some?
  }

  /** `message || ""`. */
  function StoredMessage(message: Option<string>): (m: string)
    ensures m == "" <==> !TruthyText(message)
    ensures TruthyText(message) ==> m == message.value
  {
    if TruthyText(message) then message.value else ""
  }

  /** `parseFloat(grandTotal) || 0`, given what `parseFloat` returned (None
      for NaN). Only NaN is changed: the `|| 0` maps 0 to 0 and leaves every
      other number, negative ones included, as it is. */
  function CoerceTotal(parsed: Option<real>): (total: real)
    ensures parsed.None? ==> total == 0.0
    ensures parsed.Some? ==> total == parsed.value
  {
    if parsed.Some? && parsed.value != 0.0 then parsed.value else 0.0
  }

  /** The row bound to the INSERT of lines 122-127. */
  function InsertValues(form: Form, parsedDetails: Option<Json>, parsedTotal: Option<real>): (row: QuotationRow)
    requires TruthyText(form.name) && TruthyText(form.email) && TruthyText(form.phone)
    ensures row.name == form.name.value && row.email == form.email.value && row.phone == form.phone.value
    ensures row.message == "" <==> !TruthyText(form.message)
    ensures TruthyText(form.message) ==> row.message == form.message.value
    ensures !TruthyText(form.tableDetails) ==> row.tableDetails == ""
    ensures TruthyText(form.tableDetails) && parsedDetails.Some? && SectionFormat.Sectioned(parsedDetails.value) ==>
      row.tableDetails == SectionFormat.FormatSections(parsedDetails.value).value
    ensures !(parsedDetails.Some? && SectionFormat.Sectioned(parsedDetails.value)) ==>
      row.tableDetails == form.tableDetails.GetOr("")
    ensures parsedTotal.None? ==> row.grandTotal == 0.0
    ensures parsedTotal.Some? ==> row.grandTotal == parsedTotal.value
  {
    QuotationRow(
      form.name.value, form.email.value, form.phone.value,
      StoredMessage(form.message),
      SectionFormat.TableDetailsText(form.tableDetails, parsedDetails),
      CoerceTotal(parsedTotal))
  }

  /** The steps an accepted submission starts, in the order the handler
      starts them. */
  function PlannedEffects(form: Form, file: StoredFile, parsedDetails: Option<Json>, parsedTotal: Option<real>): seq<Effect>
    requires TruthyText(form.name) && TruthyText(form.email) && TruthyText(form.phone)
  {
    [ Insert(InsertValues(form, parsedDetails, parsedTotal)),
      MailAdmin(AdminAddress, file.path),
      MailClient(form.email.value, file.path),
      Unlink(file.path) ]
  }

  /** The handler body of lines 89-189. The insert is started and not
      awaited: its result only reaches a log line. Each awaited mail and the
      unlink throw on failure, and the catch answers 500 without removing the
      file. */
  function Handle(form: Form, file: Option<StoredFile>, parsedDetails: Option<Json>,
                  parsedTotal: Option<real>, steps: StepResults): (out: Outcome)
    ensures out.status != UploadRefused
    ensures out.status == BadRequest400 <==> !Complete(form, file)
    ensures out.status == BadRequest400 ==> out.effects == [] && !out.rowSaved && (out.fileLeft <==> file.Some?)
    ensures out.status == Ok200 <==>
      Complete(form, file) && steps.adminMailOk && steps.clientMailOk && steps.unlinkOk
    ensures out.status == Ok200 ==> !out.fileLeft
    ensures Complete(form, file) && !(steps.adminMailOk && steps.clientMailOk) ==>
      out.status == ServerError500 && out.fileLeft && |out.effects| < 4
    ensures Complete(form, file) ==>
      && |out.effects| == (if !steps.adminMailOk then 2 else if !steps.clientMailOk then 3 else 4)
      && out.effects == PlannedEffects(form, file.value, parsedDetails, parsedTotal)[..|out.effects|]
    ensures Complete(form, file) ==> (out.fileLeft <==> out.status != Ok200)
    ensures out.rowSaved <==> Complete(form, file) && steps.insertOk
  {
    if !Complete(form, file) then
      Outcome(BadRequest400, [], false, file.Some?)
    else
      var planned := PlannedEffects(form, file.value, parsedDetails, parsedTotal);
      if !steps.adminMailOk then Outcome(ServerError500, planned[..2], steps.insertOk, true)
      else if !steps.clientMailOk then Outcome(ServerError500, planned[..3], steps.insertOk, true)
      else if !steps.unlinkOk then Outcome(ServerError500, planned, steps.insertOk, true)
      else Outcome(Ok200, planned, steps.insertOk, false)
  }

  /** A whole request: the upload stage, then the handler if the upload was
      not refused. */
  function Process(form: Form, part: Option<FilePart>, uploadDir: string, stamp: nat, draw: nat,
                   parsedDetails: Option<Json>, parsedTotal: Option<real>, steps: StepResults): (out: Outcome)
    ensures out.status == UploadRefused <==> part.Some? && part.value.mimetype != PdfMime
    ensures out.status == UploadRefused ==> out.effects == [] && !out.rowSaved && !out.fileLeft
    ensures out.status == BadRequest400 <==>
      (part.None? || part.value.mimetype == PdfMime)
      && !(TruthyText(form.name) && TruthyText(form.email) && TruthyText(form.phone) && part.Some?)
    ensures out.status == BadRequest400 ==> out.effects == [] && !out.rowSaved
  {
    match ReceiveUpload(part, uploadDir, stamp, draw)
    case Refused => Outcome(UploadRefused, [], false, false)
    case NoFile => Handle(form, None, parsedDetails, parsedTotal, steps)
    case Stored(f) => Handle(form, Some(f), parsedDetails, parsedTotal, steps)
  }

  // ---------------------------------------------------------------------
  // Lemmas
  // ---------------------------------------------------------------------

  /** The client's file name survives in the stored name and can be read
      back from it, since the generated prefix is digits and dashes. */
  lemma StoredNameRoundTrip(stamp: nat, draw: nat, originalName: string)
    ensures OriginalName(StoredName(stamp, draw, originalName)) == Some(originalName)
  {
    var a, b := NatStr(stamp), NatStr(draw);
    assert '-' !in a && '-' !in b by {
      assert !IsDigit('-');
    }
    assert StoredName(stamp, draw, originalName) == a + ['-'] + (b + ['-'] + originalName);
    AfterFirstPrefix(a, b + ['-'] + originalName, '-');
    AfterFirstPrefix(b, originalName, '-');
  }

  /** The insert's result never changes the response, the steps started, or
      the file's fate; it only decides whether the row exists. */
  lemma InsertResultIgnored(form: Form, file: Option<StoredFile>, parsedDetails: Option<Json>,
                            parsedTotal: Option<real>, steps: StepResults)
    ensures var a := Handle(form, file, parsedDetails, parsedTotal, steps.(insertOk := true));
            var b := Handle(form, file, parsedDetails, parsedTotal, steps.(insertOk := false));
            a.status == b.status && a.effects == b.effects && a.fileLeft == b.fileLeft
  {
  }

  /** A 200 can go with a row that was never saved: the mails report
      success for a quotation the database does not hold. */
  lemma OkWithoutRow(form: Form, file: StoredFile, parsedDetails: Option<Json>, parsedTotal: Option<real>)
    requires Complete(form, Some(file))
    ensures var out := Handle(form, Some(file), parsedDetails, parsedTotal, StepResults(false, true, true, true));
            out.status == Ok200 && !out.rowSaved
  {
  }
}
