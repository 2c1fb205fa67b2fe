# Quotation intake: table-details formatting and the submission handler

This project is a Dafny model of the core of a small quotation-intake tool. A
web form posts client details, a "table details" payload and a PDF to
`/send-email`. The server formats the payload into text, stores a quotation
row, and mails an internal notification and a client confirmation, each with
the PDF attached. An admin dashboard later shows the stored rows.

The model covers four things:

- the server's table-details formatter (`backend/server.js`, lines 99-117). A JSON list of sections
  `{title, items}` becomes one line per section, `<title>: <labels joined by ", ">`.
  The lines are joined by `"\n"`. Anything that throws falls back to the raw field.
- the upload stage and handler of `/send-email`: the PDF-only file filter, the stored
  file name, the required-field gate, the row handed to the database, and the fixed
  sequence of external steps, each with its success or failure as an input.
- the dashboard's `formatTableDetails` (`src/pages/website.jsx`, lines 27-44): `"N/A"` for a missing
  value, a labelled block per `{item, qty, price, total}` row, and otherwise the text with
  every comma turned into a line break. It also covers the grand-total and created-at cell fallbacks.
- cross-file lemmas about what the dashboard shows for the text the server stored.

Modules, one file each:

| file | module | models |
|---|---|---|
| `wrappers.dfy` | `Wrappers` | `Option` (`undefined` / "threw"), `Traverse` = a `.map` whose callback may throw |
| `text.dfy` | `Text` | `join`, `split`, `replace(/c/g, …)`, decimal rendering, and the lemmas linking them |
| `json_value.dfy` | `JsonValue` | the `Json` value `JSON.parse` returns; JavaScript truthiness, property reads, `String()` |
| `section_format.dfy` | `SectionFormat` | the server's formatter and its fallback |
| `submission.dfy` | `Submission` | upload stage, gate, insert values, handler outcome |
| `dashboard.dfy` | `Dashboard` | `formatTableDetails` and the two cell fallbacks |
| `pipeline.dfy` | `Pipeline` | server output read back by the dashboard |

Some steps are outside the model and become inputs:

- `JSON.parse` is given as `parsed: Option<Json>`; `None` means it threw.
- `parseFloat` is given as `Option<real>`; `None` means NaN.
- `Date.now()` and the random draw are given as two naturals.
- `toLocaleString` is given as a function parameter.
- Each external step (DB insert, admin mail, client mail, unlink) is given as a boolean outcome.
- The stored `table_details`, `grand_total` and `created_at` columns reach the page as text or as absent
  (null or undefined). For `grand_total` this assumes the database driver returns the DECIMAL column as a
  string. A driver that returned the number `0` would make the page show `"0.00"` where the model, given `"0"`, shows `"0"`.

A JSON number is kept as the text JavaScript's `String()` gives it. It is falsy exactly when
that text is `"0"`. A JSON object is a map, since `JSON.parse` keeps the last of repeated keys.
`JSON.parse` makes every key an own property. So an object with a `"toString"` key has a `toString`
that is not a function, and converting it to a string throws (`JsonValue.Printable`). A template
literal or `join` meeting such a value throws, and both formatters then take their fallback.

Three behaviours of the code are worth stating plainly:

- On a failed parse the server stores the raw field unchanged, or `""` when the field is absent.
  Only the dashboard turns commas into line breaks (`SectionFormat.TableDetailsText`, `Dashboard.FormatTableDetails`).
- `parseFloat(x) || 0` maps only NaN to 0, so a negative total is stored as it is (`Submission.CoerceTotal`).
- A 400 answer leaves an uploaded PDF on disk, and so does a failed mail or unlink (`Submission.Handle`, `fileLeft`).

## Model

| member | source | states |
|---|---|---|
| Wrappers.Traverse | backend/server.js:103-114 | a `.map` whose callback may throw succeeds exactly when every element succeeds; the results then keep length and order, one per element |
| SectionFormat.ItemLabel | backend/server.js:107-111 | an object item's label is the first truthy of `name`, `title`, `label`, else `""`; an array item gives `""`; a scalar is its own label; a null item throws |
| SectionFormat.SectionLineSpec | backend/server.js:105-112 | a section yields a line exactly when it is an object whose title, if present, can be written, and whose `items` is an array without nulls whose labels can be written (an object with a `"toString"` key cannot); the line is the title, `": "`, and the item labels in item order joined by `", "` |
| SectionFormat.FormatSectionsSucceeds | backend/server.js:101-114 | formatting succeeds exactly on an array of such sections (a non-array, a missing or non-array `items`, a null item, or a title or label that cannot be written throws); the empty list gives `""` |
| SectionFormat.OneLinePerSection | backend/server.js:103-114 | for a list of sections the formatter can write (titles and labels without a `"toString"` key) whose lines hold no newline, splitting the output on `"\n"` gives exactly one piece per section, in input order, equal to that section's line |
| SectionFormat.TableDetailsText | backend/server.js:99-117 | the stored text is the formatted text when the payload is a non-empty field that parses to a list of sections the formatter can write, and otherwise the raw field unchanged (commas kept), or `""` when it is absent |
| Submission.StoredName | backend/server.js:69-72 | the stored file name always ends with the client's file name |
| Submission.StoredNameRoundTrip | backend/server.js:70-71 | the client's file name is recovered from the stored name as what follows the second `-`, since the generated prefix is digits and one dash |
| Submission.ReceiveUpload | backend/server.js:75-78 | a file part is refused exactly when its MIME type is not `application/pdf`; an accepted part is stored under a name that gives back its original name, inside the upload directory |
| Submission.StoredMessage | backend/server.js:127 | the stored message is `""` exactly when no non-empty message was sent, and the message itself otherwise |
| Submission.CoerceTotal | backend/server.js:119 | a NaN total is stored as 0 and every other parsed number unchanged, negatives included |
| Submission.InsertValues | backend/server.js:99-127 | the row carries the submitted name, email and phone; the message when one was given and `""` otherwise; the section-formatted details for a non-empty field that parses to a list of sections whose titles and labels can be written, otherwise the raw field or `""`; the parsed total, or 0 for NaN |
| Submission.Handle | backend/server.js:88-190 | 400, with no step started and no row, exactly when name, email, phone or file is missing or empty; otherwise the steps started are insert, admin mail, client mail, unlink in that order, stopping after the first mail that fails; 200 exactly when both mails and the unlink succeed, and the file is left on disk exactly when the answer is not 200 |
| Submission.Process | backend/server.js:75-96 | a non-PDF part is refused before the handler runs, with no step started; otherwise the request is answered 400 exactly when a required field or the file is missing |
| Submission.InsertResultIgnored | backend/server.js:129-132 | the database insert's result changes neither the response nor the steps started nor the file's fate |
| Submission.OkWithoutRow | backend/server.js:129-182 | a 200 can be returned for a quotation whose row was never saved |
| Dashboard.FormatTableDetails | src/pages/website.jsx:27-44 | a falsy value shows `"N/A"`; an array of non-null rows whose four fields can be written shows the rendered rows; anything else, a row field with a `"toString"` key included, shows the text with commas turned into line breaks; it is total, so it never throws |
| Dashboard.CommasToNewlines | src/pages/website.jsx:41-42 | the fallback keeps the length, has no comma, and matches the input at every position except that each comma becomes `"\n"` |
| Dashboard.FallbackLines | src/pages/website.jsx:42 | for text without line breaks, the lines of the fallback are exactly the comma-separated pieces of the input |
| Dashboard.RenderRowsSucceeds | src/pages/website.jsx:30-40 | rendering succeeds exactly on arrays of non-null rows whose `item`, `qty`, `price` and `total` are absent or can be written; an empty array renders as `""` |
| Dashboard.RowBlockLines | src/pages/website.jsx:33-38 | a row whose four fields can be written and hold no line break shows as the four lines `Item: i`, `Quantity: q`, `Price: p`, `Total: t` |
| Dashboard.RenderedTableLines | src/pages/website.jsx:32-40 | for rows that can be rendered, the table's lines are each row's four lines in input order, consecutive rows parted by the 29-dash rule and an empty line |
| Dashboard.EmptyOnlyForEmptyArray | src/pages/website.jsx:28-43 | the details cell is empty exactly when the stored text is non-empty and parses to an empty array |
| Dashboard.GrandTotalCell | src/pages/website.jsx:142 | a falsy grand total shows `"0.00"`, any other value shows as stored; the cell is never empty |
| Dashboard.CreatedAtCell | src/pages/website.jsx:151-153 | a missing timestamp shows `"N/A"`, any other its locale rendering (the same rule as the export at lines 87-89) |
| Pipeline.SectionedTextShownAsPlainText | src/pages/website.jsx:30-43 | sectioned text stored by the server (every title and label can be written), whose first title does not open with `[`, cannot parse as an array, so the dashboard shows it with commas turned into line breaks |
| Pipeline.RowTableStoredVerbatim | backend/server.js:115-116 | row-shaped JSON (rows that can be rendered, not a list of sections) is stored verbatim, and the dashboard then renders its rows |
| Pipeline.UnprintableLabelStoredRaw | backend/server.js:101-116 | for `[{"title":"T","items":[{"name":{"toString":1}}]}]` formatting throws and the raw field is stored |
| Pipeline.UnprintableFieldFallsBack | src/pages/website.jsx:30-42 | for `[{"item":{"toString":1}}]` the row template throws and the dashboard shows the text with commas turned into line breaks |
| Pipeline.EmptyDetailsShowNA | src/pages/website.jsx:28 | an absent details field, or an empty section list, is stored as `""` and shown as `"N/A"` |
| Pipeline.BasicExample | backend/server.js:101-114 | the payload `[{"title":"Basic","items":["Logo","Banner"]}]` is stored as `Basic: Logo, Banner` and shown as `Basic: Logo` / ` Banner` |

## Left out

- Express routing, CORS, environment configuration and server start (`backend/server.js`, lines 1-49 and 230-234): framework wiring.
- `/users`, `/api/login` and `/api/quotations` (`backend/server.js`, lines 51-58 and 192-228): the behaviour lives in SQL, the database driver and the token library.
- The mail transport and the mail bodies (`backend/server.js`, lines 135-176). The model keeps each mail's recipient and attachment path; the HTML and text templates are left out.
- `JSON.parse`, `parseFloat`, `toFixed` and `toLocaleString`: parsing, floating point and locale formatting. Their results are inputs, as described above.
- multer's disk storage and the creation of `uploads/` (`backend/server.js`, lines 61-68). The stored path is the directory, `/`, and the file name; `path.join` normalisation is left out.
- A file sent under a field other than `pdf`, and repeated form fields that would arrive as arrays: multer and body-parser behaviour outside these lines.
- Submission.Process: says nothing about the HTTP answer to a refused upload; Express's error handling chooses it, outside these files.
- The insert is started without being awaited. Its callback may run after the mails. The model records only whether it succeeded, since the response never depends on it.
- React state, data fetching, and the spreadsheet workbook and its styling (`src/pages/website.jsx`, lines 6-22, 50-106 and 108-163): UI and foreign libraries.
- Pipeline.SectionedTextShownAsPlainText: assumes, rather than proves, the one fact about JSON's grammar it needs: a text that parses to an array starts with `[` after whitespace. `JSON.parse` is not modelled.
