# Frappe report rendering and document push, modelled in Dafny

Two Odoo add-ons delegate work to a Frappe server over its REST API:

* the **report renderer** (`ir.actions.report` with report type `frappe`)
  creates one remote document per record, picks a print designer, builds a
  print URL, fetches the PDF and optionally deletes the remote documents;
* the **push service** (`push.to.frappe`) posts documents to a remote doctype
  and answers with a success notification listing what was created.

The model replaces every HTTP request by an entry in a request trace
(`Remote.Call`: lookup, post, fetch, delete) and every server reply by an
input value. Each operation returns a `Remote.Run`: the requests it issued, in
order, and its result or error. This lets the contracts speak about which
requests happen, in which order, and which do not happen at all.

Files and modules:

* `base.dfy` (`Base`): `Option`, `Result`, the error kinds, Python truthiness.
* `text.dfy` (`Text`): joining with and splitting at `", "`, the `'` to `"` replacement, splitting a
  `key=value` fragment, character counting.
* `remote.dfy` (`Remote`): requests, traces, the shared "one request per item,
  abort at the first failing reply" loop, and the phase order of a trace.
* `connection.dfy` (`Connection`): the check of the two system parameters.
* `report.dfy` (`Report`): print parameters, print URL, creation, deletion, rendering.
* `push.dfy` (`Push`): the push loop, the summary message and the notification.

`_render_frappe` prepares the print parameters before it creates any remote
document, so a refused weasyprint batch creates nothing. A failed deletion
after the PDF fetch raises, so the fetched PDF is discarded.

## Model

| member | source | states |
|---|---|---|
| Connection.Resolve | models/ir_report.py:28-34 | A connection exists exactly when both the auth token and the server URL are present and non-empty; otherwise the error is the configuration error (the same check opens `push`). |
| Report.ChooseDesigner | models/ir_report.py:80-93 | The designer is weasyprint exactly when a print format is set, the lookup reply has no exception and its first row has the builder-beta flag; it is print_format exactly when no print format is set or the lookup returned rows without the flag first; a lookup exception or a reply without data aborts with that error. |
| Report.PreparePrintParams | models/ir_report.py:79-103 | The lookup request is issued exactly when a print format is set; the weasyprint designer with more than one record is refused; on success the designer is the chosen one, the method is always download_multi_pdf, the format fragment matches the designer and the letterhead is the configured one or empty. |
| Report.FormatParamDecodes | models/ir_report.py:98-100 | Read back as a query parameter, the format fragment has key `format` and value the print format or `Standard` for the print_format designer, and key `print_format` with the print format for weasyprint. |
| Report.PrintUrl | models/ir_report.py:106-116 | The print URL contains no single-quote character. |
| Report.PrintUrlLayout | models/ir_report.py:106-116 | The print URL is, in order, the server URL, `/api/method/frappe.utils.`, the designer, the method (download_pdf exactly for one document, else the method passed in), the doctype, the single id or the list of ids, the format fragment and the letterhead, each value with `'` replaced by `"`. |
| Report.ListReprIsDoubleQuoted | models/ir_report.py:110-116 | After the quote replacement, the rendered list of several (or zero) ids is the ids in order between brackets, separated by `, `, each between double quotes with its own single quotes turned into double quotes. |
| Report.ReadCreated | models/ir_report.py:73-75 | A creation reply yields a name exactly when it has no exception and carries a name; an exception aborts with that exception. |
| Report.CreateDocs | models/ir_report.py:62-76 | Requests are posts of the payloads in order to the doctype's collection; success exactly when every reply names its document, and then one name per record in record order; on failure only the records up to and including the first failing one are posted and its error is raised. |
| Report.ReadDeleted | models/ir_report.py:123-125 | A deletion reply fails exactly when it carries an exception, with that exception. |
| Report.DeleteDocs | models/ir_report.py:119-125 | Without the delete flag no request is issued; with it one delete per created document in order, stopping at the first reply with an exception, which is raised. |
| Report.Render | models/ir_report.py:26-45 | A missing or empty token or server URL fails before any request; a successful render returns the fetched PDF. |
| Report.RenderPhased | models/ir_report.py:39-45 | The requests of a render come in phase order: lookup, creations, PDF fetch, deletions. |
| Report.RenderSucceedsWhen | models/ir_report.py:26-45 | A render succeeds exactly when the configuration is set, the print parameters can be prepared, every creation reply names its document, and with the delete flag no deletion reply has an exception. |
| Report.RenderRequestCounts | models/ir_report.py:39-45 | A successful render issues one lookup exactly when a print format is set, one post per record, one PDF fetch, and one delete per record exactly when the delete flag is set. |
| Report.RenderPosts | models/ir_report.py:67-72 | A successful render posts, right after the optional print-format lookup, one document per record in record order, each the mapper's payload for its record, to `<server URL>/api/resource/<doctype>`. |
| Report.RenderDeletesAfterFetch | models/ir_report.py:40-44 | Deletions only follow the PDF fetch: a render with no fetch in its trace (one that fails on configuration, print parameters or a creation) deletes nothing and leaves the created documents; without the delete flag nothing is deleted. |
| Report.RenderDeleteTargets | models/ir_report.py:40-44 | When a render deletes, every creation succeeded and its k deletions close the trace: the deletes of the first k created documents in record order, each addressed to `<server URL>/api/resource/<doctype>/<name>` with the name the server gave it. |
| Report.DeleteDocsPrefix | models/ir_report.py:119-125 | The deletions issued are exactly the delete requests of a prefix of the created names, in order. |
| Report.RenderFetchesPrintUrl | models/ir_report.py:40-43 | The PDF is fetched from the print URL built over the names the server gave the created documents, in record order. |
| Report.RenderRefusesWeasyprintBatch | models/ir_report.py:39-40 | With the weasyprint designer and several records the render fails after the lookup alone: no document is created and no PDF is fetched. |
| Report.RenderDeleteFailureDiscardsPdf | models/ir_report.py:43-45 | With the delete flag set, a deletion reply with an exception fails the render although exactly one PDF fetch was issued. |
| Remote.IssueAll | models/ir_report.py:67-76 | The shared request loop: one request per item in order, success exactly when every reply reads as a success, results one per item in order, and on failure the requests stop right after the first failing item, whose error is raised. |
| Text.ReplaceQuotes | models/ir_report.py:116 | The replacement keeps the length and leaves no single quote. |
| Text.ReplaceQuotesIdempotent | models/ir_report.py:116 | Replacing twice is the same as replacing once: the returned URL is already in final form. |
| Push.ReadPushed | models/push_to_frappe.py:47-50 | A push reply yields a pair exactly when it has data; the pair is the document's custom_odoo_ref (or `-`) and the remote name; without data the error carries `_server_messages` when present, otherwise the exception. |
| Push.PushDocs | models/push_to_frappe.py:36-51 | Documents are posted in order; success exactly when every reply has data, and then the pairs have the documents' length and order; the first reply without data aborts and no later document is posted. |
| Push.Push | models/push_to_frappe.py:13-51 | A missing or empty token or server URL fails before any request; the documents are posted in order to the doctype's collection; success exactly when every reply has data; on failure the posts stop right after the first reply without data, whose `_server_messages` (or else exception) is raised; the result is an `ir.actions.client` `display_notification` with params type `success`, sticky, title `Data pushed to <server URL>`, and the summary of the pairs as message. |
| Push.SummaryMessage | models/push_to_frappe.py:31 | The message is empty exactly when there are no pairs. |
| Push.SummaryRoundTrip | models/push_to_frappe.py:31 | Splitting the message at `, ` gives back exactly the `<ref> => <name>` texts in pair order, whenever no pair text holds `, ` itself. |
| Text.SplitJoin | models/push_to_frappe.py:31 | Splitting at `, ` undoes joining one or more parts with `, ` when no part holds the separator. |
| Push.SummaryOfOne | models/push_to_frappe.py:31 | One pair gives the message `<ref> => <name>` with no separator. |
| Push.SummaryCommaCount | models/push_to_frappe.py:31 | When references and names hold no comma, n pairs give a message with exactly n - 1 commas. |
| Push.PushCustomerExample | models/push_to_frappe.py:24-32 | Pushing one Customer with custom_odoo_ref C1 that the server creates as CUST-0001 gives the message `C1 => CUST-0001`. |

## Left out

* HTTP requests, JSON decoding and the `Authorization: token ...` header: each
  request is a trace entry and each reply an input value; a body that is not
  JSON, a failed connection and the HTTP status of the PDF fetch are not modelled.
* The replies are given in full, one per request the loop may issue (the
  `requires` on the reply sequences' lengths); the server's own behaviour is
  not modelled.
* `safe_eval` of the doctype mapper: the mapper is a function from record id
  to payload supplied by the caller; records are their ids, in `browse` order.
* Odoo field declarations, the report-type registration, `_get_report_from_name`
  and its search fallback, the translation wrapper `_()`, and the module manifest.
* The `"pdf"` format tag returned beside the PDF bytes is a constant and is
  not part of the model's result.
* Report.ListReprIsDoubleQuoted: the model renders every id between single
  quotes with no escaping, where Python's `str` of the list uses `repr`. Ids
  that hold `'` but no `"` still give the same final URL, since the quote
  replacement follows. The URL differs for ids holding a backslash (doubled
  by `repr`), control or non-printable characters (escaped by `repr`), or
  both quote kinds (`repr` escapes the inner `'` as `\'`, which the
  replacement turns into `\"`), and for names that are not
  strings, such as integers (`[1, 2]` in Python, `["1", "2"]` here). An id
  holding `"` makes the rendered list invalid JSON; the model makes no
  claim that it is JSON.
* Report.ChooseDesigner: the builder-beta flag of a row is modelled as a
  boolean (its Python truthiness); a row without that key (a KeyError) and a
  `data` that is JSON null (treated like an empty list) are not told apart.
* Push.ReadPushed: a truthy `data` without `name` (a KeyError) is not modelled;
  `data` is either a name or absent. Payload values are strings, so a
  non-string `custom_odoo_ref` formatted by `%s` is not modelled.
