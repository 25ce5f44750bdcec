/** The Frappe-backed report renderer of `ir.actions.report`: preparing the
    print parameters, creating one remote document per record, building the
    print URL, fetching the PDF and deleting the remote documents again. */
module Report {
  import opened Base
  import opened Text
  import opened Remote
  import Connection

  newtype byte = x: int | 0 <= x < 256

  /** The frappe_* fields of a report action. An unset Char field (Odoo's
      `False`) is `None`. */
  datatype ReportSettings = ReportSettings(
    doctype: string,
    printFormat: Option<string>,
    letterhead: Option<string>,
    deleteAfterPrint: bool)

  /** The remote rendering engine: the legacy print format, or the print
      format builder (beta), served by weasyprint. */
  datatype Designer = PrintFormat | Weasyprint

  datatype Method = DownloadPdf | DownloadMultiPdf

  function DesignerName(d: Designer): string
  {
    match d
    case PrintFormat => "print_format"
    case Weasyprint => "weasyprint"
  }

  function MethodName(m: Method): string
  {
    match m
    case DownloadPdf => "download_pdf"
    case DownloadMultiPdf => "download_multi_pdf"
  }

  /** Reply to the print-format lookup: its `exception` field, and the
      `print_format_builder_beta` flag of each row of `data` (`None` when the
      reply has no `data` key; a null `data` is an empty row list). */
  datatype LookupReply = LookupReply(exception: Option<string>, rows: Option<seq<bool>>)

  /** Reply to a create or a delete: its `exception` field, and `data.name`
      (`None` when either key is missing). */
  datatype DocReply = DocReply(exception: Option<string>, name: Option<string>)

  /** What the print URL needs besides the created documents. */
  datatype PrintParams = PrintParams(designer: Designer, download: Method, format: string, letterhead: string)

  /** The replies the server gives during one render, in the order the
      requests are issued; `pdf` is the body of the PDF fetch. */
  datatype Server = Server(lookup: LookupReply, creates: seq<DocReply>, pdf: seq<byte>, deletes: seq<DocReply>)

  // ---------------------------------------------------------------------
  // Print parameters
  // ---------------------------------------------------------------------

  /** The print-format lookup, filtered on the format's name and doctype. */
  function LookupUrl(serverUrl: string, s: ReportSettings): string
    requires s.printFormat.Some?
  {
    serverUrl + "/api/resource/Print Format?fields=[\"print_format_builder_beta\"]"
    + "&filters=[[\"Print Format\",\"name\",\"=\",\"" + s.printFormat.value
    + "\"],[\"Print Format\",\"doc_type\",\"=\",\"" + s.doctype + "\"]]"
  }

  /** The first returned row has its builder-beta flag set. */
  predicate BuilderBeta(lookup: LookupReply)
  {
    lookup.rows.Some? && |lookup.rows.value| > 0 && lookup.rows.value[0]
  }

  /** The designer: weasyprint exactly when a print format is configured
      and the lookup's first row is a builder-beta format; the lookup's
      errors abort; without a print format no lookup is consulted. */
  function ChooseDesigner(s: ReportSettings, lookup: LookupReply): (r: Result<Designer>)
    ensures r == Ok(Weasyprint) <==> Truthy(s.printFormat) && !Truthy(lookup.exception) && BuilderBeta(lookup)
    ensures r == Ok(PrintFormat) <==> !Truthy(s.printFormat) || (!Truthy(lookup.exception) && lookup.rows.Some? && !BuilderBeta(lookup))
    ensures r.Err? ==> r.error == if Truthy(lookup.exception) then RemoteFailure(lookup.exception) else MissingData
  {
    if !Truthy(s.printFormat) then Ok(PrintFormat)
    else if Truthy(lookup.exception) then Err(RemoteFailure(lookup.exception))
    else if lookup.rows.None? then Err(MissingData)
    else if BuilderBeta(lookup) then Ok(Weasyprint)
    else Ok(PrintFormat)
  }

  /** The query fragment naming the print format. */
  function FormatParam(d: Designer, printFormat: Option<string>): string
    requires d == Weasyprint ==> Truthy(printFormat)
  {
    match d
    case PrintFormat => "format=" + (if Truthy(printFormat) then printFormat.value else "Standard")
    case Weasyprint => "print_format=" + printFormat.value
  }

  /** Read back as a query parameter, the fragment has key `format` (value
      the print format, `Standard` when none is set) for the legacy designer
      and key `print_format` (value the print format) for weasyprint. */
  lemma FormatParamDecodes(d: Designer, printFormat: Option<string>)
    requires d == Weasyprint ==> Truthy(printFormat)
    ensures SplitAtFirst('=', FormatParam(d, printFormat)) ==
      match d
      case PrintFormat => ("format", if Truthy(printFormat) then printFormat.value else "Standard")
      case Weasyprint => ("print_format", printFormat.value)
  {
    match d
    case PrintFormat =>
      var v := if Truthy(printFormat) then printFormat.value else "Standard";
      assert FormatParam(d, printFormat) == "format" + ['='] + v;
      SplitAtFirstInverse('=', "format", v);
    case Weasyprint =>
      assert FormatParam(d, printFormat) == "print_format" + ['='] + printFormat.value;
      SplitAtFirstInverse('=', "print_format", printFormat.value);
  }

  /** Prepares designer, method, format fragment and letterhead. It issues
      the lookup exactly when a print format is set, refuses the weasyprint
      designer for more than one record, and always returns the multi-PDF
      method and the letterhead or the empty string. */
  function PreparePrintParams(s: ReportSettings, serverUrl: string, docCount: nat, lookup: LookupReply): (r: Run<PrintParams>)
    ensures Truthy(s.printFormat) ==> r.calls == [Lookup(LookupUrl(serverUrl, s))]
    ensures !Truthy(s.printFormat) ==> r.calls == []
    ensures AllInPhase(r.calls, 0)
    ensures r.result == Err(MultiDocUnsupported) <==> ChooseDesigner(s, lookup) == Ok(Weasyprint) && docCount > 1
    ensures r.result.Err? && r.result.error != MultiDocUnsupported ==> ChooseDesigner(s, lookup) == Err(r.result.error)
    ensures r.result.Ok? <==> ChooseDesigner(s, lookup).Ok? && !(ChooseDesigner(s, lookup).value == Weasyprint && docCount > 1)
    ensures r.result.Ok? ==> r.result.value.designer == ChooseDesigner(s, lookup).value
    ensures r.result.Ok? ==> r.result.value.download == DownloadMultiPdf
    ensures r.result.Ok? ==> r.result.value.format == FormatParam(r.result.value.designer, s.printFormat)
    ensures r.result.Ok? ==> r.result.value.letterhead == OrEmpty(s.letterhead)
  {
    var calls := if Truthy(s.printFormat) then [Lookup(LookupUrl(serverUrl, s))] else [];
    match ChooseDesigner(s, lookup)
    case Err(e) => Run(calls, Err(e))
    case Ok(d) =>
      if d == Weasyprint && docCount > 1 then Run(calls, Err(MultiDocUnsupported))
      else Run(calls, Ok(PrintParams(d, DownloadMultiPdf, FormatParam(d, s.printFormat), OrEmpty(s.letterhead))))
  }

  // ---------------------------------------------------------------------
  // Print URL
  // ---------------------------------------------------------------------

  /** Each id wrapped in the quote character `q`. */
  function QuoteAll(q: char, ids: seq<string>): (r: seq<string>)
    ensures |r| == |ids|
    ensures forall i :: 0 <= i < |ids| ==> r[i] == [q] + ids[i] + [q]
  {
    seq(|ids|, i requires 0 <= i < |ids| => [q] + ids[i] + [q])
  }

  /** Python's `str` of a list of ids: `['a', 'b']`. Ids are always wrapped
      in single quotes here, whatever they contain. */
  function ListRepr(ids: seq<string>): string
  {
    "[" + Join(", ", QuoteAll('\'', ids)) + "]"
  }

  /** The `name=` value: the single id itself, or the list of all ids. */
  function NameParam(docs: seq<string>): string
  {
    if |docs| == 1 then docs[0] else ListRepr(docs)
  }

  /** The method used in the URL: a single document is fetched with
      `download_pdf`, any other count with the method passed in. */
  function UrlMethod(docs: seq<string>, download: Method): Method
  {
    if |docs| == 1 then DownloadPdf else download
  }

  /** The pieces of the PDF URL, before the quote replacement. */
  function UrlPieces(docs: seq<string>, doctype: string, serverUrl: string, p: PrintParams): seq<string>
  {
    [serverUrl, "/api/method/frappe.utils.", DesignerName(p.designer), ".", MethodName(UrlMethod(docs, p.download)),
     "?doctype=", doctype, "&name=", NameParam(docs), "&", p.format, "&letterhead=", p.letterhead]
  }

  /** The PDF URL, with every single quote turned into a double quote. */
  function PrintUrl(docs: seq<string>, doctype: string, serverUrl: string, p: PrintParams): (url: string)
    ensures '\'' !in url
  {
    ReplaceQuotes(Join("", UrlPieces(docs, doctype, serverUrl, p)))
  }

  /** The ids between brackets, separated by `, `, each id between double
      quotes and with any single quote inside it turned into a double quote. */
  function DoubleQuotedList(ids: seq<string>): string
  {
    "[" + Join(", ", QuoteAll('"', Map(ReplaceQuotes, ids))) + "]"
  }

  /** After the quote replacement the rendered id list has every id between
      double quotes instead of single quotes. */
  lemma ListReprIsDoubleQuoted(ids: seq<string>)
    ensures ReplaceQuotes(ListRepr(ids)) == DoubleQuotedList(ids)
  {
    var quoted := QuoteAll('\'', ids);
    ReplaceQuotesJoin(", ", quoted);
    ReplaceQuotesNoQuote(", ");
    ReplaceQuotesNoQuote("[");
    ReplaceQuotesNoQuote("]");
    forall i | 0 <= i < |ids|
      ensures Map(ReplaceQuotes, quoted)[i] == QuoteAll('"', Map(ReplaceQuotes, ids))[i]
    {
      ReplaceQuotesConcat(['\''] + ids[i], ['\'']);
      ReplaceQuotesConcat(['\''], ids[i]);
    }
    assert Map(ReplaceQuotes, quoted) == QuoteAll('"', Map(ReplaceQuotes, ids));
    ReplaceQuotesConcat("[" + Join(", ", quoted), "]");
    ReplaceQuotesConcat("[", Join(", ", quoted));
  }

  /** The print URL piece by piece: server, designer and method (with
      `download_pdf` exactly for a single document), doctype, the single id
      or the double-quoted list of ids, format fragment and letterhead. */
  lemma PrintUrlLayout(docs: seq<string>, doctype: string, serverUrl: string, p: PrintParams)
    ensures PrintUrl(docs, doctype, serverUrl, p) == Join("", PlainUrlPieces(docs, doctype, serverUrl, p))
  {
    ReplaceQuotesJoin("", UrlPieces(docs, doctype, serverUrl, p));
    UrlPiecesReplaced(docs, doctype, serverUrl, p);
  }

  /** The URL pieces after the quote replacement: the fixed text untouched,
      each value with its single quotes replaced, and the ids between double quotes. */
  function PlainUrlPieces(docs: seq<string>, doctype: string, serverUrl: string, p: PrintParams): seq<string>
  {
    [ReplaceQuotes(serverUrl), "/api/method/frappe.utils.", DesignerName(p.designer), ".",
     MethodName(if |docs| == 1 then DownloadPdf else p.download),
     "?doctype=", ReplaceQuotes(doctype),
     "&name=", if |docs| == 1 then ReplaceQuotes(docs[0]) else DoubleQuotedList(docs),
     "&", ReplaceQuotes(p.format), "&letterhead=", ReplaceQuotes(p.letterhead)]
  }

  lemma UrlPiecesReplaced(docs: seq<string>, doctype: string, serverUrl: string, p: PrintParams)
    ensures Map(ReplaceQuotes, UrlPieces(docs, doctype, serverUrl, p)) == PlainUrlPieces(docs, doctype, serverUrl, p)
  {
    var pieces := UrlPieces(docs, doctype, serverUrl, p);
    var replaced := Map(ReplaceQuotes, pieces);
    FixedUrlTextUnchanged(p.designer, UrlMethod(docs, p.download));
    if |docs| != 1 {
      ListReprIsDoubleQuoted(docs);
    }
    assert replaced == [ReplaceQuotes(pieces[0]), ReplaceQuotes(pieces[1]), ReplaceQuotes(pieces[2]),
      ReplaceQuotes(pieces[3]), ReplaceQuotes(pieces[4]), ReplaceQuotes(pieces[5]), ReplaceQuotes(pieces[6]),
      ReplaceQuotes(pieces[7]), ReplaceQuotes(pieces[8]), ReplaceQuotes(pieces[9]), ReplaceQuotes(pieces[10]),
      ReplaceQuotes(pieces[11]), ReplaceQuotes(pieces[12])];
  }

  /** The fixed text of the print URL holds no single quote. */
  lemma FixedUrlTextUnchanged(d: Designer, m: Method)
    ensures ReplaceQuotes("/api/method/frappe.utils.") == "/api/method/frappe.utils."
    ensures ReplaceQuotes(DesignerName(d)) == DesignerName(d)
    ensures ReplaceQuotes(".") == "."
    ensures ReplaceQuotes(MethodName(m)) == MethodName(m)
    ensures ReplaceQuotes("?doctype=") == "?doctype="
    ensures ReplaceQuotes("&name=") == "&name="
    ensures ReplaceQuotes("&") == "&"
    ensures ReplaceQuotes("&letterhead=") == "&letterhead="
  {
    ReplaceQuotesNoQuote("/api/method/frappe.utils.");
    ReplaceQuotesNoQuote(DesignerName(d));
    ReplaceQuotesNoQuote(".");
    ReplaceQuotesNoQuote(MethodName(m));
    ReplaceQuotesNoQuote("?doctype=");
    ReplaceQuotesNoQuote("&name=");
    ReplaceQuotesNoQuote("&");
    ReplaceQuotesNoQuote("&letterhead=");
  }

  // ---------------------------------------------------------------------
  // Creating and deleting the remote documents
  // ---------------------------------------------------------------------

  /** A create reply: its exception aborts, otherwise `data.name` is the new
      document (a missing one is a KeyError). */
  function ReadCreated(payload: Payload, reply: DocReply): (r: Result<string>)
    ensures r.Ok? <==> !Truthy(reply.exception) && reply.name.Some?
    ensures r.Ok? ==> r.value == reply.name.value
    ensures Truthy(reply.exception) ==> r == Err(RemoteFailure(reply.exception))
  {
    if Truthy(reply.exception) then Err(RemoteFailure(reply.exception))
    else if reply.name.None? then Err(MissingData)
    else Ok(reply.name.value)
  }

  /** The documents the mapper builds, one per record, in record order. */
  function Payloads(docids: seq<int>, mapper: int -> Payload): (ps: seq<Payload>)
    ensures |ps| == |docids|
    ensures forall i :: 0 <= i < |docids| ==> ps[i] == mapper(docids[i])
  {
    seq(|docids|, i requires 0 <= i < |docids| => mapper(docids[i]))
  }

  /** Posts one document per payload in order and collects the names the
      server gives them; the first failing reply aborts, and no later
      payload is posted. */
  function CreateDocs(serverUrl: string, doctype: string, payloads: seq<Payload>, replies: seq<DocReply>): (r: Run<seq<string>>)
    requires |replies| == |payloads|
    ensures |r.calls| <= |payloads|
    ensures forall i :: 0 <= i < |r.calls| ==> r.calls[i] == Post(ResourceUrl(serverUrl, doctype), payloads[i])
    ensures r.result.Ok? <==> forall i :: 0 <= i < |replies| ==> ReadCreated(payloads[i], replies[i]).Ok?
    ensures r.result.Ok? ==> |r.calls| == |payloads| && |r.result.value| == |payloads|
    ensures r.result.Ok? ==> forall i :: 0 <= i < |payloads| ==> r.result.value[i] == replies[i].name.value
    ensures r.result.Err? ==>
      var k := LeadingOk(payloads, replies, ReadCreated);
      |r.calls| == k + 1 && r.result.error == ReadCreated(payloads[k], replies[k]).error
  {
    IssueAll(payloads, replies, p => Post(ResourceUrl(serverUrl, doctype), p), ReadCreated)
  }

  /** `{server}/api/resource/{doctype}/{name}`. */
  function DocUrl(serverUrl: string, doctype: string, name: string): string
  {
    ResourceUrl(serverUrl, doctype) + "/" + name
  }

  /** A delete reply fails only through its exception. */
  function ReadDeleted(name: string, reply: DocReply): (r: Result<()>)
    ensures r.Ok? <==> !Truthy(reply.exception)
    ensures r.Err? ==> r.error == RemoteFailure(reply.exception)
  {
    if Truthy(reply.exception) then Err(RemoteFailure(reply.exception)) else Ok(())
  }

  /** Deletes the created documents when the report asks for it: none
      without the flag; with it one delete per document, in order, stopping
      at the first failing reply. */
  function DeleteDocs(serverUrl: string, s: ReportSettings, names: seq<string>, replies: seq<DocReply>): (r: Run<()>)
    requires |replies| == |names|
    ensures !s.deleteAfterPrint ==> r == Run([], Ok(()))
    ensures |r.calls| <= |names|
    ensures forall i :: 0 <= i < |r.calls| ==> r.calls[i] == Delete(DocUrl(serverUrl, s.doctype, names[i]))
    ensures r.result.Ok? <==> !s.deleteAfterPrint || forall i :: 0 <= i < |replies| ==> !Truthy(replies[i].exception)
    ensures r.result.Ok? && s.deleteAfterPrint ==> |r.calls| == |names|
    ensures r.result.Err? ==>
      var k := LeadingOk(names, replies, ReadDeleted);
      |r.calls| == k + 1 && r.result.error == RemoteFailure(replies[k].exception)
  {
    if !s.deleteAfterPrint then Run([], Ok(()))
    else
      var run := IssueAll(names, replies, n => Delete(DocUrl(serverUrl, s.doctype, n)), ReadDeleted);
      Run(run.calls, if run.result.Ok? then Ok(()) else Err(run.result.error))
  }

  // ---------------------------------------------------------------------
  // Rendering
  // ---------------------------------------------------------------------

  /** `_render_frappe`: check the configuration, prepare the print
      parameters, create the documents, fetch the PDF, delete the documents,
      return the PDF. */
  function Render(authToken: Option<string>, serverUrl: Option<string>, s: ReportSettings,
                  docids: seq<int>, mapper: int -> Payload, server: Server): (r: Run<seq<byte>>)
    requires |server.creates| == |docids| && |server.deletes| == |docids|
    ensures !(Truthy(authToken) && Truthy(serverUrl)) ==> r == Run([], Err(ConfigMissing))
    ensures r.result.Ok? ==> r.result.value == server.pdf
  {
    match Connection.Resolve(authToken, serverUrl)
    case Err(e) => Run([], Err(e))
    case Ok(conn) => RenderConnected(conn.serverUrl, s, docids, mapper, server)
  }

  /** The render once the configuration is known to be set. */
  function RenderConnected(serverUrl: string, s: ReportSettings, docids: seq<int>, mapper: int -> Payload,
                           server: Server): (r: Run<seq<byte>>)
    requires |server.creates| == |docids| && |server.deletes| == |docids|
    ensures r.result.Ok? ==> r.result.value == server.pdf
  {
    var params := PreparePrintParams(s, serverUrl, |docids|, server.lookup);
    match params.result
    case Err(e) => Run(params.calls, Err(e))
    case Ok(p) => After(params.calls, RenderPrepared(serverUrl, s, p, docids, mapper, server))
  }

  /** The render once the print parameters are prepared. */
  function RenderPrepared(serverUrl: string, s: ReportSettings, p: PrintParams, docids: seq<int>,
                          mapper: int -> Payload, server: Server): (r: Run<seq<byte>>)
    requires |server.creates| == |docids| && |server.deletes| == |docids|
    ensures r.result.Ok? ==> r.result.value == server.pdf
  {
    var created := CreateDocs(serverUrl, s.doctype, Payloads(docids, mapper), server.creates);
    match created.result
    case Err(e) => Run(created.calls, Err(e))
    case Ok(names) => After(created.calls, FetchAndDelete(serverUrl, s, p, names, server))
  }

  /** The render once the documents exist: fetch the PDF, then delete. */
  function FetchAndDelete(serverUrl: string, s: ReportSettings, p: PrintParams, names: seq<string>,
                          server: Server): (r: Run<seq<byte>>)
    requires |server.deletes| == |names|
    ensures r.result.Ok? ==> r.result.value == server.pdf
  {
    var deleted := DeleteDocs(serverUrl, s, names, server.deletes);
    After([Fetch(PrintUrl(names, s.doctype, serverUrl, p))],
          Run(deleted.calls, if deleted.result.Ok? then Ok(server.pdf) else Err(deleted.result.error)))
  }

  /** The names a fully successful creation loop collects. */
  function CreatedNames(replies: seq<DocReply>): (names: seq<string>)
    requires forall i :: 0 <= i < |replies| ==> replies[i].name.Some?
    ensures |names| == |replies|
  {
    seq(|replies|, i requires 0 <= i < |replies| => replies[i].name.value)
  }

  /** Every creation reply names its document. */
  predicate AllCreated(docids: seq<int>, mapper: int -> Payload, replies: seq<DocReply>)
    requires |replies| == |docids|
  {
    forall i :: 0 <= i < |docids| ==> ReadCreated(mapper(docids[i]), replies[i]).Ok?
  }

  /** With the delete flag, no deletion reply reports an exception. */
  predicate AllDeleted(s: ReportSettings, replies: seq<DocReply>)
  {
    s.deleteAfterPrint ==> forall i :: 0 <= i < |replies| ==> !Truthy(replies[i].exception)
  }

  lemma FetchAndDeleteSegments(serverUrl: string, s: ReportSettings, p: PrintParams, names: seq<string>, server: Server)
    returns (c: seq<Call>, d: seq<Call>)
    requires |server.deletes| == |names|
    ensures FetchAndDelete(serverUrl, s, p, names, server).calls == c + d
    ensures c == [Fetch(PrintUrl(names, s.doctype, serverUrl, p))]
    ensures AllInPhase(c, 2) && AllInPhase(d, 3)
    ensures FetchAndDelete(serverUrl, s, p, names, server).result.Ok? <==> AllDeleted(s, server.deletes)
    ensures FetchAndDelete(serverUrl, s, p, names, server).result.Err? ==>
      FetchAndDelete(serverUrl, s, p, names, server).result.error.RemoteFailure?
    ensures FetchAndDelete(serverUrl, s, p, names, server).result.Ok? ==> |d| == if s.deleteAfterPrint then |names| else 0
    ensures !s.deleteAfterPrint ==> d == []
  {
    c := [Fetch(PrintUrl(names, s.doctype, serverUrl, p))];
    d := DeleteDocs(serverUrl, s, names, server.deletes).calls;
  }

  lemma PreparedSegments(serverUrl: string, s: ReportSettings, p: PrintParams, docids: seq<int>,
                         mapper: int -> Payload, server: Server)
    returns (b: seq<Call>, c: seq<Call>, d: seq<Call>)
    requires |server.creates| == |docids| && |server.deletes| == |docids|
    ensures RenderPrepared(serverUrl, s, p, docids, mapper, server).calls == b + (c + d)
    ensures AllInPhase(b, 1) && AllInPhase(c, 2) && AllInPhase(d, 3)
    ensures |c| <= 1
    ensures |c| == 1 <==> AllCreated(docids, mapper, server.creates)
    ensures AllCreated(docids, mapper, server.creates) ==>
      c == [Fetch(PrintUrl(CreatedNames(server.creates), s.doctype, serverUrl, p))]
    ensures RenderPrepared(serverUrl, s, p, docids, mapper, server).result.Ok? <==>
      AllCreated(docids, mapper, server.creates) && AllDeleted(s, server.deletes)
    ensures RenderPrepared(serverUrl, s, p, docids, mapper, server).result.Err? && AllCreated(docids, mapper, server.creates) ==>
      RenderPrepared(serverUrl, s, p, docids, mapper, server).result.error.RemoteFailure?
    ensures RenderPrepared(serverUrl, s, p, docids, mapper, server).result.Ok? ==>
      |b| == |docids| && |d| == if s.deleteAfterPrint then |docids| else 0
    ensures |b| <= |docids|
    ensures forall i :: 0 <= i < |b| ==> b[i] == Post(ResourceUrl(serverUrl, s.doctype), mapper(docids[i]))
    ensures |c| == 0 ==> |d| == 0
    ensures !s.deleteAfterPrint ==> |d| == 0
  {
    var payloads := Payloads(docids, mapper);
    assert forall i :: 0 <= i < |docids| ==> payloads[i] == mapper(docids[i]);
    var created := CreateDocs(serverUrl, s.doctype, payloads, server.creates);
    b := created.calls;
    assert AllInPhase(b, 1);
    if created.result.Err? {
      c, d := [], [];
      assert b + (c + d) == b;
    } else {
      assert created.result.value == CreatedNames(server.creates);
      c, d := FetchAndDeleteSegments(serverUrl, s, p, created.result.value, server);
    }
  }

  /** The trace of a render splits into its lookup, creation, fetch and
      deletion requests; the fetch is issued exactly when the configuration,
      the print parameters and every creation succeed. */
  lemma RenderSegments(authToken: Option<string>, serverUrl: Option<string>, s: ReportSettings,
                       docids: seq<int>, mapper: int -> Payload, server: Server)
    returns (a: seq<Call>, b: seq<Call>, c: seq<Call>, d: seq<Call>)
    requires |server.creates| == |docids| && |server.deletes| == |docids|
    ensures Render(authToken, serverUrl, s, docids, mapper, server).calls == a + (b + (c + d))
    ensures AllInPhase(a, 0) && AllInPhase(b, 1) && AllInPhase(c, 2) && AllInPhase(d, 3)
    ensures |c| <= 1
    ensures |c| == 1 <==>
      && Truthy(authToken) && Truthy(serverUrl)
      && PreparePrintParams(s, serverUrl.value, |docids|, server.lookup).result.Ok?
      && AllCreated(docids, mapper, server.creates)
    ensures |c| == 1 ==>
      c == [Fetch(PrintUrl(CreatedNames(server.creates), s.doctype, serverUrl.value,
                           PreparePrintParams(s, serverUrl.value, |docids|, server.lookup).result.value))]
    ensures Render(authToken, serverUrl, s, docids, mapper, server).result.Ok? <==>
      && Truthy(authToken) && Truthy(serverUrl)
      && PreparePrintParams(s, serverUrl.value, |docids|, server.lookup).result.Ok?
      && AllCreated(docids, mapper, server.creates) && AllDeleted(s, server.deletes)
    ensures |c| == 1 && Render(authToken, serverUrl, s, docids, mapper, server).result.Err? ==>
      Render(authToken, serverUrl, s, docids, mapper, server).result.error.RemoteFailure?
    ensures Render(authToken, serverUrl, s, docids, mapper, server).result.Ok? ==>
      && |a| == (if Truthy(s.printFormat) then 1 else 0)
      && |b| == |docids|
      && |d| == (if s.deleteAfterPrint then |docids| else 0)
    ensures |b| <= |docids|
    ensures |b| > 0 ==> Truthy(serverUrl)
    ensures forall i :: 0 <= i < |b| ==> b[i] == Post(ResourceUrl(serverUrl.value, s.doctype), mapper(docids[i]))
    ensures |c| == 0 ==> |d| == 0
    ensures !s.deleteAfterPrint ==> |d| == 0
  {
    a, b, c, d := [], [], [], [];
    if Truthy(authToken) && Truthy(serverUrl) {
      var url := serverUrl.value;
      var params := PreparePrintParams(s, url, |docids|, server.lookup);
      a := params.calls;
      if params.result.Ok? {
        b, c, d := PreparedSegments(url, s, params.result.value, docids, mapper, server);
      } else {
        assert a + (b + (c + d)) == a;
      }
    }
  }

  /** The requests of a render run in phase order: the print-format lookup,
      then the creations, then the PDF fetch, then the deletions. */
  lemma RenderPhased(authToken: Option<string>, serverUrl: Option<string>, s: ReportSettings,
                     docids: seq<int>, mapper: int -> Payload, server: Server)
    requires |server.creates| == |docids| && |server.deletes| == |docids|
    ensures Phased(Render(authToken, serverUrl, s, docids, mapper, server).calls)
  {
    var a, b, c, d := RenderSegments(authToken, serverUrl, s, docids, mapper, server);
    PhasedSegments(a, b, c, d);
  }

  /** A render succeeds exactly when the configuration is set, the print
      parameters can be prepared, every creation reply names its document
      and, when deletion is asked for, no deletion reply reports an exception. */
  lemma RenderSucceedsWhen(authToken: Option<string>, serverUrl: Option<string>, s: ReportSettings,
                           docids: seq<int>, mapper: int -> Payload, server: Server)
    requires |server.creates| == |docids| && |server.deletes| == |docids|
    ensures Render(authToken, serverUrl, s, docids, mapper, server).result.Ok? <==>
      && Truthy(authToken) && Truthy(serverUrl)
      && PreparePrintParams(s, serverUrl.value, |docids|, server.lookup).result.Ok?
      && (forall i :: 0 <= i < |docids| ==> ReadCreated(mapper(docids[i]), server.creates[i]).Ok?)
      && (s.deleteAfterPrint ==> forall i :: 0 <= i < |docids| ==> !Truthy(server.deletes[i].exception))
  {
  }

  /** A successful render issues the lookup exactly when a print format is
      set, one creation per record, one PDF fetch, and one deletion per record
      exactly when deletion is asked for. */
  lemma RenderRequestCounts(authToken: Option<string>, serverUrl: Option<string>, s: ReportSettings,
                            docids: seq<int>, mapper: int -> Payload, server: Server)
    requires |server.creates| == |docids| && |server.deletes| == |docids|
    requires Render(authToken, serverUrl, s, docids, mapper, server).result.Ok?
    ensures var calls := Render(authToken, serverUrl, s, docids, mapper, server).calls;
      && CountPhase(calls, 0) == (if Truthy(s.printFormat) then 1 else 0)
      && CountPhase(calls, 1) == |docids|
      && CountPhase(calls, 2) == 1
      && CountPhase(calls, 3) == (if s.deleteAfterPrint then |docids| else 0)
  {
    var a, b, c, d := RenderSegments(authToken, serverUrl, s, docids, mapper, server);
    CountSegments(a, b, c, d, 0);
    CountSegments(a, b, c, d, 1);
    CountSegments(a, b, c, d, 2);
    CountSegments(a, b, c, d, 3);
  }

  /** A successful render posts, right after the optional lookup, one
      document per record in record order, each the mapper's payload for
      that record, to the report doctype's collection. */
  lemma RenderPosts(authToken: Option<string>, serverUrl: Option<string>, s: ReportSettings,
                    docids: seq<int>, mapper: int -> Payload, server: Server)
    requires |server.creates| == |docids| && |server.deletes| == |docids|
    requires Render(authToken, serverUrl, s, docids, mapper, server).result.Ok?
    ensures Truthy(serverUrl)
    ensures var calls := Render(authToken, serverUrl, s, docids, mapper, server).calls;
      var first := if Truthy(s.printFormat) then 1 else 0;
      && first + |docids| <= |calls|
      && forall i :: 0 <= i < |docids| ==>
           calls[first + i] == Post(ResourceUrl(serverUrl.value, s.doctype), mapper(docids[i]))
  {
    var a, b, c, d := RenderSegments(authToken, serverUrl, s, docids, mapper, server);
    var calls := a + (b + (c + d));
    forall i | 0 <= i < |docids|
      ensures calls[|a| + i] == Post(ResourceUrl(serverUrl.value, s.doctype), mapper(docids[i]))
    {
      assert calls[|a| + i] == b[i];
    }
  }

  /** Deletions only ever follow the PDF fetch: a render that fails before
      the fetch (a failed creation included) leaves the created documents in
      place, and a render without the delete flag deletes nothing. */
  lemma RenderDeletesAfterFetch(authToken: Option<string>, serverUrl: Option<string>, s: ReportSettings,
                                docids: seq<int>, mapper: int -> Payload, server: Server)
    requires |server.creates| == |docids| && |server.deletes| == |docids|
    ensures CountPhase(Render(authToken, serverUrl, s, docids, mapper, server).calls, 2) == 0 ==>
      CountPhase(Render(authToken, serverUrl, s, docids, mapper, server).calls, 3) == 0
    ensures !s.deleteAfterPrint ==> CountPhase(Render(authToken, serverUrl, s, docids, mapper, server).calls, 3) == 0
  {
    var a, b, c, d := RenderSegments(authToken, serverUrl, s, docids, mapper, server);
    CountSegments(a, b, c, d, 2);
    CountSegments(a, b, c, d, 3);
  }

  /** One delete request per name, in order. */
  function DeleteRequests(serverUrl: string, doctype: string, names: seq<string>): seq<Call>
  {
    seq(|names|, i requires 0 <= i < |names| => Delete(DocUrl(serverUrl, doctype, names[i])))
  }

  /** The deletions issued are the delete requests of a prefix of the names. */
  lemma DeleteDocsPrefix(serverUrl: string, s: ReportSettings, names: seq<string>, replies: seq<DocReply>)
    requires |replies| == |names|
    ensures var calls := DeleteDocs(serverUrl, s, names, replies).calls;
      calls == DeleteRequests(serverUrl, s.doctype, names[..|calls|])
  {
  }

  /** The deletions of a render once the documents exist. */
  lemma FetchAndDeleteTargets(serverUrl: string, s: ReportSettings, p: PrintParams, names: seq<string>, server: Server)
    requires |server.deletes| == |names|
    ensures var calls := FetchAndDelete(serverUrl, s, p, names, server).calls;
      var k := CountPhase(calls, 3);
      && k <= |names|
      && EndsWith(calls, DeleteRequests(serverUrl, s.doctype, names[..k]))
  {
    var deleted := DeleteDocs(serverUrl, s, names, server.deletes).calls;
    var fetch := [Fetch(PrintUrl(names, s.doctype, serverUrl, p))];
    DeleteDocsPrefix(serverUrl, s, names, server.deletes);
    CountPhaseUniform(fetch, 2, 3);
    CountPhaseUniform(deleted, 3, 3);
    CountPhaseConcat(fetch, deleted, 3);
    assert deleted[|deleted| - |deleted|..] == deleted;
    EndsWithAfter(fetch, deleted, deleted);
  }

  /** The deletions of a render once the print parameters are prepared. */
  lemma PreparedDeleteTargets(serverUrl: string, s: ReportSettings, p: PrintParams, docids: seq<int>,
                              mapper: int -> Payload, server: Server)
    requires |server.creates| == |docids| && |server.deletes| == |docids|
    ensures var calls := RenderPrepared(serverUrl, s, p, docids, mapper, server).calls;
      var k := CountPhase(calls, 3);
      k > 0 ==>
        && AllCreated(docids, mapper, server.creates) && k <= |docids|
        && EndsWith(calls, DeleteRequests(serverUrl, s.doctype, CreatedNames(server.creates)[..k]))
  {
    var payloads := Payloads(docids, mapper);
    var created := CreateDocs(serverUrl, s.doctype, payloads, server.creates);
    CountPhaseUniform(created.calls, 1, 3);
    if created.result.Err? {
      assert RenderPrepared(serverUrl, s, p, docids, mapper, server).calls == created.calls;
    } else {
      assert AllCreated(docids, mapper, server.creates) by {
        forall i | 0 <= i < |docids| ensures ReadCreated(mapper(docids[i]), server.creates[i]).Ok? {
          assert payloads[i] == mapper(docids[i]);
        }
      }
      var names := created.result.value;
      assert names == CreatedNames(server.creates);
      var rest := FetchAndDelete(serverUrl, s, p, names, server).calls;
      FetchAndDeleteTargets(serverUrl, s, p, names, server);
      CountPhaseConcat(created.calls, rest, 3);
      EndsWithAfter(created.calls, rest, DeleteRequests(serverUrl, s.doctype, names[..CountPhase(rest, 3)]));
    }
  }

  /** The deletions of a render once the configuration is known to be set. */
  lemma ConnectedDeleteTargets(serverUrl: string, s: ReportSettings, docids: seq<int>,
                               mapper: int -> Payload, server: Server)
    requires |server.creates| == |docids| && |server.deletes| == |docids|
    ensures var calls := RenderConnected(serverUrl, s, docids, mapper, server).calls;
      var k := CountPhase(calls, 3);
      k > 0 ==>
        && AllCreated(docids, mapper, server.creates) && k <= |docids|
        && EndsWith(calls, DeleteRequests(serverUrl, s.doctype, CreatedNames(server.creates)[..k]))
  {
    var params := PreparePrintParams(s, serverUrl, |docids|, server.lookup);
    CountPhaseUniform(params.calls, 0, 3);
    if params.result.Ok? {
      var prepared := RenderPrepared(serverUrl, s, params.result.value, docids, mapper, server).calls;
      PreparedDeleteTargets(serverUrl, s, params.result.value, docids, mapper, server);
      CountPhaseConcat(params.calls, prepared, 3);
      var k := CountPhase(prepared, 3);
      if k > 0 {
        EndsWithAfter(params.calls, prepared, DeleteRequests(serverUrl, s.doctype, CreatedNames(server.creates)[..k]));
      }
    }
  }

  /** The deletions a render issues close its trace: one per created
      document in record order, each addressed by the name the server gave
      that document, and only once every creation has succeeded. */
  lemma RenderDeleteTargets(authToken: Option<string>, serverUrl: Option<string>, s: ReportSettings,
                            docids: seq<int>, mapper: int -> Payload, server: Server)
    requires |server.creates| == |docids| && |server.deletes| == |docids|
    ensures var calls := Render(authToken, serverUrl, s, docids, mapper, server).calls;
      var k := CountPhase(calls, 3);
      k > 0 ==>
        && Truthy(serverUrl) && AllCreated(docids, mapper, server.creates) && k <= |docids|
        && EndsWith(calls, DeleteRequests(serverUrl.value, s.doctype, CreatedNames(server.creates)[..k]))
  {
    if Truthy(authToken) && Truthy(serverUrl) {
      ConnectedDeleteTargets(serverUrl.value, s, docids, mapper, server);
    }
  }

  /** The PDF is fetched from the print URL built over the names the server
      gave the created documents, in record order. */
  lemma RenderFetchesPrintUrl(authToken: Option<string>, serverUrl: Option<string>, s: ReportSettings,
                              docids: seq<int>, mapper: int -> Payload, server: Server)
    requires |server.creates| == |docids| && |server.deletes| == |docids|
    requires Render(authToken, serverUrl, s, docids, mapper, server).result.Ok?
    ensures Truthy(serverUrl) && PreparePrintParams(s, serverUrl.value, |docids|, server.lookup).result.Ok?
    ensures forall i :: 0 <= i < |docids| ==> server.creates[i].name.Some?
    ensures Fetch(PrintUrl(CreatedNames(server.creates), s.doctype, serverUrl.value,
                           PreparePrintParams(s, serverUrl.value, |docids|, server.lookup).result.value))
      in Render(authToken, serverUrl, s, docids, mapper, server).calls
  {
    var a, b, c, d := RenderSegments(authToken, serverUrl, s, docids, mapper, server);
    assert (a + (b + (c + d)))[|a| + |b|] == c[0];
  }

  /** With the builder-beta designer and several records, the render stops
      after the lookup: no document is created and no PDF is fetched. */
  lemma RenderRefusesWeasyprintBatch(authToken: Option<string>, serverUrl: Option<string>, s: ReportSettings,
                                     docids: seq<int>, mapper: int -> Payload, server: Server)
    requires |server.creates| == |docids| && |server.deletes| == |docids|
    requires Truthy(authToken) && Truthy(serverUrl)
    requires ChooseDesigner(s, server.lookup) == Ok(Weasyprint) && |docids| > 1
    ensures Render(authToken, serverUrl, s, docids, mapper, server) ==
      Run([Lookup(LookupUrl(serverUrl.value, s))], Err(MultiDocUnsupported))
  {
  }

  /** A failing deletion fails the whole render although the PDF was
      already fetched: the fetched PDF is discarded. */
  lemma RenderDeleteFailureDiscardsPdf(authToken: Option<string>, serverUrl: Option<string>, s: ReportSettings,
                                       docids: seq<int>, mapper: int -> Payload, server: Server, k: nat)
    requires |server.creates| == |docids| && |server.deletes| == |docids|
    requires Truthy(authToken) && Truthy(serverUrl)
    requires PreparePrintParams(s, serverUrl.value, |docids|, server.lookup).result.Ok?
    requires forall i :: 0 <= i < |docids| ==> ReadCreated(mapper(docids[i]), server.creates[i]).Ok?
    requires s.deleteAfterPrint && k < |docids| && Truthy(server.deletes[k].exception)
    ensures Render(authToken, serverUrl, s, docids, mapper, server).result.Err?
    ensures Render(authToken, serverUrl, s, docids, mapper, server).result.error.RemoteFailure?
    ensures CountPhase(Render(authToken, serverUrl, s, docids, mapper, server).calls, 2) == 1
  {
    var a, b, c, d := RenderSegments(authToken, serverUrl, s, docids, mapper, server);
    CountSegments(a, b, c, d, 2);
  }
}
