/** The `push.to.frappe` service: posts each document to a remote doctype
    and answers with a success notification listing what was created. */
module Push {
  import opened Base
  import opened Text
  import opened Remote
  import Connection

  /** Reply to one push: `data.name` when `data` is present and truthy, the
      `_server_messages` key when present, and the `exception` key. */
  datatype PushReply = PushReply(data: Option<string>, serverMessages: Option<string>, exception: Option<string>)

  /** The client action the web client shows as a notification. */
  datatype Notification = Notification(actionType: string, tag: string, params: NotificationParams)

  datatype NotificationParams = NotificationParams(level: string, sticky: bool, title: string, message: string)

  /** The correlation value reported for a document: its `custom_odoo_ref`,
      or `-` when it has none. */
  function Correlation(doc: Payload): string
  {
    if "custom_odoo_ref" in doc then doc["custom_odoo_ref"] else "-"
  }

  /** The error detail of a failed push: `_server_messages` when the reply
      has that key, the `exception` otherwise (possibly absent too). */
  function ErrorDetail(reply: PushReply): Option<string>
  {
    if reply.serverMessages.Some? then reply.serverMessages else reply.exception
  }

  /** A push reply: without data the push aborts with the server's detail;
      with data it yields the pair (correlation, remote name). */
  function ReadPushed(doc: Payload, reply: PushReply): (r: Result<(string, string)>)
    ensures r.Ok? <==> reply.data.Some?
    ensures r.Ok? ==> r.value == (Correlation(doc), reply.data.value)
    ensures r.Err? ==> r.error == RemoteFailure(ErrorDetail(reply))
  {
    match reply.data
    case None => Err(RemoteFailure(ErrorDetail(reply)))
    case Some(name) => Ok((Correlation(doc), name))
  }

  /** Posts the documents in order; the result pairs line up one to one with
      the documents, and the first reply without data aborts the push before
      any later document is posted. */
  function PushDocs(serverUrl: string, doctype: string, docs: seq<Payload>, replies: seq<PushReply>): (r: Run<seq<(string, string)>>)
    requires |replies| == |docs|
    ensures |r.calls| <= |docs|
    ensures forall i :: 0 <= i < |r.calls| ==> r.calls[i] == Post(ResourceUrl(serverUrl, doctype), docs[i])
    ensures r.result.Ok? <==> forall i :: 0 <= i < |replies| ==> replies[i].data.Some?
    ensures r.result.Ok? ==> |r.calls| == |docs| && |r.result.value| == |docs|
    ensures r.result.Ok? ==> forall i :: 0 <= i < |docs| ==> r.result.value[i] == (Correlation(docs[i]), replies[i].data.value)
    ensures r.result.Err? ==>
      var k := LeadingOk(docs, replies, ReadPushed);
      |r.calls| == k + 1 && r.result.error == RemoteFailure(ErrorDetail(replies[k]))
  {
    IssueAll(docs, replies, d => Post(ResourceUrl(serverUrl, doctype), d), ReadPushed)
  }

  /** The pairs a fully successful push reports: each document's correlation
      value next to the name its reply gave it. */
  function ExpectedPairs(docs: seq<Payload>, replies: seq<PushReply>): seq<(string, string)>
    requires |replies| == |docs|
    requires forall i :: 0 <= i < |replies| ==> replies[i].data.Some?
  {
    seq(|docs|, i requires 0 <= i < |docs| => (Correlation(docs[i]), replies[i].data.value))
  }

  /** One line of the summary: `<ref> => <name>`. */
  function PairText(pair: (string, string)): string
  {
    pair.0 + " => " + pair.1
  }

  /** The notification message: the pair texts joined by `, `; it is empty
      exactly when there are no pairs, since a pair text is never empty. */
  function SummaryMessage(pairs: seq<(string, string)>): (m: string)
    ensures m == "" <==> |pairs| == 0
  {
    Join(", ", seq(|pairs|, i requires 0 <= i < |pairs| => PairText(pairs[i])))
  }

  /** A single pair gives its own text, with no separator. */
  lemma SummaryOfOne(pair: (string, string))
    ensures SummaryMessage([pair]) == pair.0 + " => " + pair.1
  {
  }

  /** Splitting the message at `", "` gives back the pair texts in order,
      whenever no pair text holds `", "` itself. */
  lemma SummaryRoundTrip(pairs: seq<(string, string)>)
    requires |pairs| >= 1
    requires forall i :: 0 <= i < |pairs| ==> NoCommaSpace(PairText(pairs[i]))
    ensures SplitCommaSpace(SummaryMessage(pairs)) == seq(|pairs|, i requires 0 <= i < |pairs| => PairText(pairs[i]))
  {
    SplitJoin(seq(|pairs|, i requires 0 <= i < |pairs| => PairText(pairs[i])));
  }

  /** When neither references nor names contain a comma, the message holds
      exactly one comma per gap between pairs: n pairs give n - 1 commas. */
  lemma SummaryCommaCount(pairs: seq<(string, string)>)
    requires forall i :: 0 <= i < |pairs| ==> ',' !in pairs[i].0 && ',' !in pairs[i].1
    ensures Count(',', SummaryMessage(pairs)) == if |pairs| == 0 then 0 else |pairs| - 1
  {
    var texts := seq(|pairs|, i requires 0 <= i < |pairs| => PairText(pairs[i]));
    forall i | 0 <= i < |pairs| ensures ',' !in texts[i] {
      assert ',' !in " => ";
    }
    JoinCount(',', ", ", texts);
  }

  /** `push`: check the configuration, post the documents, and describe the
      outcome as a sticky success notification titled with the server URL. */
  function Push(authToken: Option<string>, serverUrl: Option<string>, doctype: string,
                docs: seq<Payload>, replies: seq<PushReply>): (r: Run<Notification>)
    requires |replies| == |docs|
    ensures !(Truthy(authToken) && Truthy(serverUrl)) ==> r == Run([], Err(ConfigMissing))
    ensures r.result.Ok? <==> Truthy(authToken) && Truthy(serverUrl) && forall i :: 0 <= i < |replies| ==> replies[i].data.Some?
    ensures r.result.Ok? ==>
      && r.result.value.actionType == "ir.actions.client"
      && r.result.value.tag == "display_notification"
      && r.result.value.params.level == "success"
      && r.result.value.params.sticky
      && r.result.value.params.title == "Data pushed to " + serverUrl.value
    ensures r.result.Ok? ==>
      r.result.value.params.message == SummaryMessage(ExpectedPairs(docs, replies))
    ensures r.result.Ok? ==> |r.calls| == |docs|
    ensures |r.calls| <= |docs|
    ensures Truthy(serverUrl) ==>
      forall i :: 0 <= i < |r.calls| ==> r.calls[i] == Post(ResourceUrl(serverUrl.value, doctype), docs[i])
    ensures Truthy(authToken) && Truthy(serverUrl) && r.result.Err? ==>
      var k := LeadingOk(docs, replies, ReadPushed);
      |r.calls| == k + 1 && r.result.error == RemoteFailure(ErrorDetail(replies[k]))
  {
    match Connection.Resolve(authToken, serverUrl)
    case Err(e) => Run([], Err(e))
    case Ok(conn) =>
      var pushed := PushDocs(conn.serverUrl, doctype, docs, replies);
      match pushed.result
      case Err(e) => Run(pushed.calls, Err(e))
      case Ok(pairs) =>
        assert pairs == ExpectedPairs(docs, replies);
        Run(pushed.calls, Ok(Notification("ir.actions.client", "display_notification",
          NotificationParams("success", true, "Data pushed to " + conn.serverUrl, SummaryMessage(pairs)))))
  }

  /** An example: one customer with reference C1, created on the
      server as CUST-0001, gives the message `C1 => CUST-0001`. */
  lemma PushCustomerExample(authToken: string, serverUrl: string)
    requires authToken != "" && serverUrl != ""
    ensures Push(Some(authToken), Some(serverUrl), "Customer",
                 [map["name" := "A", "custom_odoo_ref" := "C1"]],
                 [PushReply(Some("CUST-0001"), None, None)]).result
      == Ok(Notification("ir.actions.client", "display_notification",
              NotificationParams("success", true, "Data pushed to " + serverUrl, "C1 => CUST-0001")))
  {
    var doc: Payload := map["name" := "A", "custom_odoo_ref" := "C1"];
    assert Correlation(doc) == "C1";
    assert ExpectedPairs([doc], [PushReply(Some("CUST-0001"), None, None)]) == [("C1", "CUST-0001")];
    SummaryOfOne(("C1", "CUST-0001"));
    assert "C1" + " => " + "CUST-0001" == "C1 => CUST-0001";
    var r := Push(Some(authToken), Some(serverUrl), "Customer", [doc], [PushReply(Some("CUST-0001"), None, None)]);
    assert r.result.Ok?;
    assert r.result.value.params.message == "C1 => CUST-0001";
  }
}
