/** The remote server as the add-ons see it: every HTTP request becomes a
    `Call` in a trace, every reply an input value. An operation returns the
    trace of requests it issued together with its outcome. */
module Remote {
  import opened Base

  /** The JSON body posted for one remote document: field name to value. */
  type Payload = map<string, string>

  datatype Call =
    | Lookup(url: string)                  // GET of the print format's builder-beta flag
    | Post(url: string, payload: Payload)  // POST creating a remote document
    | Fetch(url: string)                   // GET of the rendered PDF
    | Delete(url: string)                  // DELETE of a remote document

  /** The requests an operation issued, in order, and what it returned or raised. */
  datatype Run<+T> = Run(calls: seq<Call>, result: Result<T>)

  /** A run preceded by the requests of an earlier step. */
  function After<T>(calls: seq<Call>, r: Run<T>): (r': Run<T>)
    ensures r'.result == r.result
    ensures |r'.calls| == |calls| + |r.calls|
  {
    Run(calls + r.calls, r.result)
  }

  /** `{server}/api/resource/{doctype}`: the collection documents are posted to. */
  function ResourceUrl(serverUrl: string, doctype: string): string
  {
    serverUrl + "/api/resource/" + doctype
  }

  /** Number of leading items whose reply reads as a success. */
  function LeadingOk<A, R, B>(items: seq<A>, replies: seq<R>, read: (A, R) -> Result<B>): (k: nat)
    requires |replies| == |items|
    ensures k <= |items|
    ensures forall i :: 0 <= i < k ==> read(items[i], replies[i]).Ok?
    ensures k < |items| ==> read(items[k], replies[k]).Err?
    decreases |items|
  {
    if |items| == 0 || read(items[0], replies[0]).Err? then 0
    else 1 + LeadingOk(items[1..], replies[1..], read)
  }

  /** The loop shared by the create and delete helpers: one request per item,
      in item order, the item's reply read right after its request, and the
      whole loop raising the first error a reply yields. */
  function IssueAll<A, R, B(==)>(items: seq<A>, replies: seq<R>, request: A -> Call, read: (A, R) -> Result<B>): (r: Run<seq<B>>)
    requires |replies| == |items|
    ensures r.result.Ok? <==> LeadingOk(items, replies, read) == |items|
    ensures |r.calls| == if r.result.Ok? then |items| else LeadingOk(items, replies, read) + 1
    ensures |r.calls| <= |items|
    ensures forall i :: 0 <= i < |r.calls| ==> r.calls[i] == request(items[i])
    ensures r.result.Ok? ==> |r.result.value| == |items|
    ensures r.result.Ok? ==> forall i :: 0 <= i < |items| ==> read(items[i], replies[i]) == Ok(r.result.value[i])
    ensures r.result.Err? ==> r.result.error == read(items[LeadingOk(items, replies, read)], replies[LeadingOk(items, replies, read)]).error
    decreases |items|
  {
    if |items| == 0 then Run([], Ok([]))
    else
      var call := request(items[0]);
      match read(items[0], replies[0])
      case Err(e) => Run([call], Err(e))
      case Ok(b) =>
        var rest := IssueAll(items[1..], replies[1..], request, read);
        match rest.result
        case Err(e) => Run([call] + rest.calls, Err(e))
        case Ok(bs) => Run([call] + rest.calls, Ok([b] + bs))
  }

  /** Position of a request in the render sequence: lookup, creation, PDF
      fetch, deletion. */
  function Phase(c: Call): nat
  {
    match c
    case Lookup(_) => 0
    case Post(_, _) => 1
    case Fetch(_) => 2
    case Delete(_) => 3
  }

  /** No request of a later phase comes before one of an earlier phase. */
  predicate Phased(calls: seq<Call>)
  {
    forall i, j :: 0 <= i < j < |calls| ==> Phase(calls[i]) <= Phase(calls[j])
  }

  /** Every request of the trace belongs to phase `p`. */
  predicate AllInPhase(calls: seq<Call>, p: nat)
  {
    forall i :: 0 <= i < |calls| ==> Phase(calls[i]) == p
  }

  /** Number of requests of phase `p` in the trace. */
  function CountPhase(calls: seq<Call>, p: nat): nat
    decreases |calls|
  {
    if |calls| == 0 then 0
    else (if Phase(calls[0]) == p then 1 else 0) + CountPhase(calls[1..], p)
  }

  lemma {:induction false} CountPhaseConcat(a: seq<Call>, b: seq<Call>, p: nat)
    ensures CountPhase(a + b, p) == CountPhase(a, p) + CountPhase(b, p)
    decreases |a|
  {
    if |a| == 0 {
      assert a + b == b;
    } else {
      assert (a + b)[1..] == a[1..] + b;
      CountPhaseConcat(a[1..], b, p);
    }
  }

  /** A trace confined to one phase counts all its requests there and none elsewhere. */
  lemma {:induction false} CountPhaseUniform(calls: seq<Call>, p: nat, q: nat)
    requires AllInPhase(calls, p)
    ensures CountPhase(calls, q) == if p == q then |calls| else 0
    decreases |calls|
  {
    if |calls| > 0 {
      assert AllInPhase(calls[1..], p) by {
        forall i | 0 <= i < |calls[1..]| ensures Phase(calls[1..][i]) == p {
          assert calls[1..][i] == calls[i + 1];
        }
      }
      CountPhaseUniform(calls[1..], p, q);
    }
  }

  /** Two phased traces, the first entirely at or before the second, stay phased when joined. */
  lemma PhasedConcat(a: seq<Call>, b: seq<Call>)
    requires Phased(a) && Phased(b)
    requires forall i, j :: 0 <= i < |a| && 0 <= j < |b| ==> Phase(a[i]) <= Phase(b[j])
    ensures Phased(a + b)
  {
    var ab := a + b;
    forall i, j | 0 <= i < j < |ab| ensures Phase(ab[i]) <= Phase(ab[j]) {
      if j < |a| {
        assert ab[i] == a[i] && ab[j] == a[j];
      } else if i < |a| {
        assert ab[i] == a[i] && ab[j] == b[j - |a|];
      } else {
        assert ab[i] == b[i - |a|] && ab[j] == b[j - |a|];
      }
    }
  }

  /** A trace made of a lookup segment, a creation segment, a fetch segment
      and a deletion segment, in that order, is phased. */
  lemma PhasedSegments(a: seq<Call>, b: seq<Call>, c: seq<Call>, d: seq<Call>)
    requires AllInPhase(a, 0) && AllInPhase(b, 1) && AllInPhase(c, 2) && AllInPhase(d, 3)
    ensures Phased(a + (b + (c + d)))
  {
    PhasedConcat(c, d);
    PhasedConcat(b, c + d);
    PhasedConcat(a, b + (c + d));
  }

  /** In such a trace each phase counts exactly the requests of its segment. */
  lemma CountSegments(a: seq<Call>, b: seq<Call>, c: seq<Call>, d: seq<Call>, q: nat)
    requires AllInPhase(a, 0) && AllInPhase(b, 1) && AllInPhase(c, 2) && AllInPhase(d, 3)
    ensures CountPhase(a + (b + (c + d)), q) ==
      if q == 0 then |a| else if q == 1 then |b| else if q == 2 then |c| else if q == 3 then |d| else 0
  {
    CountPhaseConcat(a, b + (c + d), q);
    CountPhaseConcat(b, c + d, q);
    CountPhaseConcat(c, d, q);
    CountPhaseUniform(a, 0, q);
    CountPhaseUniform(b, 1, q);
    CountPhaseUniform(c, 2, q);
    CountPhaseUniform(d, 3, q);
  }

  /** `calls` closes with the requests `last`, in order. */
  predicate EndsWith(calls: seq<Call>, last: seq<Call>)
  {
    |last| <= |calls| && calls[|calls| - |last|..] == last
  }

  /** Requests issued before a trace do not change how it closes. */
  lemma EndsWithAfter(front: seq<Call>, calls: seq<Call>, last: seq<Call>)
    requires EndsWith(calls, last)
    ensures EndsWith(front + calls, last)
  {
    assert (front + calls)[|front + calls| - |last|..] == calls[|calls| - |last|..];
  }
}
