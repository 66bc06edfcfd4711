/**
 * The action node: `execute` sends one WhatsApp message per input item and
 * turns each response, or each failure, into one output item.
 */
module Waapy {
  import opened Wrappers
  import opened Js
  import opened Host

  /** The node parameters, as `getNodeParameter(name, i)` resolves them for item `i`. */
  datatype Params = Params(
    resource: string,
    operation: string,
    connectionName: string,
    toNumber: string,
    text: string,
    mediaUrl: string,
    caption: string)

  /**
   * One run of `execute`: the input items, the parameters per item, the
   * credentials, whether the node continues on failure, and the provider as
   * seen while item `i` is processed.
   */
  datatype Batch = Batch(
    items: seq<Item>,
    params: nat -> Params,
    credentials: Credentials,
    continueOnFail: bool,
    server: nat -> Server)

  const SendTextPath := "/n8n/messages/send-text"
  const SendImagePath := "/n8n/messages/send-image"

  /** A message as the provider receives it. */
  datatype Message =
    | TextMessage(connectionName: string, recipient: string, text: string)
    | ImageMessage(connectionName: string, recipient: string, mediaUrl: string, caption: string)

  /** The JSON body the node posts for a message. */
  function Body(m: Message): Value
  {
    match m
    case TextMessage(conn, to, text) =>
      Obj(map[
        "connectionName" := Str(conn),
        "recipient" := Str(to),
        "message" := Obj(map["body" := Str(text), "type" := Str("text")])])
    case ImageMessage(conn, to, url, caption) =>
      Obj(map[
        "connectionName" := Str(conn),
        "recipient" := Str(to),
        "mediaUrl" := Str(url),
        "caption" := Str(caption)])
  }

  ghost predicate IsTextBody(p: map<string, Value>)
  {
    && p.Keys == {"connectionName", "recipient", "message"}
    && p["connectionName"].Str? && p["recipient"].Str? && p["message"].Obj?
    && p["message"].props.Keys == {"body", "type"}
    && p["message"].props["body"].Str?
    && p["message"].props["type"] == Str("text")
  }

  ghost predicate IsImageBody(p: map<string, Value>)
  {
    && p.Keys == {"connectionName", "recipient", "mediaUrl", "caption"}
    && p["connectionName"].Str? && p["recipient"].Str? && p["mediaUrl"].Str? && p["caption"].Str?
  }

  /** How the provider reads a message body: exactly these keys, all strings, or nothing. */
  ghost function Parse(body: Value): Option<Message>
  {
    if !body.Obj? then None
    else
      var p := body.props;
      if IsTextBody(p) then
        Some(TextMessage(p["connectionName"].s, p["recipient"].s, p["message"].props["body"].s))
      else if IsImageBody(p) then
        Some(ImageMessage(p["connectionName"].s, p["recipient"].s, p["mediaUrl"].s, p["caption"].s))
      else None
  }

  /** Every body the node builds reads back as the message it was built from. */
  lemma ParseBody(m: Message)
    ensures Parse(Body(m)) == Some(m)
  {
    match m
    case TextMessage(conn, to, text) =>
      assert IsTextBody(Body(m).props);
    case ImageMessage(conn, to, url, caption) =>
      assert !IsTextBody(Body(m).props) by {
        assert "message" !in Body(m).props;
      }
      assert IsImageBody(Body(m).props);
  }

  /** Conversely, a body the provider accepts is exactly the one built from what it reads: no other keys. */
  lemma BodyParse(v: Value, m: Message)
    requires Parse(v) == Some(m)
    ensures Body(m) == v
  {
    var p := v.props;
    if IsTextBody(p) {
      var inner := p["message"].props;
      assert inner == map["body" := Str(m.text), "type" := Str("text")];
      assert p == Body(m).props;
    } else {
      assert p == Body(m).props;
    }
  }

  /**
   * The request the node issues for one item, given the resource and the
   * operation (read once, from item 0) and that item's parameters. Any other
   * resource or operation issues nothing.
   */
  function RequestFor(resource: string, operation: string, p: Params, c: Credentials): Option<Request>
  {
    if resource != "message" then None
    else if operation == "sendText" then
      Some(Call(c, POST, SendTextPath, Some(Body(TextMessage(p.connectionName, p.toNumber, p.text)))))
    else if operation == "sendImage" then
      Some(Call(c, POST, SendImagePath, Some(Body(ImageMessage(p.connectionName, p.toNumber, p.mediaUrl, p.caption)))))
    else None
  }

  /** `sendText` is one POST to the send-text endpoint, authenticated with the API key, carrying the item's text message. */
  lemma SendTextRequest(p: Params, c: Credentials)
    ensures RequestFor("message", "sendText", p, c).Some?
    ensures var q := RequestFor("message", "sendText", p, c).value;
      && q.verb == POST
      && PathOf(c, q.url) == Some(SendTextPath)
      && BearerToken(q.headers) == Some(c.apiKey)
      && q.body.Some?
      && Parse(q.body.value) == Some(TextMessage(p.connectionName, p.toNumber, p.text))
  {
    var m := TextMessage(p.connectionName, p.toNumber, p.text);
    CallRoundTrip(c, POST, SendTextPath, Some(Body(m)));
    ParseBody(m);
  }

  /** `sendImage` is one POST to the send-image endpoint carrying the image URL and the caption, which may be empty. */
  lemma SendImageRequest(p: Params, c: Credentials)
    ensures RequestFor("message", "sendImage", p, c).Some?
    ensures var q := RequestFor("message", "sendImage", p, c).value;
      && q.verb == POST
      && PathOf(c, q.url) == Some(SendImagePath)
      && BearerToken(q.headers) == Some(c.apiKey)
      && q.body.Some?
      && Parse(q.body.value) == Some(ImageMessage(p.connectionName, p.toNumber, p.mediaUrl, p.caption))
  {
    var m := ImageMessage(p.connectionName, p.toNumber, p.mediaUrl, p.caption);
    CallRoundTrip(c, POST, SendImagePath, Some(Body(m)));
    ParseBody(m);
  }

  /** The request for item `i`: resource and operation from item 0, everything else from item `i`. */
  function ItemRequest(b: Batch, i: nat): Option<Request>
  {
    RequestFor(b.params(0).resource, b.params(0).operation, b.params(i), b.credentials)
  }

  /** The outcome of the `try` block for item `i`; `responseData` stays undefined when no call is made. */
  function ItemResult(b: Batch, i: nat): Result<Value, Error>
  {
    match ItemRequest(b, i)
    case Some(q) => b.server(i)(q)
    case None => Ok(Undefined)
  }

  /**
   * Which parameters an item's outcome depends on: resource and operation of
   * item 0, the message fields of item `i`. Item `i`'s own resource and
   * operation may differ between the two batches.
   */
  lemma ItemResultReads(b: Batch, b': Batch, i: nat)
    requires b.params(0).resource == b'.params(0).resource
    requires b.params(0).operation == b'.params(0).operation
    requires b.params(i).connectionName == b'.params(i).connectionName
    requires b.params(i).toNumber == b'.params(i).toNumber
    requires b.params(i).text == b'.params(i).text
    requires b.params(i).mediaUrl == b'.params(i).mediaUrl
    requires b.params(i).caption == b'.params(i).caption
    requires b.credentials == b'.credentials
    requires b.server(i) == b'.server(i)
    ensures ItemRequest(b, i) == ItemRequest(b', i)
    ensures ItemResult(b, i) == ItemResult(b', i)
  {
  }

  /** An array response stands for its first element; anything else for itself. */
  function Unwrap(response: Value): Value
  {
    match response
    case Arr(elems) => if |elems| > 0 then elems[0] else Undefined
    case _ => response
  }

  /** The output item for a failure captured in continue-on-fail mode. */
  function FailureRecord(items: seq<Item>, i: nat, e: Error): ExecutionData
    requires i < |items|
  {
    ExecutionData(items[i].json, Some(e), Some(i))
  }

  /** The output item for item `i`, whichever way its `try` block ended. */
  function Record(b: Batch, i: nat, outcome: Result<Value, Error>): ExecutionData
    requires i < |b.items|
  {
    match outcome
    case Ok(response) => ExecutionData(Unwrap(response), None, None)
    case Err(e) => FailureRecord(b.items, i, e)
  }

  /**
   * The error a fail-fast run throws when item `k` fails: the error itself,
   * its context's `itemIndex` set to `k`, or a new `NodeApiError` around it
   * when it has no context.
   */
  function FailFast(e: Error, k: nat): Error
  {
    match e.context
    case Some(ctx) => e.(context := Some(ctx.(itemIndex := Some(k))))
    case None => Error(NodeApiError(OfError(e), None), None)
  }

  /** The requests issued while processing items 0 to n-1, in order. */
  function Issued(b: Batch, n: nat): seq<Request>
  {
    if n == 0 then []
    else
      Issued(b, n - 1) + match ItemRequest(b, n - 1) { case Some(q) => [q] case None => [] }
  }

  /** Item `k` is the first item whose `try` block throws. */
  ghost predicate FirstFailure(b: Batch, k: nat)
  {
    && k < |b.items|
    && ItemResult(b, k).Err?
    && forall j :: 0 <= j < k ==> ItemResult(b, j).Ok?
  }

  /**
   * `execute`: items are processed in index order; each appends exactly one
   * output item, or, in fail-fast mode, the first failure ends the run with an
   * error and no output. Returns the output branches and the requests issued.
   * The continue-on-fail record is the intended `{json: items[i].json, error,
   * pairedItem: i}`; `RunAsWritten` is the handler as the code writes it.
   */
  method Execute(b: Batch) returns (r: Result<seq<seq<ExecutionData>>, Error>, calls: seq<Request>)
    ensures r.Ok? <==> (b.continueOnFail || forall j :: 0 <= j < |b.items| ==> ItemResult(b, j).Ok?)
    ensures r.Ok? ==>
      && |r.value| == 1
      && |r.value[0]| == |b.items|
      && (forall i :: 0 <= i < |b.items| ==> r.value[0][i] == Record(b, i, ItemResult(b, i)))
      && calls == Issued(b, |b.items|)
    ensures r.Err? ==>
      exists k: nat :: FirstFailure(b, k) && r.error == FailFast(ItemResult(b, k).error, k) && calls == Issued(b, k + 1)
  {
    var resource := b.params(0).resource;
    var operation := b.params(0).operation;
    var returnData: seq<ExecutionData> := [];
    calls := [];
    var i := 0;
    while i < |b.items|
      invariant 0 <= i <= |b.items|
      invariant |returnData| == i
      invariant forall j :: 0 <= j < i ==> returnData[j] == Record(b, j, ItemResult(b, j))
      invariant b.continueOnFail || forall j :: 0 <= j < i ==> ItemResult(b, j).Ok?
      invariant calls == Issued(b, i)
    {
      var request := RequestFor(resource, operation, b.params(i), b.credentials);
      var response: Result<Value, Error>;
      if request.Some? {
        calls := calls + [request.value];
        response := b.server(i)(request.value);
      } else {
        response := Ok(Undefined);
      }
      match response {
        case Ok(data) =>
          returnData := returnData + [ExecutionData(Unwrap(data), None, None)];
        case Err(e) =>
          if b.continueOnFail {
            returnData := returnData + [ExecutionData(b.items[i].json, Some(e), Some(i))];
          } else {
            assert FirstFailure(b, i);
            r := Err(FailFast(e, i));
            return;
          }
      }
      i := i + 1;
    }
    r := Ok([returnData]);
  }

  /** A batch that sends messages issues exactly one request per item, built from that item's parameters. */
  lemma {:induction false} IssuedOnePerItem(b: Batch, n: nat)
    requires b.params(0).resource == "message"
    requires b.params(0).operation == "sendText" || b.params(0).operation == "sendImage"
    ensures |Issued(b, n)| == n
    ensures forall i :: 0 <= i < n ==> ItemRequest(b, i).Some? && Issued(b, n)[i] == ItemRequest(b, i).value
  {
    if n > 0 {
      IssuedOnePerItem(b, n - 1);
    }
  }

  /** Any other resource or operation makes no HTTP call at all, and every item outputs `{json: undefined}`. */
  lemma {:induction false} IssuedNothing(b: Batch, n: nat)
    requires b.params(0).resource != "message"
      || (b.params(0).operation != "sendText" && b.params(0).operation != "sendImage")
    ensures Issued(b, n) == []
    ensures forall i :: 0 <= i < |b.items| ==>
      ItemResult(b, i) == Ok(Undefined) && Record(b, i, ItemResult(b, i)) == ExecutionData(Undefined, None, None)
  {
    if n > 0 {
      IssuedNothing(b, n - 1);
    }
  }

  /**
   * The failure handler as written reads `getInputData(i)[0].json`: item 0 of
   * input connection `i`, where `inputs` lists the node's input connections.
   * The node has one input connection, so for `i >= 1` the host returns no
   * list and indexing it with `[0]` throws a `TypeError`.
   */
  function FailureRecordAsWritten(inputs: seq<seq<Item>>, i: nat, e: Error): Result<ExecutionData, Error>
  {
    if i < |inputs| && |inputs[i]| > 0 then Ok(ExecutionData(inputs[i][0].json, Some(e), Some(i)))
    else Err(Error(TypeError("Cannot read properties of undefined (reading '0')"), None))
  }

  /** For the first item, the handler as written and the corrected one agree. */
  lemma AsWrittenFirstItemAgrees(items: seq<Item>, e: Error)
    requires |items| > 0
    ensures FailureRecordAsWritten([items], 0, e) == Ok(FailureRecord(items, 0, e))
  {
  }

  /** On a node with its single input, the handler as written throws for every item after the first. */
  lemma AsWrittenAbortsOnLaterItem(items: seq<Item>, i: nat, e: Error)
    requires 1 <= i < |items|
    ensures FailureRecordAsWritten([items], i, e).Err?
  {
  }

  /**
   * The output of items 0 to n-1 with the failure handler as written, on a
   * node whose single input holds `b.items`; an error is what the run throws.
   */
  function RunAsWritten(b: Batch, n: nat): Result<seq<ExecutionData>, Error>
    requires n <= |b.items|
  {
    if n == 0 then Ok([])
    else
      match RunAsWritten(b, n - 1)
      case Err(e) => Err(e)
      case Ok(out) =>
        match ItemResult(b, n - 1)
        case Ok(response) => Ok(out + [ExecutionData(Unwrap(response), None, None)])
        case Err(e) =>
          if !b.continueOnFail then Err(FailFast(e, n - 1))
          else
            match FailureRecordAsWritten([b.items], n - 1, e)
            case Ok(rec) => Ok(out + [rec])
            case Err(e') => Err(e')
  }

  /** Once the run as written has thrown, it stays thrown. */
  lemma {:induction false} RunAsWrittenStaysFailed(b: Batch, k: nat, n: nat)
    requires k <= n <= |b.items|
    requires RunAsWritten(b, k).Err?
    ensures RunAsWritten(b, n).Err?
    decreases n - k
  {
    if k < n {
      RunAsWrittenStaysFailed(b, k + 1, n);
    }
  }

  /**
   * With continue-on-fail on, a failure of any item after the first makes the
   * run as written throw, where `Execute` returns one output item per input.
   */
  lemma AsWrittenRunAborts(b: Batch, i: nat)
    requires b.continueOnFail
    requires 1 <= i < |b.items|
    requires ItemResult(b, i).Err?
    ensures RunAsWritten(b, |b.items|).Err?
  {
    AsWrittenAbortsOnLaterItem(b.items, i, ItemResult(b, i).error);
    assert RunAsWritten(b, i + 1).Err?;
    RunAsWrittenStaysFailed(b, i + 1, |b.items|);
  }
}
