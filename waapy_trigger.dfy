/**
 * The trigger node: the provider-side webhook subscription, remembered in the
 * node's persisted static data as `webhookId`, and the handler that turns each
 * pushed event into one workflow item.
 */
module WaapyTrigger {
  import opened Wrappers
  import opened Js
  import opened Host

  const WebhooksPath := "/n8n/webhooks"
  const NoWebhookUrl := "No webhook URL could be determined."
  const CreationFailed := "Webhook creation failed"

  /** The endpoint of one registration: `/n8n/webhooks/${webhookId}`. */
  function WebhookPath(id: Value): string
  {
    WebhooksPath + "/" + Text(id)
  }

  /** `responseData.id`: reading a property of null or undefined throws. */
  function IdOf(response: Value): Result<Value, Error>
  {
    match response
    case Obj(props) => Ok(if "id" in props then props["id"] else Undefined)
    case Undefined => Err(Error(TypeError("Cannot read properties of undefined (reading 'id')"), None))
    case Null => Err(Error(TypeError("Cannot read properties of null (reading 'id')"), None))
    case _ => Ok(Undefined)
  }

  /** The `NodeApiError` that `create`'s catch block throws around whatever it caught. */
  function Wrap(e: Error): Error
  {
    Error(NodeApiError(OfError(e), None), None)
  }

  /** The body `create` posts: the callback URL and the selected event names. */
  function SubscribeBody(webhookUrl: string, events: seq<string>): Value
  {
    Obj(map[
      "url" := Str(webhookUrl),
      "events" := Arr(seq(|events|, i requires 0 <= i < |events| => Str(events[i])))])
  }

  /** One hook call: the `webhookId` afterwards, what the hook returns, and the requests it issued. */
  datatype Step<R> = Step(id: Option<Value>, result: R, calls: seq<Request>)

  /** `checkExists`: a GET on the stored registration; never changes `webhookId`. */
  function CheckExistsStep(id: Option<Value>, c: Credentials, server: Server): Step<bool>
  {
    match id
    case None => Step(id, false, [])
    case Some(v) =>
      var q := Call(c, GET, WebhookPath(v), None);
      Step(id, server(q).Ok?, [q])
  }

  /**
   * `create`: with a webhook URL, POST the subscription and store the `id` of
   * the response; every failure after the URL check is rethrown as a
   * `NodeApiError` around the caught error.
   */
  function CreateStep(id: Option<Value>, webhookUrl: Option<string>, events: seq<string>, c: Credentials, server: Server)
    : Step<Result<bool, Error>>
  {
    match webhookUrl
    case None => Step(id, Err(Error(NodeOperationError(NoWebhookUrl), None)), [])
    case Some(url) =>
      var q := Call(c, POST, WebhooksPath, Some(SubscribeBody(url, events)));
      match server(q)
      case Err(e) => Step(id, Err(Wrap(e)), [q])
      case Ok(response) =>
        match IdOf(response)
        case Err(e) => Step(id, Err(Wrap(e)), [q])
        case Ok(Undefined) =>
          Step(id, Err(Wrap(Error(NodeApiError(OfResponse(response), Some(CreationFailed)), None))), [q])
        case Ok(v) => Step(Some(v), Ok(true), [q])
  }

  /** `delete`: a DELETE on the stored registration; `webhookId` is removed only when it succeeds. */
  function DeleteStep(id: Option<Value>, c: Credentials, server: Server): Step<bool>
  {
    match id
    case None => Step(id, false, [])
    case Some(v) =>
      var q := Call(c, DELETE, WebhookPath(v), None);
      if server(q).Ok? then Step(None, true, [q]) else Step(id, false, [q])
  }

  /**
   * A stored id is never `undefined`: in JavaScript that value is the absent
   * state, which `checkExists` and `delete` test with `!== undefined`.
   */
  predicate DefinedId(id: Option<Value>)
  {
    id != Some(Undefined)
  }

  /** No hook call stores `undefined` as the id. */
  lemma StepsKeepDefinedId(id: Option<Value>, url: Option<string>, events: seq<string>, c: Credentials, server: Server)
    requires DefinedId(id)
    ensures DefinedId(CheckExistsStep(id, c, server).id)
    ensures DefinedId(CreateStep(id, url, events, c, server).id)
    ensures DefinedId(DeleteStep(id, c, server).id)
  {
  }

  /** The node's persisted static data; `webhookId` is absent until a registration succeeds. */
  class StaticData {
    var webhookId: Option<Value>

    ghost predicate Valid()
      reads this
    {
      DefinedId(webhookId)
    }

    constructor ()
      ensures Valid() && webhookId == None
    {
      webhookId := None;
    }

    /** Whether the stored registration still exists on the provider. */
    method CheckExists(c: Credentials, server: Server) returns (found: bool, calls: seq<Request>)
      requires Valid()
      ensures found <==> webhookId.Some? && server(Call(c, GET, WebhookPath(webhookId.value), None)).Ok?
      ensures Step(webhookId, found, calls) == CheckExistsStep(webhookId, c, server)
    {
      if webhookId.Some? {
        var request := Call(c, GET, WebhookPath(webhookId.value), None);
        calls := [request];
        match server(request) {
          case Ok(_) => found := true;
          case Err(_) => found := false;
        }
      } else {
        found, calls := false, [];
      }
    }

    /** Registers `webhookUrl` for `events` and stores the id the provider returns. */
    method Create(webhookUrl: Option<string>, events: seq<string>, c: Credentials, server: Server)
      returns (r: Result<bool, Error>, calls: seq<Request>)
      requires Valid()
      modifies this
      ensures Valid()
      ensures Step(webhookId, r, calls) == CreateStep(old(webhookId), webhookUrl, events, c, server)
    {
      if webhookUrl.None? {
        r, calls := Err(Error(NodeOperationError(NoWebhookUrl), None)), [];
        return;
      }
      var request := Call(c, POST, WebhooksPath, Some(SubscribeBody(webhookUrl.value, events)));
      calls := [request];
      var response := server(request);
      if response.Err? {
        r := Err(Wrap(response.error));
        return;
      }
      var id := IdOf(response.value);
      if id.Err? {
        r := Err(Wrap(id.error));
      } else if id.value == Undefined {
        r := Err(Wrap(Error(NodeApiError(OfResponse(response.value), Some(CreationFailed)), None)));
      } else {
        webhookId := Some(id.value);
        r := Ok(true);
      }
    }

    /** Removes the stored registration from the provider, forgetting it only when that succeeds. */
    method Delete(c: Credentials, server: Server) returns (deleted: bool, calls: seq<Request>)
      requires Valid()
      modifies this
      ensures Valid()
      ensures Step(webhookId, deleted, calls) == DeleteStep(old(webhookId), c, server)
    {
      if webhookId.None? {
        deleted, calls := false, [];
        return;
      }
      var request := Call(c, DELETE, WebhookPath(webhookId.value), None);
      calls := [request];
      if server(request).Ok? {
        webhookId := None;
        deleted := true;
      } else {
        deleted := false;
      }
    }
  }

  /** Without a stored id, `checkExists` and `delete` answer false and make no call. */
  lemma UnregisteredMakesNoCalls(c: Credentials, server: Server)
    ensures CheckExistsStep(None, c, server) == Step(None, false, [])
    ensures DeleteStep(None, c, server) == Step(None, false, [])
  {
  }

  /** `checkExists` never changes the stored id, whatever the provider answers. */
  lemma CheckExistsKeepsId(id: Option<Value>, c: Credentials, server: Server)
    ensures CheckExistsStep(id, c, server).id == id
    ensures |CheckExistsStep(id, c, server).calls| <= 1
  {
  }

  /**
   * `create` succeeds exactly when the provider answers with a defined `id`,
   * and then stores that id; otherwise it throws and the stored id is untouched.
   */
  lemma CreateStoresReturnedId(id: Option<Value>, url: string, events: seq<string>, c: Credentials, server: Server)
    ensures var s := CreateStep(id, Some(url), events, c, server);
      var response := server(Call(c, POST, WebhooksPath, Some(SubscribeBody(url, events))));
      && (s.result == Ok(true) <==> response.Ok? && IdOf(response.value).Ok? && IdOf(response.value).value != Undefined)
      && (s.result.Ok? ==> s.result.value && s.id == Some(IdOf(response.value).value))
      && (s.result.Err? ==> s.id == id && s.result.error.kind.NodeApiError?)
      && s.calls == [Call(c, POST, WebhooksPath, Some(SubscribeBody(url, events)))]
  {
  }

  /** The subscription body reads back as the callback URL and the event names, in order, with no other keys. */
  lemma SubscribeBodyReadBack(url: string, events: seq<string>)
    ensures var body := SubscribeBody(url, events);
      && body.Obj?
      && body.props.Keys == {"url", "events"}
      && body.props["url"] == Str(url)
      && body.props["events"].Arr?
      && |body.props["events"].elems| == |events|
      && forall i :: 0 <= i < |events| ==> body.props["events"].elems[i] == Str(events[i])
  {
  }

  /** With a stored id, `checkExists` issues one GET on it and answers whether the provider accepted it. */
  lemma CheckExistsRegistered(v: Value, c: Credentials, server: Server)
    ensures var q := Call(c, GET, WebhookPath(v), None);
      CheckExistsStep(Some(v), c, server) == Step(Some(v), server(q).Ok?, [q])
  {
  }

  /** Without a webhook URL, `create` throws a `NodeOperationError` before any call. */
  lemma CreateNeedsUrl(id: Option<Value>, events: seq<string>, c: Credentials, server: Server)
    ensures CreateStep(id, None, events, c, server).calls == []
    ensures CreateStep(id, None, events, c, server).id == id
    ensures CreateStep(id, None, events, c, server).result.Err?
    ensures CreateStep(id, None, events, c, server).result.error.kind.NodeOperationError?
  {
  }

  /** `create` does not read the previous id: its call and its result are the same from any state. */
  lemma CreateIgnoresPreviousId(id1: Option<Value>, id2: Option<Value>, url: Option<string>, events: seq<string>,
                                c: Credentials, server: Server)
    ensures CreateStep(id1, url, events, c, server).calls == CreateStep(id2, url, events, c, server).calls
    ensures CreateStep(id1, url, events, c, server).result == CreateStep(id2, url, events, c, server).result
    ensures CreateStep(id1, url, events, c, server).result.Ok? ==>
      CreateStep(id1, url, events, c, server).id == CreateStep(id2, url, events, c, server).id
  {
  }

  /** After a successful `create`, `checkExists` asks the provider about exactly the id it returned. */
  lemma CreateThenCheckExists(id: Option<Value>, url: string, events: seq<string>, c: Credentials,
                              server: Server, later: Server)
    requires CreateStep(id, Some(url), events, c, server).result.Ok?
    ensures var created := CreateStep(id, Some(url), events, c, server).id;
      && created.Some?
      && CheckExistsStep(created, c, later).calls == [Call(c, GET, WebhookPath(created.value), None)]
  {
  }

  /** A successful `create` followed by a `delete` the provider accepts leaves no registration behind. */
  lemma CreateThenDelete(id: Option<Value>, url: string, events: seq<string>, c: Credentials,
                         server: Server, later: Server)
    requires CreateStep(id, Some(url), events, c, server).result.Ok?
    requires var created := CreateStep(id, Some(url), events, c, server).id;
      created.Some? && later(Call(c, DELETE, WebhookPath(created.value), None)).Ok?
    ensures var d := DeleteStep(CreateStep(id, Some(url), events, c, server).id, c, later);
      d.id == None && d.result
  {
  }

  /**
   * With a stored id, `delete` issues one DELETE on it; it clears the id and
   * returns true when the provider accepts, and otherwise returns false and
   * keeps the id.
   */
  lemma DeleteRegistered(v: Value, c: Credentials, server: Server)
    ensures var q := Call(c, DELETE, WebhookPath(v), None);
      DeleteStep(Some(v), c, server) == if server(q).Ok? then Step(None, true, [q]) else Step(Some(v), false, [q])
  {
  }

  /**
   * A `delete` the provider rejects keeps the stale id, and a later successful
   * `create` replaces it without any DELETE: the old registration is never
   * removed on the provider.
   */
  lemma StaleIdReplacedWithoutDelete(oldId: Value, url: string, events: seq<string>, c: Credentials,
                                     rejecting: Server, server: Server)
    requires rejecting(Call(c, DELETE, WebhookPath(oldId), None)).Err?
    requires CreateStep(Some(oldId), Some(url), events, c, server).result.Ok?
    ensures DeleteStep(Some(oldId), c, rejecting) == Step(Some(oldId), false, [Call(c, DELETE, WebhookPath(oldId), None)])
    ensures var s := CreateStep(Some(oldId), Some(url), events, c, server);
      && s.id.Some?
      && forall q :: q in s.calls ==> q.verb == POST
  {
  }

  /** One lifecycle call of the host on the trigger node. */
  datatype Hook =
    | CheckExistsHook(c: Credentials, server: Server)
    | CreateHook(webhookUrl: Option<string>, events: seq<string>, c: Credentials, server: Server)
    | DeleteHook(c: Credentials, server: Server)

  /** The id after one hook call, and whether that call reported success. */
  function Apply(id: Option<Value>, h: Hook): (Option<Value>, bool)
  {
    match h
    case CheckExistsHook(c, server) =>
      var s := CheckExistsStep(id, c, server); (s.id, false)
    case CreateHook(url, events, c, server) =>
      var s := CreateStep(id, url, events, c, server); (s.id, s.result == Ok(true))
    case DeleteHook(c, server) =>
      var s := DeleteStep(id, c, server); (s.id, s.result)
  }

  /** The id after a sequence of hook calls. */
  function Replay(id: Option<Value>, hooks: seq<Hook>): Option<Value>
    decreases |hooks|
  {
    if hooks == [] then id else Replay(Apply(id, hooks[0]).0, hooks[1..])
  }

  /** No `create` and no `delete` in the sequence reported success. */
  ghost predicate Quiet(id: Option<Value>, hooks: seq<Hook>)
    decreases |hooks|
  {
    hooks == [] || (!Apply(id, hooks[0]).1 && Quiet(Apply(id, hooks[0]).0, hooks[1..]))
  }

  /** The stored id changes only through a `create` or `delete` that reported success. */
  lemma {:induction false} QuietKeepsId(id: Option<Value>, hooks: seq<Hook>)
    requires Quiet(id, hooks)
    ensures Replay(id, hooks) == id
    decreases |hooks|
  {
    if hooks != [] {
      var h := hooks[0];
      assert Apply(id, h).0 == id by {
        match h
        case CheckExistsHook(c, server) =>
        case CreateHook(url, events, c, server) =>
          if url.Some? {
            CreateStoresReturnedId(id, url.value, events, c, server);
          } else {
            CreateNeedsUrl(id, events, c, server);
          }
        case DeleteHook(c, server) =>
      }
      QuietKeepsId(id, hooks[1..]);
    }
  }

  /** What the webhook hands the workflow: `workflowData`, a list of output branches. */
  datatype WebhookResponse = WebhookResponse(workflowData: seq<seq<ExecutionData>>)

  /** `webhook`: the request body, unchanged, as the single item of the single output branch. */
  function Webhook(body: Value): (r: WebhookResponse)
    ensures |r.workflowData| == 1 && |r.workflowData[0]| == 1
    ensures r.workflowData[0][0].json == body
    ensures r.workflowData[0][0].error.None? && r.workflowData[0][0].pairedItem.None?
  {
    WebhookResponse([[ExecutionData(body, None, None)]])
  }
}
