/**
  The bot of `gopubbot/bot.py`: its table of update handlers, the
  registration of handlers by update type, the processing of an update by
  the handlers of the first type it carries, the webhook URL with its random
  secret, and the secret gate of the webhook endpoint.

  Handlers are callables outside this model: a call is recorded as the
  handler and the update it receives (the API client and the Redis
  connection passed along with it are the same for every call).
 */
module BotServer {
  import opened Values
  import Crypto
  import BotApi
  import LegacyApi

  /** The keys of `_update_handlers`, in insertion order, spelled as the code spells them. */
  const TableKeys := ["message", "edited_message", "inline_query", "chosen_inlineesult", "callback_query"]

  /** The keys as evidently intended: the update type of the Bot API is `chosen_inline_result`. */
  const IntendedTableKeys := ["message", "edited_message", "inline_query", "chosen_inline_result", "callback_query"]

  const SecretLength := 40
  const WebhookPrefix := "/webhook/"
  const WebhookStatus := 204
  /** Tornado's answer when a request handler raises before anything was flushed. */
  const UncaughtErrorStatus := 500

  /** A registered handler. */
  datatype Callback = Callback(name: string)

  /** One call `handler(update, api, redis)`. */
  datatype Call = Call(handler: Callback, update: Json)

  type HandlerTable = map<string, seq<Callback>>

  /** A table with an empty list under each of `keys`. */
  function EmptyTable(keys: seq<string>): (t: HandlerTable)
    ensures forall k :: k in t <==> k in keys
    ensures forall k :: k in t ==> t[k] == []
  {
    map k | k in keys :: []
  }

  // ---------------------------------------------------------------------------
  // Registering handlers

  /** The `update_types` argument: one string, or any list of values. */
  datatype UpdateTypes = OneType(name: string) | TypeList(items: seq<Json>)

  /** A single string stands for the one-element list holding it. */
  function TypeItems(types: UpdateTypes): (items: seq<Json>)
    ensures types.OneType? ==> items == [JStr(types.name)]
    ensures types.TypeList? ==> items == types.items
  {
    match types
    case OneType(name) => [JStr(name)]
    case TypeList(items) => items
  }

  /** The message of the BotError, listing the keys in table order. */
  function UnknownTypeMessage(keys: seq<string>): string {
    "Update type must be one of " + Join(keys, ", ")
  }

  /** An update type the table accepts. */
  predicate Accepted(item: Json, table: HandlerTable) {
    item.JStr? && item.s in table
  }

  /**
    One iteration of `add_update_handler`: an accepted type gets the handler
    appended; a list or dict cannot be looked up (unhashable) and raises
    TypeError; anything else raises BotError.
   */
  function AddStep(table: HandlerTable, item: Json, handler: Callback, keys: seq<string>)
    : (r: Result<HandlerTable>)
    ensures r.Ok? <==> Accepted(item, table)
    ensures r.Ok? ==> r.value == table[item.s := table[item.s] + [handler]]
    ensures r.Err? && !(item.JArr? || item.JObj?) ==> r.error == BotError(UnknownTypeMessage(keys))
  {
    if Accepted(item, table) then Ok(table[item.s := table[item.s] + [handler]])
    else if item.JArr? || item.JObj? then Err(TypeError(""))
    else Err(BotError(UnknownTypeMessage(keys)))
  }

  /**
    `add_update_handler` over the types in order: the table after the loop
    and the exception that stopped it, if any. Appends made before the
    exception stay.
   */
  function AddAll(table: HandlerTable, items: seq<Json>, handler: Callback, keys: seq<string>)
    : (r: (HandlerTable, Option<PyError>))
    ensures r.0.Keys == table.Keys
    ensures r.1.None? <==> forall i :: 0 <= i < |items| ==> Accepted(items[i], table)
  {
    if |items| == 0 then (table, None)
    else
      var before := AddAll(table, items[..|items| - 1], handler, keys);
      var last := items[|items| - 1];
      if before.1.Some? then before
      else
        var step := AddStep(before.0, last, handler, keys);
        if step.Err? then (before.0, Some(step.error)) else (step.value, None)
  }

  /** Once a type was rejected, the later ones are not looked at. */
  lemma {:induction false} AddAllStops(table: HandlerTable, items: seq<Json>, j: nat, handler: Callback,
                                       keys: seq<string>)
    requires j <= |items| && AddAll(table, items[..j], handler, keys).1.Some?
    ensures AddAll(table, items, handler, keys) == AddAll(table, items[..j], handler, keys)
  {
    if j < |items| {
      assert items[..|items| - 1][..j] == items[..j];
      AddAllStops(table, items[..|items| - 1], j, handler, keys);
    } else {
      assert items[..j] == items;
    }
  }

  /** How often `name` occurs among the types. */
  function Count(items: seq<Json>, name: string): nat {
    if |items| == 0 then 0
    else Count(items[..|items| - 1], name) + (if items[|items| - 1] == JStr(name) then 1 else 0)
  }

  function Copies(handler: Callback, n: nat): (r: seq<Callback>)
    ensures |r| == n && forall i :: 0 <= i < n ==> r[i] == handler
  {
    seq(n, _ => handler)
  }

  /**
    A successful registration appends the handler to the end of each named
    list, once per mention, and leaves every other list unchanged.
   */
  lemma {:induction false} AddAllAppends(table: HandlerTable, items: seq<Json>, handler: Callback,
                                         keys: seq<string>)
    requires AddAll(table, items, handler, keys).1.None?
    ensures forall k :: k in table ==>
      AddAll(table, items, handler, keys).0[k] == table[k] + Copies(handler, Count(items, k))
  {
    if |items| > 0 {
      var init := items[..|items| - 1];
      AddAllAppends(table, init, handler, keys);
      forall k | k in table
        ensures AddAll(table, items, handler, keys).0[k] == table[k] + Copies(handler, Count(items, k))
      {
        var last := items[|items| - 1];
        if last == JStr(k) {
          assert Copies(handler, Count(init, k)) + [handler] == Copies(handler, Count(items, k));
        }
      }
    }
  }

  /**
    A registration that fails stops at the first rejected type: the types
    before it have all been appended, and the error is that type's.
   */
  lemma {:induction false} AddAllPartial(table: HandlerTable, items: seq<Json>, handler: Callback,
                                         keys: seq<string>) returns (j: nat)
    requires AddAll(table, items, handler, keys).1.Some?
    ensures j < |items| && !Accepted(items[j], table)
    ensures forall i :: 0 <= i < j ==> Accepted(items[i], table)
    ensures AddAll(table, items[..j], handler, keys).1.None?
    ensures AddAll(table, items, handler, keys)
         == (AddAll(table, items[..j], handler, keys).0,
             Some(AddStep(AddAll(table, items[..j], handler, keys).0, items[j], handler, keys).error))
  {
    j := FirstRejection(table, items, handler, keys);
    RejectedAt(table, items, j, handler, keys);
  }

  /** One more type of the loop, after every earlier type was accepted. */
  lemma AddAllStep(table: HandlerTable, items: seq<Json>, i: nat, handler: Callback, keys: seq<string>)
    requires i < |items| && AddAll(table, items[..i], handler, keys).1.None?
    ensures var before := AddAll(table, items[..i], handler, keys).0;
      var step := AddStep(before, items[i], handler, keys);
      AddAll(table, items[..i + 1], handler, keys)
        == if step.Err? then (before, Some(step.error)) else (step.value, None)
  {
    assert items[..i + 1][..i] == items[..i];
  }

  /** The position of the first rejected type: the loop got past every type before it. */
  lemma {:induction false} FirstRejection(table: HandlerTable, items: seq<Json>, handler: Callback,
                                          keys: seq<string>) returns (j: nat)
    requires AddAll(table, items, handler, keys).1.Some?
    ensures j < |items|
    ensures AddAll(table, items[..j], handler, keys).1.None?
    ensures AddAll(table, items[..j + 1], handler, keys).1.Some?
  {
    var n := |items| - 1;
    if AddAll(table, items[..n], handler, keys).1.Some? {
      j := FirstRejection(table, items[..n], handler, keys);
      PrefixOfPrefix(items, n, j);
      PrefixOfPrefix(items, n, j + 1);
    } else {
      j := n;
      assert items[..j + 1] == items;
    }
  }

  lemma PrefixOfPrefix<T>(s: seq<T>, n: nat, j: nat)
    requires j <= n <= |s|
    ensures s[..n][..j] == s[..j]
  {
  }

  /** What the loop does when the type at `j` is the first it rejects. */
  lemma RejectedAt(table: HandlerTable, items: seq<Json>, j: nat, handler: Callback, keys: seq<string>)
    requires j < |items|
    requires AddAll(table, items[..j], handler, keys).1.None?
    requires AddAll(table, items[..j + 1], handler, keys).1.Some?
    ensures !Accepted(items[j], table)
    ensures forall i :: 0 <= i < j ==> Accepted(items[i], table)
    ensures AddAll(table, items, handler, keys)
         == (AddAll(table, items[..j], handler, keys).0,
             Some(AddStep(AddAll(table, items[..j], handler, keys).0, items[j], handler, keys).error))
  {
    assert items[..j + 1][..j] == items[..j];
    forall i | 0 <= i < j ensures Accepted(items[i], table) {
      assert items[..j][i] == items[i];
    }
    AddAllStops(table, items, j + 1, handler, keys);
  }

  /** Because of the misspelt key, the table rejects the Bot API's `chosen_inline_result` type. */
  lemma ChosenInlineResultRejected(handler: Callback)
    ensures AddAll(EmptyTable(TableKeys), [JStr("chosen_inline_result")], handler, TableKeys)
         == (EmptyTable(TableKeys), Some(BotError(UnknownTypeMessage(TableKeys))))
  {
    assert "chosen_inline_result" !in EmptyTable(TableKeys);
    assert [JStr("chosen_inline_result")][..0] == [];
  }

  /** With the intended key the same registration succeeds and files the handler under that type. */
  lemma ChosenInlineResultAcceptedAsIntended(handler: Callback)
    ensures var r := AddAll(EmptyTable(IntendedTableKeys), [JStr("chosen_inline_result")], handler,
                            IntendedTableKeys);
      r.1.None? && r.0["chosen_inline_result"] == [handler]
  {
    var items := [JStr("chosen_inline_result")];
    assert Accepted(items[0], EmptyTable(IntendedTableKeys));
    assert items[..0] == [];
  }

  // ---------------------------------------------------------------------------
  // Processing updates

  /** The first of `keys` that `key in update` finds, scanning in order; the test raises on a non-container. */
  function FirstPresent(update: Json, keys: seq<string>): (r: Result<Option<string>>)
    ensures !IsContainer(update) && |keys| > 0 ==> r.Err?
    ensures IsContainer(update) ==> r.Ok?
    ensures r.Ok? && r.value.Some? ==> r.value.value in keys
    ensures IsContainer(update) ==> (r.value.None? <==> forall i :: 0 <= i < |keys| ==> !In(update, keys[i]))
  {
    if |keys| == 0 then Ok(None)
    else
      var here := Contains(update, keys[0]);
      if here.Err? then Err(here.error)
      else if here.value then Ok(Some(keys[0]))
      else
        assert forall i :: 1 <= i < |keys| ==> keys[i] == keys[1..][i - 1];
        FirstPresent(update, keys[1..])
  }

  /** The key found is the first of `keys`, in order, that the update has. */
  lemma {:induction false} FirstPresentIsFirst(update: Json, keys: seq<string>) returns (j: nat)
    requires IsContainer(update) && FirstPresent(update, keys).value.Some?
    ensures j < |keys| && keys[j] == FirstPresent(update, keys).value.value && In(update, keys[j])
    ensures forall i :: 0 <= i < j ==> !In(update, keys[i])
  {
    if In(update, keys[0]) {
      j := 0;
    } else {
      var k := FirstPresentIsFirst(update, keys[1..]);
      j := k + 1;
    }
  }

  /** The calls to `handlers`, in list order, each with the update. */
  function CallsFor(handlers: seq<Callback>, update: Json): (r: seq<Call>)
    ensures |r| == |handlers|
    ensures forall i :: 0 <= i < |handlers| ==> r[i] == Call(handlers[i], update)
  {
    seq(|handlers|, i requires 0 <= i < |handlers| => Call(handlers[i], update))
  }

  /** One more key of the scan: it is the answer when the update has it, else the scan goes on. */
  lemma FirstPresentStep(update: Json, keys: seq<string>, i: nat)
    requires i < |keys|
    ensures FirstPresent(update, keys[i..])
         == var here := Contains(update, keys[i]);
            if here.Err? then Err(here.error)
            else if here.value then Ok(Some(keys[i]))
            else FirstPresent(update, keys[i + 1..])
  {
    assert keys[i..][0] == keys[i];
    assert keys[i..][1..] == keys[i + 1..];
  }

  /** `for handler in handlers: handler(update)`: each handler called once, in list order. */
  method RunHandlers(handlers: seq<Callback>, update: Json) returns (calls: seq<Call>)
    ensures calls == CallsFor(handlers, update)
  {
    calls := [];
    var j := 0;
    while j < |handlers|
      invariant 0 <= j <= |handlers|
      invariant calls == CallsFor(handlers[..j], update)
    {
      calls := calls + [Call(handlers[j], update)];
      j := j + 1;
    }
    assert handlers[..j] == handlers;
  }

  /**
    `process_update(update)`: the handlers of the first table key, in table
    order, that the update has, in list order; nothing when it has none.
   */
  function Processed(update: Json, table: HandlerTable): (r: (seq<Call>, Option<PyError>))
    requires forall i :: 0 <= i < |TableKeys| ==> TableKeys[i] in table
    ensures !IsContainer(update) ==> r == ([], Some(WrongType))
    ensures IsContainer(update) && (forall i :: 0 <= i < |TableKeys| ==> !In(update, TableKeys[i])) ==>
      r == ([], None)
  {
    var first := FirstPresent(update, TableKeys);
    if first.Err? then ([], Some(first.error))
    else if first.value.None? then ([], None)
    else (CallsFor(table[first.value.value], update), None)
  }

  /** An update with a table key runs exactly that key's handlers, in order, and no other. */
  lemma ProcessedRunsFirstKeyOnly(update: Json, table: HandlerTable) returns (j: nat)
    requires forall i :: 0 <= i < |TableKeys| ==> TableKeys[i] in table
    requires IsContainer(update) && exists i :: 0 <= i < |TableKeys| && In(update, TableKeys[i])
    ensures j < |TableKeys| && In(update, TableKeys[j])
    ensures forall i :: 0 <= i < j ==> !In(update, TableKeys[i])
    ensures Processed(update, table) == (CallsFor(table[TableKeys[j]], update), None)
  {
    j := FirstPresentIsFirst(update, TableKeys);
  }

  // ---------------------------------------------------------------------------
  // The webhook

  function WebhookPath(secret: string): string {
    WebhookPrefix + secret
  }

  /**
    `'https://{}:{}/webhook/{}'.format(server, str(port), secret)`: the scheme
    and host, the decimal port, then the path that `RouteKeyInvertsWebhookPath`
    shows routes back to the secret.
   */
  function WebhookUrl(server: string, port: int, secret: string): (url: string)
    ensures "https://" + server + ":" <= url
    ensures |url| == |"https://" + server + ":"| + |IntToString(port)| + |WebhookPath(secret)|
    ensures url[|url| - |WebhookPath(secret)|..] == WebhookPath(secret)
    ensures url[|"https://" + server + ":"|..|url| - |WebhookPath(secret)|] == IntToString(port)
  {
    "https://" + server + ":" + IntToString(port) + WebhookPrefix + secret
  }

  /** The `key` of the route `/webhook/(?P<key>[^\/]+)`, matched against the whole path. */
  function RouteKey(path: string): (r: Option<string>)
    ensures r.Some? ==> path == WebhookPath(r.value) && r.value != "" && '/' !in r.value
  {
    if WebhookPrefix <= path && |path| > |WebhookPrefix| && '/' !in path[|WebhookPrefix|..] then
      assert path == WebhookPrefix + path[|WebhookPrefix|..];
      Some(path[|WebhookPrefix|..])
    else None
  }

  /** The path of the registered URL routes back with the secret as its key. */
  lemma RouteKeyInvertsWebhookPath(secret: string)
    requires secret != "" && '/' !in secret
    ensures RouteKey(WebhookPath(secret)) == Some(secret)
  {
    assert WebhookPath(secret)[|WebhookPrefix|..] == secret;
  }

  class Bot {
    const api: LegacyApi.BotApiClient
    const secret: string
    const webhookUrl: string
    var updateHandlers: HandlerTable

    /** The table has exactly the five keys. */
    ghost predicate Valid()
      reads this
    {
      forall k :: k in updateHandlers <==> k in TableKeys
    }

    /**
      The constructor's handler table, secret and webhook URL. The random
      source is the oracle `draws` (indices into the default alphabet).
     */
    constructor (token: string, publicServerName: string, publicPort: int, draws: seq<nat>)
      requires SecretLength <= |draws|
      requires forall i :: 0 <= i < |draws| ==> draws[i] < |Crypto.DefaultAllowedChars|
      ensures Valid() && updateHandlers == EmptyTable(TableKeys)
      ensures api.token == token && fresh(api)
      ensures Ok(secret) == Crypto.RandomString(SecretLength, Crypto.DefaultAllowedChars, draws)
      ensures |secret| == SecretLength
      ensures forall i :: 0 <= i < |secret| ==> Crypto.IsAsciiLetterOrDigit(secret[i])
      ensures webhookUrl == WebhookUrl(publicServerName, publicPort, secret)
      ensures RouteKey(WebhookPath(secret)) == Some(secret)
    {
      api := new LegacyApi.BotApiClient(token);
      updateHandlers := EmptyTable(TableKeys);
      Crypto.DefaultAlphabet();
      var drawn := Crypto.RandomString(SecretLength, Crypto.DefaultAllowedChars, draws);
      secret := drawn.value;
      webhookUrl := WebhookUrl(publicServerName, publicPort, drawn.value);
      new;
      assert forall i :: 0 <= i < |secret| ==> secret[i] in Crypto.DefaultAllowedChars;
      assert '/' !in secret by {
        assert !Crypto.IsAsciiLetterOrDigit('/');
      }
      RouteKeyInvertsWebhookPath(secret);
    }

    /**
      `add_update_handler(update_types, handler)`: appends the handler under
      each type in turn, raising at the first type the table does not have.
     */
    method AddUpdateHandler(types: UpdateTypes, handler: Callback) returns (err: Option<PyError>)
      requires Valid()
      modifies this
      ensures Valid()
      ensures (updateHandlers, err) == AddAll(old(updateHandlers), TypeItems(types), handler, TableKeys)
    {
      var items := TypeItems(types);
      var i := 0;
      while i < |items|
        invariant 0 <= i <= |items|
        invariant AddAll(old(updateHandlers), items[..i], handler, TableKeys) == (updateHandlers, None)
      {
        AddAllStep(old(updateHandlers), items, i, handler, TableKeys);
        var step := AddStep(updateHandlers, items[i], handler, TableKeys);
        if step.Err? {
          AddAllStops(old(updateHandlers), items, i + 1, handler, TableKeys);
          return Some(step.error);
        }
        updateHandlers := updateHandlers[items[i].s := updateHandlers[items[i].s] + [handler]];
        i := i + 1;
      }
      assert items[..i] == items;
      err := None;
    }

    /** `process_update(update)`: scans the table keys in order and runs the first present key's handlers. */
    method ProcessUpdate(update: Json) returns (calls: seq<Call>, err: Option<PyError>)
      requires Valid()
      ensures (calls, err) == Processed(update, updateHandlers)
    {
      var i := 0;
      while i < |TableKeys|
        invariant 0 <= i <= |TableKeys|
        invariant FirstPresent(update, TableKeys) == FirstPresent(update, TableKeys[i..])
      {
        FirstPresentStep(update, TableKeys, i);
        var present := Contains(update, TableKeys[i]);
        if present.Err? {
          return [], Some(present.error);
        }
        if present.value {
          calls := RunHandlers(updateHandlers[TableKeys[i]], update);
          return calls, None;
        }
        i := i + 1;
      }
      calls, err := [], None;
    }

    /** `register(webhook_url, certificate)`: the API calls made, in order, when each succeeds. */
    method Register(url: Json, certificate: Json) returns (calls: seq<BotApi.ApiCall>)
      ensures |calls| == 2
      ensures calls[0] == BotApi.ApiCall("getMe", None, None)
      ensures calls[1].apiMethod == "setWebhook" && calls[1].params == Some([("url", url)])
      ensures calls[1].files.Some? <==> certificate != JNull
      ensures calls[1].files.Some? ==> calls[1].files.value == [("certificate", certificate)]
    {
      var me := api.GetMe();
      var hook := api.SetWebhook(url, certificate);
      calls := [me, hook];
    }

    /** `unregister()`: the webhook is set to the empty URL, with no certificate. */
    method Unregister() returns (call: BotApi.ApiCall)
      ensures call == BotApi.ApiCall("setWebhook", Some([("url", JStr(""))]), None)
    {
      call := api.SetWebhook(JStr(""), JNull);
    }
  }

  /** The request handler of the webhook route, holding the secret and the bot whose `process_update` it calls. */
  class WebHookHandler {
    const secret: string
    const bot: Bot

    constructor (secret: string, bot: Bot)
      ensures this.secret == secret && this.bot == bot
    {
      this.secret := secret;
      this.bot := bot;
    }

    /**
      `post(key)`: sets 204; only a key equal to the secret has the body
      decoded (`body` None stands for one that is not JSON) and processed. The
      204 is not flushed, so when `post` raises, Tornado answers 500 instead.
     */
    method Post(key: string, body: Option<Json>) returns (status: int, calls: seq<Call>, err: Option<PyError>)
      requires bot.Valid()
      ensures status == if err.Some? then UncaughtErrorStatus else WebhookStatus
      ensures key != secret ==> calls == [] && err == None
      ensures key == secret && body.None? ==> calls == [] && err == Some(ValueError)
      ensures key == secret && body.Some? ==> (calls, err) == Processed(body.value, bot.updateHandlers)
    {
      status := WebhookStatus;
      calls, err := [], None;
      if key == secret {
        if body.None? {
          return UncaughtErrorStatus, [], Some(ValueError);
        }
        calls, err := bot.ProcessUpdate(body.value);
        if err.Some? {
          status := UncaughtErrorStatus;
        }
      }
    }
  }
}
