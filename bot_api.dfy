/**
  The Telegram Bot API client of `gopubbot/bot/api.py`: the method URL, the
  choice between GET, url-encoded POST and multipart POST, the parsing of the
  `{ok, result, description}` envelope, and the parameter dictionaries of the
  API methods.

  A Python dict keeps insertion order, so parameters are an association list
  in insertion order. Each API method is modelled up to the call it makes to
  `fetch`: it returns that call's arguments (`ApiCall`); `Fetch` then models
  what happens to any such call. The HTTP client's answer is an input
  (`Reply`), `json.dumps` is a function parameter (`dumps`), and
  `urlencode(params)` stays structured as `FormBody(params)`.
 */
module BotApi {
  import opened Values
  import Multipart

  const ApiBase := "https://api.telegram.org/bot"

  type Params = seq<(string, Json)>

  /** The arguments of one `fetch(method, params, files)` call. */
  datatype ApiCall = ApiCall(apiMethod: string, params: Option<Params>, files: Option<Params>)

  datatype Body = NoBody | FormBody(fields: Params) | MultipartBody(bytes: seq<uint8>)

  /** The `HTTPRequest` handed to the HTTP client; `contentType` is the one header `fetch` adds. */
  datatype Request = Request(url: string, httpMethod: string, contentType: Option<string>, body: Body)

  /** What the HTTP client gives back: a JSON body, a body that is not JSON, or an exception (HTTP status). */
  datatype Reply = Received(data: Json) | Garbled | Failed(code: int)

  // ---------------------------------------------------------------------------
  // Parameter dictionaries

  /** `params.get(k)` on an insertion-ordered dict: the first entry with key `k`. */
  function Lookup(p: Params, k: string): Option<Json>
  {
    if |p| == 0 then None
    else if p[0].0 == k then Some(p[0].1)
    else Lookup(p[1..], k)
  }

  predicate DistinctKeys(p: Params) {
    forall i, j :: 0 <= i < j < |p| ==> p[i].0 != p[j].0
  }

  predicate NoKey(p: Params, k: string) {
    forall i :: 0 <= i < |p| ==> p[i].0 != k
  }

  /** An optional argument: the key is present exactly when the argument is not None, with that value. */
  predicate Optional(p: Params, k: string, arg: Json) {
    Lookup(p, k) == if arg == JNull then None else Some(arg)
  }

  /** `if v is not None: params[k] = v`, for a key not yet in `params`. */
  function Entry(k: string, v: Json): Params {
    if v == JNull then [] else [(k, v)]
  }

  /** The optional arguments that are not None, in the order the code tests them. */
  function Given(opts: Params): (r: Params)
    ensures |r| <= |opts|
    ensures forall i :: 0 <= i < |r| ==> r[i].1 != JNull
  {
    if |opts| == 0 then []
    else Given(opts[..|opts| - 1]) + Entry(opts[|opts| - 1].0, opts[|opts| - 1].1)
  }

  /** Testing one more option appends its entry when it is not None. */
  lemma GivenSnoc(opts: Params, k: string, v: Json)
    ensures Given(opts + [(k, v)]) == Given(opts) + Entry(k, v)
  {
    assert (opts + [(k, v)])[..|opts|] == opts;
  }

  lemma AppendAssociates<T>(a: seq<T>, b: seq<T>, c: seq<T>)
    ensures a + b + c == a + (b + c)
  {
  }

  /** Testing one more option after a dict literal `base` appends its entry when it is not None. */
  lemma OptionStep(base: Params, opts: Params, k: string, v: Json)
    ensures base + Given(opts) + Entry(k, v) == base + Given(opts + [(k, v)])
  {
    GivenSnoc(opts, k, v);
    AppendAssociates(base, Given(opts), Entry(k, v));
  }

  /** Three `if v is not None: params[k] = v` steps after a dict literal `base`. */
  lemma ThreeOptions(base: Params, a: (string, Json), b: (string, Json), c: (string, Json))
    ensures base + Entry(a.0, a.1) + Entry(b.0, b.1) + Entry(c.0, c.1) == base + Given([a, b, c])
  {
    assert base + Given([]) == base;
    OptionStep(base, [], a.0, a.1);
    assert [] + [a] == [a];
    OptionStep(base, [a], b.0, b.1);
    assert [a] + [b] == [a, b];
    OptionStep(base, [a, b], c.0, c.1);
    assert [a, b] + [c] == [a, b, c];
  }

  /** Five `if v is not None: params[k] = v` steps after a dict literal `base`. */
  lemma FiveOptions(base: Params, a: (string, Json), b: (string, Json), c: (string, Json),
                    d: (string, Json), e: (string, Json))
    ensures base + Entry(a.0, a.1) + Entry(b.0, b.1) + Entry(c.0, c.1) + Entry(d.0, d.1) + Entry(e.0, e.1)
         == base + Given([a, b, c, d, e])
  {
    ThreeOptions(base, a, b, c);
    OptionStep(base, [a, b, c], d.0, d.1);
    assert [a, b, c] + [d] == [a, b, c, d];
    OptionStep(base, [a, b, c, d], e.0, e.1);
    assert [a, b, c, d] + [e] == [a, b, c, d, e];
  }

  /**
    A two-entry dict literal followed by the optional arguments that are not
    None: every key once, both literal entries kept, each option present
    exactly when it is not None.
   */
  lemma PairWithOptions(a: (string, Json), b: (string, Json), opts: Params)
    requires a.0 != b.0 && DistinctKeys(opts) && NoKey(opts, a.0) && NoKey(opts, b.0)
    ensures var p := [a, b] + Given(opts);
      && DistinctKeys(p)
      && Lookup(p, a.0) == Some(a.1) && Lookup(p, b.0) == Some(b.1)
      && forall j :: 0 <= j < |opts| ==> Optional(p, opts[j].0, opts[j].1)
  {
    ParamsWithOptions([a, b], opts);
    assert [a, b][0] == a && [a, b][1] == b;
  }

  /** When every option is None, none of them is sent. */
  lemma {:induction false} GivenNone(opts: Params)
    requires forall i :: 0 <= i < |opts| ==> opts[i].1 == JNull
    ensures Given(opts) == []
  {
    if |opts| > 0 {
      GivenNone(opts[..|opts| - 1]);
    }
  }

  lemma {:induction false} LookupAbsent(p: Params, k: string)
    requires NoKey(p, k)
    ensures Lookup(p, k) == None
  {
    if |p| > 0 {
      LookupAbsent(p[1..], k);
    }
  }

  /** A lookup in `p + q` finds the entry of `p` if there is one, else that of `q`. */
  lemma {:induction false} LookupAppend(p: Params, q: Params, k: string)
    ensures Lookup(p + q, k) == if Lookup(p, k).Some? then Lookup(p, k) else Lookup(q, k)
  {
    if |p| == 0 {
      assert p + q == q;
    } else {
      assert (p + q)[1..] == p[1..] + q;
      LookupAppend(p[1..], q, k);
    }
  }

  /** A key none of the options has is not among the options sent either. */
  lemma {:induction false} GivenKeepsNoKey(opts: Params, k: string)
    requires NoKey(opts, k)
    ensures NoKey(Given(opts), k)
  {
    if |opts| > 0 {
      var init := opts[..|opts| - 1];
      assert NoKey(init, k) by {
        forall i | 0 <= i < |init| ensures init[i].0 != k {
          assert init[i] == opts[i];
        }
      }
      GivenKeepsNoKey(init, k);
    }
  }

  /** In a list of distinct keys, the keys before the last differ from it. */
  lemma LastKeyIsNew(opts: Params)
    requires DistinctKeys(opts) && |opts| > 0
    ensures NoKey(opts[..|opts| - 1], opts[|opts| - 1].0)
    ensures DistinctKeys(opts[..|opts| - 1])
  {
    var init := opts[..|opts| - 1];
    forall i | 0 <= i < |init| ensures init[i].0 != opts[|opts| - 1].0 {
      assert init[i] == opts[i];
    }
  }

  /** Each option is present in `Given(opts)` exactly when it is not None. */
  lemma {:induction false} GivenLookup(opts: Params, j: nat)
    requires DistinctKeys(opts) && j < |opts|
    ensures Optional(Given(opts), opts[j].0, opts[j].1)
  {
    var n := |opts|;
    var init, last := opts[..n - 1], opts[n - 1];
    LastKeyIsNew(opts);
    LookupAppend(Given(init), Entry(last.0, last.1), opts[j].0);
    if j == n - 1 {
      GivenKeepsNoKey(init, last.0);
      LookupAbsent(Given(init), last.0);
    } else {
      assert opts[j] == init[j];
      GivenLookup(init, j);
    }
  }

  lemma {:induction false} GivenDistinct(opts: Params)
    requires DistinctKeys(opts)
    ensures DistinctKeys(Given(opts))
  {
    if |opts| > 0 {
      var init, last := opts[..|opts| - 1], opts[|opts| - 1];
      LastKeyIsNew(opts);
      GivenDistinct(init);
      GivenKeepsNoKey(init, last.0);
    }
  }

  /**
    A dict literal `base` followed by the optional arguments `opts` that are
    not None: every key occurs once, the literal's entries keep their
    values, and each option is present exactly when it is not None.
   */
  lemma ParamsWithOptions(base: Params, opts: Params)
    requires DistinctKeys(base) && DistinctKeys(opts)
    requires forall i, j :: 0 <= i < |base| && 0 <= j < |opts| ==> base[i].0 != opts[j].0
    ensures DistinctKeys(base + Given(opts))
    ensures forall i :: 0 <= i < |base| ==> Lookup(base + Given(opts), base[i].0) == Some(base[i].1)
    ensures forall j :: 0 <= j < |opts| ==> Optional(base + Given(opts), opts[j].0, opts[j].1)
  {
    var p := base + Given(opts);
    GivenDistinct(opts);
    forall i | 0 <= i < |base| ensures NoKey(Given(opts), base[i].0) {
      GivenKeepsNoKey(opts, base[i].0);
    }
    forall i | 0 <= i < |base| ensures Lookup(p, base[i].0) == Some(base[i].1) {
      LookupAppend(base, Given(opts), base[i].0);
      LookupFirst(base, i);
    }
    forall j | 0 <= j < |opts| ensures Optional(p, opts[j].0, opts[j].1) {
      LookupAppend(base, Given(opts), opts[j].0);
      LookupAbsent(base, opts[j].0);
      GivenLookup(opts, j);
    }
  }

  lemma {:induction false} LookupFirst(p: Params, i: nat)
    requires DistinctKeys(p) && i < |p|
    ensures Lookup(p, p[i].0) == Some(p[i].1)
  {
    if i > 0 {
      LookupFirst(p[1..], i - 1);
    }
  }

  // ---------------------------------------------------------------------------
  // URL, request and response

  /**
    The URL of an API method. The constructor formats the token into the
    template `.../bot{token}/{{method}}`, and `fetch` formats the method into
    the result, so a token holding a brace is read as part of the second
    template and makes the second `format` raise.
   */
  function MethodUrl(token: string, apiMethod: string): (r: Result<string>)
    ensures r.Ok? <==> '{' !in token && '}' !in token
    ensures r.Ok? ==> r.value == ApiBase + token + "/" + apiMethod
  {
    if '{' in token || '}' in token then Err(FormatError)
    else Ok(ApiBase + token + "/" + apiMethod)
  }

  /** `parse_response`: the `result` of a successful envelope, `BotApiError(description)` otherwise. */
  function ParseResponse(data: Json): (r: Result<Json>)
    ensures r.Ok? <==> data.JObj? && "ok" in data.fields && Truthy(data.fields["ok"])
                       && "result" in data.fields
    ensures r.Ok? ==> r.value == data.fields["result"]
    ensures (r.Err? && r.error.BotApiError?) <==>
              data.JObj? && "ok" in data.fields && !Truthy(data.fields["ok"])
              && "description" in data.fields
    ensures r.Err? && r.error.BotApiError? ==> r.error.description == data.fields["description"]
  {
    var ok :- GetItem(data, "ok");
    if !Truthy(ok) then
      var description :- GetItem(data, "description");
      Err(BotApiError(description))
    else
      GetItem(data, "result")
  }

  /** The envelope the platform sends back for a successful call. */
  function SuccessEnvelope(result: Json): Json {
    JObj(map["ok" := JBool(true), "result" := result])
  }

  /** The envelope the platform sends back for a failed call. */
  function FailureEnvelope(description: Json): Json {
    JObj(map["ok" := JBool(false), "description" := description])
  }

  /** Parsing recovers what the platform put in either kind of envelope. */
  lemma ParseResponseInvertsEnvelopes(result: Json, description: Json)
    ensures ParseResponse(SuccessEnvelope(result)) == Ok(result)
    ensures ParseResponse(FailureEnvelope(description)) == Err(BotApiError(description))
  {
  }

  /** What `fetch` returns once its request was sent and `reply` came back. */
  function Deliver(reply: Reply): (r: Result<Json>)
    ensures reply.Received? ==> r == ParseResponse(reply.data)
    ensures reply.Garbled? ==> r == Err(ValueError)
    ensures reply.Failed? ==> r == Err(TransportError(reply.code))
  {
    match reply
    case Received(data) => ParseResponse(data)
    case Garbled => Err(ValueError)
    case Failed(code) => Err(TransportError(code))
  }

  /** The request `fetch` sends for `params` and `files`: multipart when there are files, else url-encoded when there are params, else a bodiless GET. */
  function RequestFor(url: string, params: Option<Params>, files: Option<Params>, env: Multipart.Env)
    : Result<Request>
  {
    if files.Some? then
      var encoded :- Multipart.Encoded(params, files.value, None, env);
      Ok(Request(url, "POST", Some(encoded.1), MultipartBody(encoded.0)))
    else if params.Some? then
      Ok(Request(url, "POST", None, FormBody(params.value)))
    else
      Ok(Request(url, "GET", None, NoBody))
  }

  /** The shape of every request: the method, the body and the content type follow from `params` and `files`. */
  lemma RequestShape(url: string, params: Option<Params>, files: Option<Params>, env: Multipart.Env)
    requires RequestFor(url, params, files, env).Ok?
    ensures var q := RequestFor(url, params, files, env).value;
      && q.url == url
      && (q.httpMethod == "GET" <==> params.None? && files.None?)
      && (q.body.MultipartBody? <==> files.Some?)
      && (q.body.FormBody? <==> files.None? && params.Some?)
      && (q.body.NoBody? <==> q.httpMethod == "GET")
      && (q.body.FormBody? ==> q.body.fields == params.value)
      && (q.contentType.Some? <==> files.Some?)
  {
  }

  /**
    The request-building part of `fetch`: starts from a bodiless GET and
    switches method, body and content type by the branch taken.
   */
  method BuildRequest(url: string, params: Option<Params>, files: Option<Params>, env: Multipart.Env)
    returns (r: Result<Request>)
    ensures r == RequestFor(url, params, files, env)
    ensures files.Some? && r.Ok? ==>
      r.value.contentType == Some("multipart/form-data; boundary=" + Multipart.BoundaryPrefix + env.uuidHex)
  {
    var httpMethod := "GET";
    var contentType: Option<string> := None;
    var body := NoBody;
    if files.Some? {
      httpMethod := "POST";
      var encoded := Multipart.EncodeMultipartFormData(params, files.value, None, env);
      if encoded.Err? {
        return Err(encoded.error);
      }
      body := MultipartBody(encoded.value.0);
      contentType := Some(encoded.value.1);
      assert encoded.value.1 == "multipart/form-data; boundary=" + (Multipart.BoundaryPrefix + env.uuidHex);
      assert encoded.value.1 == "multipart/form-data; boundary=" + Multipart.BoundaryPrefix + env.uuidHex;
    } else if params.Some? {
      httpMethod := "POST";
      body := FormBody(params.value);
    }
    r := Ok(Request(url, httpMethod, contentType, body));
  }

  // ---------------------------------------------------------------------------
  // The client

  const MissingTargetMessage :=
    "You must specify inline_message_id, message object or both chat_id and message_id"

  /** The value `json.dumps` produces for an optional argument, or None when it is None. */
  function DumpedOrNone(arg: Json, dumps: Json -> string): Json {
    if arg == JNull then JNull else JStr(dumps(arg))
  }

  /** The optional parameters of `send_message`, in the order they are tested. */
  function SendMessageOptions(parseMode: Json, disableWebPagePreview: Json, disableNotification: Json,
                              replyToMessageId: Json, replyMarkup: Json, dumps: Json -> string): Params
  {
    [("parse_mode", parseMode), ("disable_web_page_preview", disableWebPagePreview),
     ("disable_notification", disableNotification), ("reply_to_message_id", replyToMessageId),
     ("reply_markup", DumpedOrNone(replyMarkup, dumps))]
  }

  /** The optional parameters of `edit_message_text`, in the order they are tested. */
  function EditOptions(parseMode: Json, disableWebPagePreview: Json, replyMarkup: Json,
                       dumps: Json -> string): Params
  {
    [("parse_mode", parseMode), ("disable_web_page_preview", disableWebPagePreview),
     ("reply_markup", DumpedOrNone(replyMarkup, dumps))]
  }

  /** The optional parameters of `answer_inline_query`, in the order they are tested. */
  function InlineAnswerOptions(cacheTime: Json, isPersonal: Json, nextOffset: Json,
                               switchPmText: Json, switchPmParameter: Json): Params
  {
    [("cache_time", cacheTime), ("is_personal", isPersonal), ("next_offset", nextOffset),
     ("switch_pm_text", switchPmText), ("switch_pm_parameter", switchPmParameter)]
  }

  /** `message['chat']['id']` and `message['message_id']`, read in that order. */
  function MessageTarget(message: Json): (r: Result<(Json, Json)>)
    ensures r.Ok? <==> message.JObj? && "chat" in message.fields && "message_id" in message.fields
                       && message.fields["chat"].JObj? && "id" in message.fields["chat"].fields
    ensures r.Ok? ==> r.value == (message.fields["chat"].fields["id"], message.fields["message_id"])
    ensures message.JObj? && "chat" !in message.fields ==> r == Err(KeyError("chat"))
  {
    var chat :- GetItem(message, "chat");
    var chatId :- GetItem(chat, "id");
    var messageId :- GetItem(message, "message_id");
    Ok((chatId, messageId))
  }

  /**
    The keys `edit_message_text` uses to address the message, by precedence:
    the inline message id, else the chat and id of a message object (whose
    lookups can raise), else an explicit chat id and message id.
    `EditParamsMeaning` states what this gives the request: exactly one
    addressing form, with distinct keys.
   */
  function EditTarget(chatId: Json, messageId: Json, message: Json, inlineMessageId: Json)
    : (r: Result<Params>)
    ensures inlineMessageId != JNull ==> r == Ok([("inline_message_id", inlineMessageId)])
    ensures inlineMessageId == JNull && message != JNull ==>
      r == if MessageTarget(message).Err? then Err(MessageTarget(message).error)
           else Ok([("chat_id", MessageTarget(message).value.0),
                    ("message_id", MessageTarget(message).value.1)])
    ensures inlineMessageId == JNull && message == JNull ==>
      r == if chatId != JNull && messageId != JNull then Ok([("chat_id", chatId), ("message_id", messageId)])
           else Err(TypeError(MissingTargetMessage))
  {
    if inlineMessageId != JNull then Ok([("inline_message_id", inlineMessageId)])
    else if message != JNull then
      var (cid, mid) :- MessageTarget(message);
      Ok([("chat_id", cid), ("message_id", mid)])
    else if chatId != JNull && messageId != JNull then Ok([("chat_id", chatId), ("message_id", messageId)])
    else Err(TypeError(MissingTargetMessage))
  }

  /** Every key of an `edit_message_text` dict occurs once, and the addressing keys come as one of the two forms. */
  lemma EditParamsMeaning(text: Json, byInline: bool, x: Json, y: Json, opts: Params)
    requires |opts| == 3 && opts[0].0 == "parse_mode" && opts[1].0 == "disable_web_page_preview"
             && opts[2].0 == "reply_markup"
    ensures var target := if byInline then [("inline_message_id", x)] else [("chat_id", x), ("message_id", y)];
      var p := [("text", text)] + target + Given(opts);
      && DistinctKeys(p) && Lookup(p, "text") == Some(text)
      && (Lookup(p, "inline_message_id").Some? <==> Lookup(p, "chat_id").None?)
      && (Lookup(p, "chat_id").Some? <==> Lookup(p, "message_id").Some?)
      && forall j :: 0 <= j < |opts| ==> Optional(p, opts[j].0, opts[j].1)
  {
    if byInline {
      EditByInlineMessage(text, x, opts);
      assert [("text", text)] + [("inline_message_id", x)] == [("text", text), ("inline_message_id", x)];
    } else {
      EditByChatMessage(text, x, y, opts);
      assert [("text", text)] + [("chat_id", x), ("message_id", y)]
          == [("text", text), ("chat_id", x), ("message_id", y)];
    }
  }

  /** An inline message is addressed by `inline_message_id` alone. */
  lemma EditByInlineMessage(text: Json, x: Json, opts: Params)
    requires |opts| == 3 && opts[0].0 == "parse_mode" && opts[1].0 == "disable_web_page_preview"
             && opts[2].0 == "reply_markup"
    ensures var p := [("text", text), ("inline_message_id", x)] + Given(opts);
      && DistinctKeys(p) && Lookup(p, "text") == Some(text) && Lookup(p, "inline_message_id") == Some(x)
      && Lookup(p, "chat_id").None? && Lookup(p, "message_id").None?
      && forall j :: 0 <= j < |opts| ==> Optional(p, opts[j].0, opts[j].1)
  {
    var base := [("text", text), ("inline_message_id", x)];
    ParamsWithOptions(base, opts);
    assert Lookup(base + Given(opts), base[1].0) == Some(x);
    AbsentFromParams(base, opts, "chat_id");
    AbsentFromParams(base, opts, "message_id");
  }

  /** A chat message is addressed by `chat_id` and `message_id` together. */
  lemma EditByChatMessage(text: Json, x: Json, y: Json, opts: Params)
    requires |opts| == 3 && opts[0].0 == "parse_mode" && opts[1].0 == "disable_web_page_preview"
             && opts[2].0 == "reply_markup"
    ensures var p := [("text", text), ("chat_id", x), ("message_id", y)] + Given(opts);
      && DistinctKeys(p) && Lookup(p, "text") == Some(text)
      && Lookup(p, "chat_id") == Some(x) && Lookup(p, "message_id") == Some(y)
      && Lookup(p, "inline_message_id").None?
      && forall j :: 0 <= j < |opts| ==> Optional(p, opts[j].0, opts[j].1)
  {
    var base := [("text", text), ("chat_id", x), ("message_id", y)];
    ParamsWithOptions(base, opts);
    assert Lookup(base + Given(opts), base[1].0) == Some(x);
    assert Lookup(base + Given(opts), base[2].0) == Some(y);
    AbsentFromParams(base, opts, "inline_message_id");
  }

  /** A key that is neither in the literal nor among the options is not in the dict. */
  lemma AbsentFromParams(base: Params, opts: Params, k: string)
    requires NoKey(base, k) && NoKey(opts, k)
    ensures Lookup(base + Given(opts), k) == None
  {
    LookupAppend(base, Given(opts), k);
    LookupAbsent(base, k);
    GivenKeepsNoKey(opts, k);
    LookupAbsent(Given(opts), k);
  }

  /** `if v is not None: params[k] = v`, for a key `params` does not hold yet. */
  method SetIfGiven(params: Params, k: string, v: Json) returns (r: Params)
    ensures r == params + Entry(k, v)
  {
    r := params;
    if v != JNull {
      r := r + [(k, v)];
    }
  }

  /*
    In the API methods below each `params[k] = v` writes a key the dict does
    not hold yet, so it appends `(k, v)`; `ParamsWithOptions` shows that the
    keys stay distinct.
   */

  class BotApiClient {
    const token: string

    constructor (token: string)
      ensures this.token == token
    {
      this.token := token;
    }

    /**
      `fetch(method, params, files)`: builds the request, hands it to the HTTP
      client, and parses what comes back. `sent` is the request handed over
      (None when building it raised).
     */
    method Fetch(call: ApiCall, env: Multipart.Env, reply: Reply)
      returns (sent: Option<Request>, result: Result<Json>)
      ensures MethodUrl(token, call.apiMethod).Err? ==>
        sent == None && result == Err(MethodUrl(token, call.apiMethod).error)
      ensures MethodUrl(token, call.apiMethod).Ok? ==>
        var q := RequestFor(MethodUrl(token, call.apiMethod).value, call.params, call.files, env);
        && (q.Err? ==> sent == None && result == Err(q.error))
        && (q.Ok? ==> sent == Some(q.value) && result == Deliver(reply))
    {
      var url := MethodUrl(token, call.apiMethod);
      if url.Err? {
        return None, Err(url.error);
      }
      var request := BuildRequest(url.value, call.params, call.files, env);
      if request.Err? {
        return None, Err(request.error);
      }
      sent := Some(request.value);
      result := Deliver(reply);
    }

    /** `get_me`: a call with neither params nor files, hence a GET. */
    method GetMe() returns (call: ApiCall)
      ensures call == ApiCall("getMe", None, None)
    {
      call := ApiCall("getMe", None, None);
    }

    /** `set_webhook(url, certificate)`: the url always, the certificate as a file only when given. */
    method SetWebhook(url: Json, certificate: Json) returns (call: ApiCall)
      ensures call.apiMethod == "setWebhook"
      ensures call.params == Some([("url", url)])
      ensures call.files.Some? <==> certificate != JNull
      ensures call.files.Some? ==> call.files.value == [("certificate", certificate)]
    {
      var files: Option<Params> := None;
      if certificate != JNull {
        files := Some([("certificate", certificate)]);
      }
      call := ApiCall("setWebhook", Some([("url", url)]), files);
    }

    /** `send_message`: `chat_id` and `text` first, then each option that is not None; `reply_markup` as JSON text. */
    method SendMessage(chatId: Json, text: Json, parseMode: Json, disableWebPagePreview: Json,
                       disableNotification: Json, replyToMessageId: Json, replyMarkup: Json,
                       dumps: Json -> string)
      returns (call: ApiCall)
      ensures call.apiMethod == "sendMessage" && call.files == None && call.params.Some?
      ensures var opts := SendMessageOptions(parseMode, disableWebPagePreview, disableNotification,
                                             replyToMessageId, replyMarkup, dumps);
        var p := call.params.value;
        && p == [("chat_id", chatId), ("text", text)] + Given(opts)
        && DistinctKeys(p)
        && Lookup(p, "chat_id") == Some(chatId) && Lookup(p, "text") == Some(text)
        && forall j :: 0 <= j < |opts| ==> Optional(p, opts[j].0, opts[j].1)
    {
      var params: Params := [("chat_id", chatId), ("text", text)];
      params := SetIfGiven(params, "parse_mode", parseMode);
      params := SetIfGiven(params, "disable_web_page_preview", disableWebPagePreview);
      params := SetIfGiven(params, "disable_notification", disableNotification);
      params := SetIfGiven(params, "reply_to_message_id", replyToMessageId);
      params := SetIfGiven(params, "reply_markup", DumpedOrNone(replyMarkup, dumps));
      call := ApiCall("sendMessage", Some(params), None);
      ghost var opts := SendMessageOptions(parseMode, disableWebPagePreview, disableNotification,
                                           replyToMessageId, replyMarkup, dumps);
      FiveOptions([("chat_id", chatId), ("text", text)], opts[0], opts[1], opts[2], opts[3], opts[4]);
      PairWithOptions(("chat_id", chatId), ("text", text), opts);
    }

    /**
      `edit_message_text`: `text` first, then the addressing keys, then each
      option that is not None. The message is addressed by `inline_message_id`
      alone, or by a `message` object's chat id and message id, or by `chat_id`
      and `message_id` together; with none of these it raises TypeError
      before anything is sent.
     */
    method EditMessageText(text: Json, chatId: Json, messageId: Json, message: Json,
                           inlineMessageId: Json, parseMode: Json, disableWebPagePreview: Json,
                           replyMarkup: Json, dumps: Json -> string)
      returns (r: Result<ApiCall>)
      ensures var target := EditTarget(chatId, messageId, message, inlineMessageId);
        var opts := EditOptions(parseMode, disableWebPagePreview, replyMarkup, dumps);
        r == if target.Err? then Err(target.error)
             else Ok(ApiCall("editMessageText", Some([("text", text)] + target.value + Given(opts)), None))
      ensures r.Ok? ==>
        var opts := EditOptions(parseMode, disableWebPagePreview, replyMarkup, dumps);
        var p := r.value.params.value;
        && DistinctKeys(p) && Lookup(p, "text") == Some(text)
        && (Lookup(p, "inline_message_id").Some? <==> Lookup(p, "chat_id").None?)
        && (Lookup(p, "chat_id").Some? <==> Lookup(p, "message_id").Some?)
        && forall j :: 0 <= j < |opts| ==> Optional(p, opts[j].0, opts[j].1)
    {
      var params: Params := [("text", text)];
      var target := AddressMessage(chatId, messageId, message, inlineMessageId);
      if target.Err? {
        return Err(target.error);
      }
      params := params + target.value;
      ghost var base := params;
      params := SetIfGiven(params, "parse_mode", parseMode);
      params := SetIfGiven(params, "disable_web_page_preview", disableWebPagePreview);
      params := SetIfGiven(params, "reply_markup", DumpedOrNone(replyMarkup, dumps));
      r := Ok(ApiCall("editMessageText", Some(params), None));
      ghost var opts := EditOptions(parseMode, disableWebPagePreview, replyMarkup, dumps);
      ThreeOptions(base, opts[0], opts[1], opts[2]);
      assert opts == [opts[0], opts[1], opts[2]];
      if inlineMessageId != JNull {
        EditParamsMeaning(text, true, inlineMessageId, JNull, opts);
      } else {
        EditParamsMeaning(text, false, target.value[0].1, target.value[1].1, opts);
      }
    }

    /** The addressing branch of `edit_message_text`: the entries it writes into `params`. */
    method AddressMessage(chatId: Json, messageId: Json, message: Json, inlineMessageId: Json)
      returns (r: Result<Params>)
      ensures r == EditTarget(chatId, messageId, message, inlineMessageId)
    {
      if inlineMessageId != JNull {
        r := Ok([("inline_message_id", inlineMessageId)]);
      } else if message != JNull {
        var chat := GetItem(message, "chat");
        if chat.Err? {
          return Err(chat.error);
        }
        var chatIdOfMessage := GetItem(chat.value, "id");
        if chatIdOfMessage.Err? {
          return Err(chatIdOfMessage.error);
        }
        var idOfMessage := GetItem(message, "message_id");
        if idOfMessage.Err? {
          return Err(idOfMessage.error);
        }
        r := Ok([("chat_id", chatIdOfMessage.value), ("message_id", idOfMessage.value)]);
      } else if chatId != JNull && messageId != JNull {
        r := Ok([("chat_id", chatId), ("message_id", messageId)]);
      } else {
        r := Err(TypeError(MissingTargetMessage));
      }
    }

    /** `answer_inline_query`: the query id and the JSON text of the results, then each option that is not None. */
    method AnswerInlineQuery(inlineQueryId: Json, results: Json, cacheTime: Json, isPersonal: Json,
                             nextOffset: Json, switchPmText: Json, switchPmParameter: Json,
                             dumps: Json -> string)
      returns (call: ApiCall)
      ensures call.apiMethod == "answerInlineQuery" && call.files == None && call.params.Some?
      ensures var opts := InlineAnswerOptions(cacheTime, isPersonal, nextOffset, switchPmText, switchPmParameter);
        var p := call.params.value;
        && p == [("inline_query_id", inlineQueryId), ("results", JStr(dumps(results)))] + Given(opts)
        && DistinctKeys(p)
        && Lookup(p, "inline_query_id") == Some(inlineQueryId)
        && Lookup(p, "results") == Some(JStr(dumps(results)))
        && forall j :: 0 <= j < |opts| ==> Optional(p, opts[j].0, opts[j].1)
    {
      var params: Params := [("inline_query_id", inlineQueryId), ("results", JStr(dumps(results)))];
      params := SetIfGiven(params, "cache_time", cacheTime);
      params := SetIfGiven(params, "is_personal", isPersonal);
      params := SetIfGiven(params, "next_offset", nextOffset);
      params := SetIfGiven(params, "switch_pm_text", switchPmText);
      params := SetIfGiven(params, "switch_pm_parameter", switchPmParameter);
      call := ApiCall("answerInlineQuery", Some(params), None);
      ghost var opts := InlineAnswerOptions(cacheTime, isPersonal, nextOffset, switchPmText, switchPmParameter);
      FiveOptions([("inline_query_id", inlineQueryId), ("results", JStr(dumps(results)))],
                  opts[0], opts[1], opts[2], opts[3], opts[4]);
      PairWithOptions(("inline_query_id", inlineQueryId), ("results", JStr(dumps(results))), opts);
    }
  }
}
