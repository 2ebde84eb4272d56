/**
  The earlier Bot API client of `gopubbot/api/client.py`, which the bot of
  `gopubbot/bot.py` uses. Its URL template, request building and envelope
  parsing are those of the newer client (module `BotApi`); it offers fewer
  methods, and `send_message` takes no options.

  The multipart encoder it imports from its own package,
  `gopubbot/api/multipart.py`, is not part of this model; it is taken to be
  the encoder of `gopubbot/utils/multipart.py` (module `Multipart`).
 */
module LegacyApi {
  import opened Values
  import Multipart
  import BotApi

  class BotApiClient {
    const token: string

    constructor (token: string)
      ensures this.token == token
    {
      this.token := token;
    }

    /**
      `_fetch(method, fields, files)`: multipart POST with files, url-encoded
      POST with fields only, GET otherwise; the reply goes through
      `_parse_response`.
     */
    method Fetch(call: BotApi.ApiCall, env: Multipart.Env, reply: BotApi.Reply)
      returns (sent: Option<BotApi.Request>, result: Result<Json>)
      ensures BotApi.MethodUrl(token, call.apiMethod).Err? ==>
        sent == None && result == Err(FormatError)
      ensures BotApi.MethodUrl(token, call.apiMethod).Ok? ==>
        var q := BotApi.RequestFor(BotApi.MethodUrl(token, call.apiMethod).value, call.params, call.files, env);
        && (q.Err? ==> sent == None && result == Err(q.error))
        && (q.Ok? ==> sent == Some(q.value) && result == BotApi.Deliver(reply))
      ensures sent.Some? ==>
        && sent.value.url == BotApi.ApiBase + token + "/" + call.apiMethod
        && (sent.value.httpMethod == "GET" <==> call.params.None? && call.files.None?)
        && (sent.value.body.MultipartBody? <==> call.files.Some?)
        && (sent.value.body.FormBody? <==> call.files.None? && call.params.Some?)
    {
      var url := BotApi.MethodUrl(token, call.apiMethod);
      if url.Err? {
        return None, Err(url.error);
      }
      var request := BotApi.BuildRequest(url.value, call.params, call.files, env);
      if request.Err? {
        return None, Err(request.error);
      }
      BotApi.RequestShape(url.value, call.params, call.files, env);
      sent := Some(request.value);
      result := BotApi.Deliver(reply);
    }

    /** `get_me`: no fields and no files, hence a GET. */
    method GetMe() returns (call: BotApi.ApiCall)
      ensures call.apiMethod == "getMe" && call.params.None? && call.files.None?
    {
      call := BotApi.ApiCall("getMe", None, None);
    }

    /** `set_webhook(url, certificate)`: the field `url` always, the certificate as a file only when given. */
    method SetWebhook(url: Json, certificate: Json) returns (call: BotApi.ApiCall)
      ensures call.apiMethod == "setWebhook"
      ensures call.params == Some([("url", url)])
      ensures call.files.Some? <==> certificate != JNull
      ensures call.files.Some? ==> call.files.value == [("certificate", certificate)]
    {
      var files: Option<BotApi.Params> := None;
      if certificate != JNull {
        files := Some([("certificate", certificate)]);
      }
      call := BotApi.ApiCall("setWebhook", Some([("url", url)]), files);
    }

    /** `send_message(chat_id, text)`: exactly the two fields `chat_id` and `text`. */
    method SendMessage(chatId: Json, text: Json) returns (call: BotApi.ApiCall)
      ensures call.apiMethod == "sendMessage" && call.files.None?
      ensures call.params == Some([("chat_id", chatId), ("text", text)])
    {
      call := BotApi.ApiCall("sendMessage", Some([("chat_id", chatId), ("text", text)]), None);
    }
  }

  /** The two fields are what the newer client's `send_message` sends when every option is None. */
  lemma SendMessageMatchesNewClientWithoutOptions(chatId: Json, text: Json, dumps: Json -> string)
    ensures var opts := BotApi.SendMessageOptions(JNull, JNull, JNull, JNull, JNull, dumps);
      [("chat_id", chatId), ("text", text)] + BotApi.Given(opts) == [("chat_id", chatId), ("text", text)]
  {
    var opts := BotApi.SendMessageOptions(JNull, JNull, JNull, JNull, JNull, dumps);
    BotApi.GivenNone(opts);
  }
}
