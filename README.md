# gopubbot in Dafny

A model of the core of gopubbot, a Telegram bot written in Python on top of
Tornado. It covers the layer between the webhook endpoint and the Telegram
Bot API:

- **Updates** (`updates.dfy`, from `gopubbot/bot/update.py`):
  - raw updates are decoded into six update variants;
  - the dispatcher classifies a payload by a fixed key priority;
  - bot commands at offset 0 are recognised and their token is cut from the text;
  - the update is fanned out to the handler specs registered for its type;
  - `UpdateHandlerSpec` normalises its argument and instantiates its handler in place.
- **The Bot API client** (`bot_api.dfy`, from `gopubbot/bot/api.py`):
  - the method URL;
  - the choice between GET, url-encoded POST and multipart POST;
  - the `{ok, result, description}` envelope;
  - the parameter dictionaries of `set_webhook`, `send_message`, `edit_message_text` and `answer_inline_query`.
- **The older client** (`legacy_api.dfy`, from `gopubbot/api/client.py`), which the bot uses.
- **The bot** (`bot_server.dfy`, from `gopubbot/bot.py`):
  - the five-key handler table, mutated in place by `add_update_handler`;
  - `process_update`, which runs the handlers of the first key present;
  - the webhook URL with its 40-character random secret;
  - the secret gate of the webhook endpoint.
- **Multipart encoding** (`multipart.dfy`, from `gopubbot/utils/multipart.py`): the
  multipart/form-data body of section 4.1 of RFC 7578, with the delimiter and
  close-delimiter lines of section 5.1.1 of RFC 2046, built by appending to a
  byte buffer.
- **Random strings** (`crypto.dfy`, from `gopubbot/utils/crypto.py`).

`values.dfy` holds the Python runtime the code relies on:

- JSON payloads as `json.loads` returns them, with `JNull` for `None`;
- the exceptions raised, as `Result` errors;
- `in` on dicts, lists and strings;
- `[]`, `dict.get`, truthiness, slicing and `str()` of numbers;
- UTF-8 encoding.

Every error path of the code is modelled as an `Err` or an `Outcome.error`,
never as a precondition.

Outside inputs are explicit parameters:

- the random source is a sequence of oracle indices;
- the uuid, the file contents and the MIME guesses are an `Env`;
- the HTTP client's answer is a `Reply`;
- `json.dumps` is a function parameter.

Handlers are outside the model. A call is recorded as the handler together
with the update it receives, in call order.

## Model

| member | source | states |
|---|---|---|
| Crypto.RandomString | gopubbot/utils/crypto.py:6-10 | the result has exactly `length` characters (none for a length of 0 or less), each one a member of the alphabet; an empty alphabet with a positive length raises IndexError, and only then |
| Crypto.Picks | gopubbot/utils/crypto.py:10 | the k-th character is the alphabet entry the k-th random choice names |
| Crypto.RandomStringFollowsDraws | gopubbot/utils/crypto.py:10 | each position of a random string is the choice drawn for that position |
| Crypto.DefaultAlphabet | gopubbot/utils/crypto.py:7-8 | the default alphabet has 62 characters and holds exactly the ASCII letters and digits |
| Crypto.DefaultRandomString | gopubbot/utils/crypto.py:6-10 | with the defaults the result has 12 characters, each an ASCII letter or digit |
| Multipart.HeaderLines | gopubbot/utils/multipart.py:16-18 | one `Name: Value` line per header, in header order |
| Multipart.RenderHeaders | gopubbot/utils/multipart.py:15-20 | the lines list is built by appending; the output is the UTF-8 encoding of the header block |
| Multipart.HeaderBlockEndsInBlankLine | gopubbot/utils/multipart.py:15-20 | a non-empty header block ends in CRLF CRLF; an empty one is a single CRLF |
| Multipart.ChooseBoundary | gopubbot/utils/multipart.py:26-27 | without a boundary argument the boundary is `GoPubBotBoundary` followed by the uuid hex; otherwise it is the argument |
| Multipart.RenderValue | gopubbot/utils/multipart.py:36-41 | numbers go through `str` (bools included, as `True`/`False`); strings are written as they are; every other value raises |
| Multipart.RenderValueIntended | gopubbot/utils/multipart.py:36-39 | the corrected branch order writes bools as `true`/`false` and agrees with the code on every other value |
| Multipart.BoolBranchUnreachable | gopubbot/utils/multipart.py:36-39 | as written, `True` is rendered `True`, never `true`, so the bool branch is dead |
| Multipart.BaseName | gopubbot/utils/multipart.py:45 | the file name is the whole suffix of the path after its last slash: it contains no slash, and the character just before it, if any, is a slash; a slash-free path is its own base name |
| Multipart.MimeTypeFor | gopubbot/utils/multipart.py:53 | the guessed MIME type when there is one, `application/octet-stream` otherwise |
| Multipart.FieldPartsOkIff | gopubbot/utils/multipart.py:29-42 | the field parts are written iff every field value can be rendered |
| Multipart.FilePartsOkIff | gopubbot/utils/multipart.py:44-61 | the file parts are written iff every file path is a string naming a readable file |
| Multipart.ConcatOkIff | gopubbot/utils/multipart.py:29-61 | a run of loop iterations completes iff every iteration does |
| Multipart.ConcatFirstError | gopubbot/utils/multipart.py:29-61 | the first iteration that raises ends the encoding with its error; later parts are not looked at |
| Multipart.ConcatStep | gopubbot/utils/multipart.py:29-61 | an iteration that completes appends its bytes after those of the iterations before it |
| Multipart.ConcatStartsWith | gopubbot/utils/multipart.py:29-61 | when every part opens with the same bytes, so does a non-empty run of parts |
| Multipart.FieldPartOpens | gopubbot/utils/multipart.py:33 | a field part opens with `--boundary` CRLF |
| Multipart.FilePartOpens | gopubbot/utils/multipart.py:56 | a file part opens with `--boundary` CRLF |
| Multipart.FieldPartsOpenWithDelimiter | gopubbot/utils/multipart.py:29-42 | a non-empty run of field parts starts with `--boundary` CRLF |
| Multipart.FilePartsOpenWithDelimiter | gopubbot/utils/multipart.py:44-61 | a non-empty run of file parts starts with `--boundary` CRLF |
| Multipart.BodyFraming | gopubbot/utils/multipart.py:29-63 | the body ends with `--boundary--` CRLF, starts with the delimiter line when it has a part, and is the close delimiter alone when it has none |
| Multipart.WriteFieldPart | gopubbot/utils/multipart.py:30-42 | one iteration of the field loop appends exactly the field's part, or raises its error |
| Multipart.WriteFilePart | gopubbot/utils/multipart.py:45-61 | one iteration of the file loop appends exactly the file's part: basename, MIME type, contents and CRLF |
| Multipart.WriteFieldParts | gopubbot/utils/multipart.py:29-42 | the field loop writes all field parts in order, or stops at the first failing field with its error |
| Multipart.WriteFileParts | gopubbot/utils/multipart.py:44-61 | the file loop writes all file parts in order, or stops at the first failing file with its error |
| Multipart.EncodeMultipartFormData | gopubbot/utils/multipart.py:23-67 | returns field parts, then file parts, then the close delimiter, with content type `multipart/form-data; boundary=` plus the boundary; None params raise AttributeError |
| BotApi.Given | gopubbot/bot/api.py:68-77 | no more entries than options are set, and none of them is None |
| BotApi.GivenNone | gopubbot/bot/api.py:68-77 | when every option is None, no option is set |
| BotApi.GivenKeepsNoKey | gopubbot/bot/api.py:68-77 | setting options never writes a key that is not an option's |
| BotApi.OptionStep | gopubbot/bot/api.py:68-69 | one more `if v is not None: params[k] = v` after the dict literal extends the options set by exactly that entry |
| BotApi.ThreeOptions | gopubbot/bot/api.py:100-104 | three such steps after a literal give the literal followed by the options that are not None, in order |
| BotApi.FiveOptions | gopubbot/bot/api.py:68-77 | five such steps after a literal give the literal followed by the options that are not None, in order |
| BotApi.GivenLookup | gopubbot/bot/api.py:68-77 | an option is present in the dict iff it is not None, and with its value |
| BotApi.GivenDistinct | gopubbot/bot/api.py:68-77 | setting options never writes a key twice |
| BotApi.ParamsWithOptions | gopubbot/bot/api.py:64-77 | a literal dict plus the supplied options has distinct keys, keeps every literal entry, and has each option iff it is not None |
| BotApi.SetIfGiven | gopubbot/bot/api.py:68-69 | `if v is not None: params[k] = v` adds the entry exactly when the value is not None |
| BotApi.MethodUrl | gopubbot/bot/api.py:18-31 | the URL is `https://api.telegram.org/bot` + token + `/` + method for a token without braces; a token with braces fails formatting |
| BotApi.ParseResponse | gopubbot/bot/api.py:22-27 | returns `result` iff `ok` is present and truthy and `result` is present; raises BotApiError carrying `description` iff `ok` is falsy and `description` is present; otherwise raises the lookup's error |
| BotApi.ParseResponseInvertsEnvelopes | gopubbot/api/client.py:24-29 | parsing a success envelope gives back its result; parsing a failure envelope raises BotApiError with its description |
| BotApi.Deliver | gopubbot/bot/api.py:46-47 | a JSON reply goes through `parse_response`; a non-JSON body raises ValueError; a transport failure propagates |
| BotApi.RequestShape | gopubbot/bot/api.py:32-45 | POST with a multipart body and its content type when files are given; POST url-encoded when only params are; GET with no body otherwise; always the given URL |
| BotApi.BuildRequest | gopubbot/bot/api.py:32-45 | reassigns method, header and body step by step; the result is the request above, with the multipart content type when files are given |
| BotApi.MessageTarget | gopubbot/bot/api.py:91-92 | a message object addresses by `message['chat']['id']` and `message['message_id']`; a missing key raises that key's error |
| BotApi.EditTarget | gopubbot/bot/api.py:88-98 | `inline_message_id` takes precedence over a message object, which takes precedence over `chat_id` and `message_id` together; with none of them it raises TypeError |
| BotApi.EditParamsMeaning | gopubbot/bot/api.py:85-104 | an edit dict has distinct keys and `text`; it has `inline_message_id` iff it has no `chat_id`, and `chat_id` iff `message_id`; it has each option iff the option is not None |
| BotApi.EditByInlineMessage | gopubbot/bot/api.py:88-89 | addressed by `inline_message_id`, the dict has it and neither `chat_id` nor `message_id` |
| BotApi.EditByChatMessage | gopubbot/bot/api.py:90-95 | addressed by a chat, the dict has `chat_id` and `message_id` with their values and no `inline_message_id` |
| BotApi.PairWithOptions | gopubbot/bot/api.py:64-77 | a two-entry dict literal plus the options set after it has distinct keys, keeps both literal entries, and has each option iff it is not None |
| BotApi.AbsentFromParams | gopubbot/bot/api.py:85-104 | a key written by neither the literal nor the options is not in the dict |
| BotApi.BotApiClient.constructor | gopubbot/bot/api.py:16-20 | the client holds its token |
| BotApi.BotApiClient.Fetch | gopubbot/bot/api.py:29-47 | formats the URL, builds the request, hands the reply to `parse_response`; the request is GET iff there are neither params nor files, multipart iff there are files, url-encoded iff only params |
| BotApi.BotApiClient.GetMe | gopubbot/bot/api.py:49-51 | `getMe` with no params and no files, hence a GET |
| BotApi.BotApiClient.SetWebhook | gopubbot/bot/api.py:53-58 | always the field `url`; the certificate is attached as a file iff it is given |
| BotApi.BotApiClient.SendMessage | gopubbot/bot/api.py:60-78 | `chat_id` and `text` always; each option iff it is not None, `reply_markup` as its JSON text; no key twice |
| BotApi.BotApiClient.EditMessageText | gopubbot/bot/api.py:80-105 | the dict is `text`, then exactly one addressing form by precedence, then the supplied options; without an addressing form it raises before any request |
| BotApi.BotApiClient.AddressMessage | gopubbot/bot/api.py:88-98 | the addressing branch writes the entries of `EditTarget`, raising where it raises |
| BotApi.BotApiClient.AnswerInlineQuery | gopubbot/bot/api.py:107-125 | `inline_query_id` and the JSON text of `results` always; each option iff it is not None; no key twice |
| LegacyApi.BotApiClient.constructor | gopubbot/api/client.py:18-22 | the client holds its token |
| LegacyApi.BotApiClient.Fetch | gopubbot/api/client.py:31-49 | the same URL, method and body choice as the newer client; the reply goes through `_parse_response` |
| LegacyApi.BotApiClient.GetMe | gopubbot/api/client.py:51-54 | `getMe` with no fields and no files, hence a GET |
| LegacyApi.BotApiClient.SetWebhook | gopubbot/api/client.py:56-62 | always the field `url`; the certificate is attached as a file iff it is given |
| LegacyApi.BotApiClient.SendMessage | gopubbot/api/client.py:64-70 | exactly the two fields `chat_id` and `text`, no files |
| LegacyApi.SendMessageMatchesNewClientWithoutOptions | gopubbot/api/client.py:64-70 | the older `send_message` sends what the newer one sends when no option is given |
| Updates.Timestamp | gopubbot/bot/update.py:25 | `date` is converted iff it is a number |
| Updates.OptionalFields | gopubbot/bot/update.py:24-61 | every optional message attribute equals `message.get(name, None)` |
| Updates.DecodeMessageAt | gopubbot/bot/update.py:11-61 | decoding succeeds iff `update_id`, the message object and its `message_id`, numeric `date` and `chat` are present; the message's fields are read from the payload; a missing message key raises KeyError of that key |
| Updates.AbsentFieldsAreNone | gopubbot/bot/update.py:24-61 | an optional attribute that is absent or null, `forward_date` and `edit_date` included, decodes to None |
| Updates.DecodeInlineQuery | gopubbot/bot/update.py:85-92 | succeeds iff `id`, `from`, `query` and `offset` are present; `location` is None when absent |
| Updates.DecodeChosenInlineResult | gopubbot/bot/update.py:100-108 | succeeds iff `result_id`, `from` and `query` are present; `location` and `inline_message_id` are None when absent |
| Updates.DecodeCallbackQuery | gopubbot/bot/update.py:116-123 | succeeds iff `id` and `from` are present; `message`, `inline_message_id` and `data` are None when absent |
| Updates.IsCommandEntity | gopubbot/bot/update.py:168-169 | an entity qualifies iff its type is `bot_command` and its offset is 0; a missing key raises |
| Updates.Iterate | gopubbot/bot/update.py:167 | a list iterates over its items; an empty string or dict iterates over nothing; any other value makes the loop raise |
| Updates.FirstCommandEntity | gopubbot/bot/update.py:167-172 | finds no entity iff no entity qualifies |
| Updates.FirstCommandEntityIsFirst | gopubbot/bot/update.py:167-170 | the entity found is the first qualifying one in `entities` order |
| Updates.CommandEntity | gopubbot/bot/update.py:165-167 | a message without `text` or without `entities` has no bot command |
| Updates.BotCommandToken | gopubbot/bot/update.py:71 | the token needs the entity's `length`; without it KeyError is raised |
| Updates.BotCommandTokenIsPrefix | gopubbot/bot/update.py:71 | the token is the prefix of the text of length min(length, text length) |
| Updates.DecodeBotCommand | gopubbot/bot/update.py:69-71 | a bot command update carries the decoded message and the token cut from its text |
| Updates.ListItems | gopubbot/bot/update.py:131 | exactly lists and tuples count as sequences |
| Updates.NormaliseSpec | gopubbot/bot/update.py:129-138 | a non-sequence spec has patterns None and is its own class; a 2-sequence gives patterns and class, a single string pattern becoming a one-element list; any other length fails the assertion |
| Updates.NormaliseSpecIdempotent | gopubbot/bot/update.py:129-138 | normalising an already normalised spec changes nothing |
| Updates.UpdateHandlerSpec.constructor | gopubbot/bot/update.py:129-138 | a spec holds the normalised patterns and class, and no handler yet |
| Updates.UpdateHandlerSpec.InitHandler | gopubbot/bot/update.py:152-153 | the handler becomes an instance of the class with the given arguments; a non-class raises and leaves the handler as it was |
| Updates.NewUpdateHandlerSpec | gopubbot/bot/update.py:129-138 | construction succeeds iff normalisation does, otherwise AssertionError; a new spec has no handler |
| Updates.FanOut | gopubbot/bot/update.py:193-195 | at most one call per spec |
| Updates.FanOutMeaning | gopubbot/bot/update.py:193-195 | the calls made are the first specs' handlers, in order, with the update; the fan-out finishes iff every spec has a handler, else it raises AttributeError at the first spec without one |
| Updates.FanOutStops | gopubbot/bot/update.py:193-195 | once a spec without a handler is reached, the later specs are not visited |
| Updates.FanOutKey | gopubbot/bot/update.py:193-218 | the specs of the update type are called; a type missing from the table raises KeyError |
| Updates.FanOutCallsAll | gopubbot/bot/update.py:193-195 | when every spec has a handler, each is called once, in order, and nothing is raised |
| Updates.CallsOf | gopubbot/bot/update.py:195 | one call per spec, in spec order, each with the update |
| Updates.PatternsContain | gopubbot/bot/update.py:202 | `cmd in patterns` is membership for a list or a tuple of patterns and substring search for a string pattern (a non-string command raises TypeError); a class as patterns raises |
| Updates.Wants | gopubbot/bot/update.py:200-203 | a spec with patterns None always takes the command; otherwise it takes it iff the command is in its list or tuple of patterns |
| Updates.CommandFanOut | gopubbot/bot/update.py:198-203 | at most one call per spec, each receiving the bot command update |
| Updates.CommandFanOutStops | gopubbot/bot/update.py:198-203 | once a spec raises, the later specs are not looked at |
| Updates.Chosen | gopubbot/bot/update.py:199-203 | a spec is chosen iff it is registered and wants the command |
| Updates.CommandFanOutCallsChosen | gopubbot/bot/update.py:198-203 | when no spec raises, exactly the chosen specs are called, in registration order |
| Updates.FirstKey | gopubbot/bot/update.py:164-190 | none found iff the payload has none of the keys; otherwise a key of both |
| Updates.FirstDispatchKey | gopubbot/bot/update.py:164-188 | the dispatch key is the first present of `message`, `edited_message`, `inline_query`, `chosen_inline_result`, `callback_query` |
| Updates.ClassifiedByFirstKey | gopubbot/bot/update.py:164-190 | every update handed to a handler was decoded from the first dispatch key present; a payload with none of them calls no handler |
| Updates.DispatchCallsCarryKey | gopubbot/bot/update.py:163-190 | each branch of `dispatch` hands its handlers only updates decoded from the key that branch tests |
| Updates.MessageCallsCarryMessage | gopubbot/bot/update.py:164-174 | every call of the `message` branch, bot command or plain message, receives an update built from `message` |
| Updates.RoutedCallsCarryKey | gopubbot/bot/update.py:180-190 | every call of a routed branch receives the update decoded for that key |
| Updates.BotCommandExcludesMessageHandlers | gopubbot/bot/update.py:164-172 | a message with a bot command at offset 0 reaches only the bot-command specs, each receiving the bot command update of the first qualifying entity |
| Updates.PlainMessageReachesMessageHandlers | gopubbot/bot/update.py:164-174 | a message without a qualifying bot command goes, as a plain message update, to every message handler in order |
| Updates.RoutedReachesHandlers | gopubbot/bot/update.py:180-190 | a routed update that decodes is handed to every handler of its key, in order, when all are instantiated |
| Updates.InlineQueryReachesHandlers | gopubbot/bot/update.py:180-182 | an `inline_query` payload with no key of higher priority that decodes reaches every `inline_query` handler, in order, with its update |
| Updates.ChosenInlineResultReachesHandlers | gopubbot/bot/update.py:184-186 | a `chosen_inline_result` payload with no key of higher priority that decodes reaches every handler of that type, in order, with its update |
| Updates.CallbackQueryReachesHandlers | gopubbot/bot/update.py:188-190 | a `callback_query` payload with no key of higher priority that decodes reaches every `callback_query` handler, in order, with its update |
| Updates.EditedMessageNeverDispatched | gopubbot/bot/update.py:176-178 | as written, an `edited_message` payload without `message` calls no handler and always raises |
| Updates.EditedMessageIntended | gopubbot/bot/update.py:176-178 | as intended, a well-formed `edited_message` payload goes to every `edited_message` handler in order |
| Updates.UpdateDispatcher.constructor | gopubbot/bot/update.py:159-160 | the dispatcher holds the given handler table |
| Updates.UpdateDispatcher.FindHandlers | gopubbot/bot/update.py:193-218 | the loop over the specs of a type gives the fan-out of that type |
| Updates.UpdateDispatcher.FindBotCommandHandlers | gopubbot/bot/update.py:198-203 | the loop over the bot-command specs gives the command fan-out; a table without `bot_command` raises KeyError |
| Updates.UpdateDispatcher.DispatchMessage | gopubbot/bot/update.py:164-174 | the entity loop with its early return gives the `message` branch |
| Updates.UpdateDispatcher.Dispatch | gopubbot/bot/update.py:163-190 | dispatching gives the outcome of the key-priority classification as written |
| Updates.UpdateDispatcher.Route | gopubbot/bot/update.py:180-190 | a decoded update goes to the specs of its type; a decoding error is raised |
| BotServer.EmptyTable | gopubbot/bot.py:46-52 | the table has exactly the given keys, each with an empty list |
| BotServer.TypeItems | gopubbot/bot.py:108-109 | a single string stands for the one-element list holding it |
| BotServer.AddStep | gopubbot/bot.py:112-116 | a type accepted iff it is a table key gets the handler appended under it; any other hashable value raises BotError listing the keys |
| BotServer.AddAll | gopubbot/bot.py:111-116 | the table keeps its keys; registration raises nothing iff every type is a table key |
| BotServer.AddAllStops | gopubbot/bot.py:111-116 | once a type is rejected, the later ones are not looked at |
| BotServer.AddAllAppends | gopubbot/bot.py:116 | a successful registration appends the handler to the end of each named list, once per mention, and leaves every other list unchanged |
| BotServer.AddAllPartial | gopubbot/bot.py:111-116 | a failed registration stops at the first rejected type; the types before it have already been appended |
| BotServer.FirstRejection | gopubbot/bot.py:111-116 | a failed registration has a first type at which the loop stops, after getting past every type before it |
| BotServer.RejectedAt | gopubbot/bot.py:111-116 | when the loop stops at a type, that type is rejected, all earlier ones were accepted, and the table keeps the appends made before it |
| BotServer.AddAllStep | gopubbot/bot.py:111-116 | one more type of the loop either appends the handler under it or stops with its error |
| BotServer.ChosenInlineResultRejected | gopubbot/bot.py:46-52 | as written, registering for `chosen_inline_result` raises BotError and leaves the table unchanged |
| BotServer.ChosenInlineResultAcceptedAsIntended | gopubbot/bot.py:50 | with the intended key, the same registration succeeds and files the handler under it |
| BotServer.FirstPresent | gopubbot/bot.py:121-122 | no key is found iff the update has none of the table keys; testing a non-container raises |
| BotServer.FirstPresentIsFirst | gopubbot/bot.py:121-125 | the key found is the first table key, in table order, that the update has |
| BotServer.FirstPresentStep | gopubbot/bot.py:121-122 | one more key of the scan is the answer when the update has it; otherwise the scan goes on |
| BotServer.CallsFor | gopubbot/bot.py:123-124 | one call per handler, in list order, each with the update |
| BotServer.RunHandlers | gopubbot/bot.py:123-124 | the handler loop calls each handler once, in list order, with the update |
| BotServer.Processed | gopubbot/bot.py:119-125 | an update with none of the table keys calls nothing; a non-container raises |
| BotServer.ProcessedRunsFirstKeyOnly | gopubbot/bot.py:121-125 | an update with a table key runs exactly the handlers of the first such key, in list order, and no others |
| BotServer.WebhookUrl | gopubbot/bot.py:57-59 | the URL opens with `https://`, the server and `:`, continues with the decimal port, and ends with the webhook path of the secret |
| BotServer.RouteKey | gopubbot/bot.py:63 | a path routes iff it is `/webhook/` followed by a non-empty key without a slash, and the key is that suffix |
| BotServer.RouteKeyInvertsWebhookPath | gopubbot/bot.py:56-64 | the path of the registered URL routes back to the secret |
| BotServer.Bot.constructor | gopubbot/bot.py:38-59 | the table starts with the five keys, each with an empty list; the secret is 40 ASCII letters or digits drawn at random; the webhook URL carries the secret and routes back to it |
| BotServer.Bot.AddUpdateHandler | gopubbot/bot.py:107-116 | the in-place loop leaves the table and the raised error that registration by type gives, partial appends included; the five keys are kept |
| BotServer.Bot.ProcessUpdate | gopubbot/bot.py:118-125 | the loop over table keys with its `break` makes exactly the calls of `process_update` |
| BotServer.Bot.Register | gopubbot/bot.py:96-100 | `getMe`, then `setWebhook` with the URL, and with the file `certificate` holding the given certificate iff one is given |
| BotServer.Bot.Unregister | gopubbot/bot.py:102-105 | `setWebhook` with the empty URL and no certificate |
| BotServer.WebHookHandler.constructor | gopubbot/bot.py:24-26 | the handler holds the secret and the bot |
| BotServer.WebHookHandler.Post | gopubbot/bot.py:28-32 | the update is processed iff the path key equals the secret, and a body that is not JSON then raises ValueError; the 204 it sets is the answer unless `post` raises, in which case Tornado answers 500 because nothing was flushed |

## Left out

- Process plumbing in `gopubbot/bot.py`: the Tornado application and HTTP server, the SSL context, the signal handlers, and `start`/`stop` with the IOLoop. The route pattern is kept as `RouteKey`.
- The HTTP transport is left out. Its answer is the input `Reply`, and a failure is one `TransportError`.
- JSON decoding is left out: payloads are given decoded, and a body that is not JSON is `Garbled` or `None`. `json.dumps` is a function parameter.
- `urllib.parse.urlencode` is left out: a url-encoded body is kept as the structured `FormBody(params)`, not wire bytes.
- Coroutine scheduling is not modelled: calls are recorded in the order they are made. Handler bodies are outside the model, so an exception raised inside a handler is not modelled.
- Redis is left out. It is only passed through to handlers.
- Logging is left out: `logging.debug` and the `print` in `_parse_response`.
- Floating-point values are left out: `Json` has no floats, so the `float` case of the multipart renderer is not modelled.
- `datetime.fromtimestamp` is left out: the model keeps the numeric timestamp and does not model its platform range errors.
- `gopubbot/api/multipart.py` is not part of this model. The older client is taken to use the encoder of `gopubbot/utils/multipart.py`.
- `os.path.basename` is modelled for POSIX paths only.
- BotApi.MethodUrl: a token holding `{` or `}` is modelled as one `FormatError`. In Python, `str.format` may also substitute or raise other errors for such a token.
- Updates.PatternsContain: list membership is structural equality on `Json`, so Python's `True == 1` coercion between bools and numbers is not modelled.
- BotServer.Bot.AddUpdateHandler: `update_types` is either a string or a list. A tuple, a dict or a non-iterable argument is not modelled.
- BotServer.Bot.Register: returns both API calls as values. It does not model that the second call is never made when the first raises, and it does not store the `me` attribute.
- BotServer.Bot.Unregister: returns the API call; the request and its result are `Fetch`'s.
- BotServer.Processed: an update that is neither a dict, a list nor a string raises one `TypeError`. The model does not distinguish the interpreter's messages.
- BotServer.WebHookHandler.Post: Tornado answers 500 for any exception `post` raises; the error page it sends and its logging are not modelled.
- BotServer.RouteKey: Tornado percent-decodes the captured key before `post` compares it with the secret, and the model does not. A path that percent-encodes some characters of the secret is therefore processed by the code, but the model routes it with the undecoded key, which does not match.

## Findings

| source | as written | input that shows it | evidently intended | confidence | as-written member | corrected member |
|---|---|---|---|---|---|---|
| gopubbot/bot/update.py:176-178 | the `edited_message` branch builds `EditedMessageUpdate`, whose inherited decoder reads `update['message']`, then calls `find_edited_message_handlers`, which is never defined | `{"update_id": 1, "edited_message": {"message_id": 2, "date": 0, "chat": {}}}` raises KeyError `message` and reaches no handler | decode the edited message and call every `edited_message` handler | not executed | Updates.EditedMessageNeverDispatched | Updates.EditedMessageIntended |
| gopubbot/bot.py:50 | the table key is spelt `chosen_inlineesult` | `add_update_handler("chosen_inline_result", h)` raises BotError; `process_update` never runs handlers for a chosen inline result | the key `chosen_inline_result` | not executed | BotServer.ChosenInlineResultRejected | BotServer.ChosenInlineResultAcceptedAsIntended |
| gopubbot/utils/multipart.py:36-39 | `bool` is tested after `int`, and `bool` is a subclass of `int` | a field value `True` is written `True` | bools written `true`/`false` | not executed | Multipart.BoolBranchUnreachable | Multipart.RenderValueIntended |
