/**
  Telegram updates and their dispatch (`gopubbot/bot/update.py`): decoding a
  raw update into one of six variants, choosing the variant by a fixed key
  priority, recognising a bot command, and fanning the update out to the
  handler specs registered for its type.

  Handlers are objects outside this model: an invocation is recorded as the
  handler and the update it receives, in the order the calls are made.
 */
module Updates {
  import opened Values

  // ---------------------------------------------------------------------------
  // Update variants

  /** The optional attributes of a message; each is None when absent or null. */
  const OptionalMessageFields: set<string> :=
    {"from", "forward_from", "forward_from_chat", "forward_date", "reply_to_message", "edit_date",
     "text", "entities", "audio", "document", "photo", "sticker", "video", "voice", "caption",
     "contact", "location", "venue", "new_chat_member", "left_chat_member", "new_chat_title",
     "new_chat_photo", "delete_chat_photo", "group_chat_created", "supergroup_chat_created",
     "channel_chat_created", "migrate_to_chat_id", "migrate_from_chat_id", "pinned_message"}

  /**
    The attributes of a `MessageUpdate`: `optional` holds the optional
    attributes that are not None; `date` is the timestamp the code converts.
   */
  datatype Message = Message(updateId: Json, messageId: Json, date: int, chat: Json,
                             optional: map<string, Json>)
  {
    /** The value of an optional attribute, None when it was absent or null. */
    function Field(name: string): Option<Json> {
      if name in optional then Some(optional[name]) else None
    }

    /** `self.text`, with None as `JNull`. */
    function Text(): Json {
      if "text" in optional then optional["text"] else JNull
    }
  }

  datatype Update =
    | MessageUpdate(message: Message)
    | BotCommandUpdate(message: Message, botCommand: Json)
    | EditedMessageUpdate(message: Message)
    | InlineQueryUpdate(updateId: Json, id: Json, fromUser: Json, location: Option<Json>,
                        query: Json, offset: Json)
    | ChosenInlineResultUpdate(updateId: Json, resultId: Json, fromUser: Json, location: Option<Json>,
                               inlineMessageId: Option<Json>, query: Json)
    | CallbackQueryUpdate(updateId: Json, id: Json, fromUser: Json, originMessage: Option<Json>,
                          inlineMessageId: Option<Json>, data: Option<Json>)
  {
    /** The class attribute `update_type`. */
    function UpdateType(): string {
      match this
      case MessageUpdate(_) => "message"
      case BotCommandUpdate(_, _) => "bot_command"
      case EditedMessageUpdate(_) => "edited_message"
      case InlineQueryUpdate(_, _, _, _, _, _) => "inline_query"
      case ChosenInlineResultUpdate(_, _, _, _, _, _) => "chosen_inline_result"
      case CallbackQueryUpdate(_, _, _, _, _, _) => "callback_query"
    }

    /** The key of the raw update this variant is built from. */
    function PayloadKey(): string {
      if MessageUpdate? || BotCommandUpdate? then "message" else UpdateType()
    }
  }

  /** `datetime.fromtimestamp(v)` accepts a number (a bool is one) and rejects anything else. */
  function Timestamp(v: Json): (r: Result<int>)
    ensures r.Ok? <==> AsInt(v).Some?
    ensures r.Ok? ==> r.value == AsInt(v).value
  {
    if AsInt(v).Some? then Ok(AsInt(v).value) else Err(TypeError(""))
  }

  /** The optional attributes of a message dict: those present and not null. */
  function OptionalFields(m: map<string, Json>): (r: map<string, Json>)
    ensures r.Keys <= OptionalMessageFields
    ensures forall k :: k in OptionalMessageFields ==> (if k in r then Some(r[k]) else None) == Get(m, k)
  {
    map k | k in m && k in OptionalMessageFields && m[k] != JNull :: m[k]
  }

  /**
    `MessageUpdate.__init__`, reading the message under `key`. The required
    attributes are read in the order the code reads them, so the first one
    missing names the KeyError.
   */
  function DecodeMessageAt(update: Json, key: string): (r: Result<Message>)
    ensures r.Ok? <==>
      && update.JObj? && "update_id" in update.fields && key in update.fields
      && update.fields[key].JObj?
      && var m := update.fields[key].fields;
         "message_id" in m && "date" in m && AsInt(m["date"]).Some? && "chat" in m
    ensures r.Ok? ==>
      var m := update.fields[key].fields;
      r.value == Message(update.fields["update_id"], m["message_id"], AsInt(m["date"]).value, m["chat"],
                         OptionalFields(m))
    ensures update.JObj? && "update_id" in update.fields && key !in update.fields ==>
      r == Err(KeyError(key))
  {
    var updateId :- GetItem(update, "update_id");
    var message :- GetItem(update, key);
    var messageId :- GetItem(message, "message_id");
    var dateValue :- GetItem(message, "date");
    var date :- Timestamp(dateValue);
    var chat :- GetItem(message, "chat");
    Ok(Message(updateId, messageId, date, chat, OptionalFields(message.fields)))
  }

  /** Absent optional attributes, `forward_date` and `edit_date` among them, decode to None. */
  lemma AbsentFieldsAreNone(update: Json, key: string, name: string)
    requires DecodeMessageAt(update, key).Ok?
    requires name in OptionalMessageFields
    requires name !in update.fields[key].fields || update.fields[key].fields[name] == JNull
    ensures DecodeMessageAt(update, key).value.Field(name) == None
  {
  }

  /** The keys a decoder reads with `[]` are all there: the update's `update_id`, and `keys` in the object under `key`. */
  predicate HasObject(update: Json, key: string, keys: set<string>) {
    update.JObj? && "update_id" in update.fields && key in update.fields
    && update.fields[key].JObj? && keys <= update.fields[key].fields.Keys
  }

  function DecodeInlineQuery(update: Json): (r: Result<Update>)
    ensures r.Ok? <==> HasObject(update, "inline_query", {"id", "from", "query", "offset"})
    ensures r.Ok? ==> var q := update.fields["inline_query"].fields;
      r.value == InlineQueryUpdate(update.fields["update_id"], q["id"], q["from"], Get(q, "location"),
                                   q["query"], q["offset"])
  {
    var updateId :- GetItem(update, "update_id");
    var query :- GetItem(update, "inline_query");
    var id :- GetItem(query, "id");
    var fromUser :- GetItem(query, "from");
    var text :- GetItem(query, "query");
    var offset :- GetItem(query, "offset");
    Ok(InlineQueryUpdate(updateId, id, fromUser, Get(query.fields, "location"), text, offset))
  }

  function DecodeChosenInlineResult(update: Json): (r: Result<Update>)
    ensures r.Ok? <==> HasObject(update, "chosen_inline_result", {"result_id", "from", "query"})
    ensures r.Ok? ==> var c := update.fields["chosen_inline_result"].fields;
      r.value == ChosenInlineResultUpdate(update.fields["update_id"], c["result_id"], c["from"],
                                          Get(c, "location"), Get(c, "inline_message_id"), c["query"])
  {
    var updateId :- GetItem(update, "update_id");
    var chosen :- GetItem(update, "chosen_inline_result");
    var resultId :- GetItem(chosen, "result_id");
    var fromUser :- GetItem(chosen, "from");
    var query :- GetItem(chosen, "query");
    Ok(ChosenInlineResultUpdate(updateId, resultId, fromUser, Get(chosen.fields, "location"),
                                Get(chosen.fields, "inline_message_id"), query))
  }

  function DecodeCallbackQuery(update: Json): (r: Result<Update>)
    ensures r.Ok? <==> HasObject(update, "callback_query", {"id", "from"})
    ensures r.Ok? ==> var c := update.fields["callback_query"].fields;
      r.value == CallbackQueryUpdate(update.fields["update_id"], c["id"], c["from"], Get(c, "message"),
                                     Get(c, "inline_message_id"), Get(c, "data"))
  {
    var updateId :- GetItem(update, "update_id");
    var callback :- GetItem(update, "callback_query");
    var id :- GetItem(callback, "id");
    var fromUser :- GetItem(callback, "from");
    Ok(CallbackQueryUpdate(updateId, id, fromUser, Get(callback.fields, "message"),
                           Get(callback.fields, "inline_message_id"), Get(callback.fields, "data")))
  }

  // ---------------------------------------------------------------------------
  // Bot commands

  /** Python's `v == 0` for a JSON value. */
  predicate IsZero(v: Json) {
    v == JInt(0) || v == JBool(false)
  }

  /** `entity['type'] == 'bot_command' and entity['offset'] == 0`. */
  function IsCommandEntity(entity: Json): (r: Result<bool>)
    ensures r == Ok(true) <==>
      entity.JObj? && "type" in entity.fields && entity.fields["type"] == JStr("bot_command")
      && "offset" in entity.fields && IsZero(entity.fields["offset"])
    ensures r.Err? ==> !entity.JObj? || "type" !in entity.fields || "offset" !in entity.fields
  {
    var kind :- GetItem(entity, "type");
    if kind != JStr("bot_command") then Ok(false)
    else
      var offset :- GetItem(entity, "offset");
      Ok(IsZero(offset))
  }

  /**
    The elements `for entity in v` visits, up to what the loop can observe. A
    list gives its items. A string or a dict gives strings, on which the
    first `entity['type']` raises TypeError, so a non-empty one is that
    error; anything else is not iterable.
   */
  function Iterate(v: Json): (r: Result<seq<Json>>)
    ensures v.JArr? ==> r == Ok(v.items)
    ensures r.Ok? ==> v.JArr? || v == JStr("") || v == JObj(map[])
  {
    match v
    case JArr(xs) => Ok(xs)
    case JStr(s) => if s == "" then Ok([]) else Err(WrongType)
    case JObj(m) => if m == map[] then Ok([]) else Err(WrongType)
    case _ => Err(TypeError(""))
  }

  /** The first entity that is a bot command at offset 0, scanning in order; a test that raises stops the scan. */
  function FirstCommandEntity(entities: seq<Json>): (r: Result<Option<Json>>)
    ensures r == Ok(None) <==> forall i :: 0 <= i < |entities| ==> IsCommandEntity(entities[i]) == Ok(false)
  {
    if |entities| == 0 then Ok(None)
    else
      var here := IsCommandEntity(entities[0]);
      if here.Err? then Err(here.error)
      else if here.value then Ok(Some(entities[0]))
      else
        var rest := FirstCommandEntity(entities[1..]);
        assert forall i :: 1 <= i < |entities| ==> entities[i] == entities[1..][i - 1];
        rest
  }

  /** The entity found is the first qualifying one: every entity before it was tested and is not a command. */
  lemma {:induction false} FirstCommandEntityIsFirst(entities: seq<Json>) returns (i: nat)
    requires FirstCommandEntity(entities).Ok? && FirstCommandEntity(entities).value.Some?
    ensures i < |entities| && FirstCommandEntity(entities).value.value == entities[i]
    ensures IsCommandEntity(entities[i]) == Ok(true)
    ensures forall j :: 0 <= j < i ==> IsCommandEntity(entities[j]) == Ok(false)
  {
    if IsCommandEntity(entities[0]) == Ok(true) {
      i := 0;
    } else {
      var k := FirstCommandEntityIsFirst(entities[1..]);
      i := k + 1;
    }
  }

  /**
    The bot command entity of `update_data['message']`, if any: only a
    message that has both `text` and `entities` is scanned.
   */
  function CommandEntity(data: Json): (r: Result<Option<Json>>)
    ensures GetItem(data, "message").Ok? && GetItem(data, "message").value.JObj? ==>
      var m := data.fields["message"].fields;
      ("text" !in m || "entities" !in m) ==> r == Ok(None)
  {
    var message :- GetItem(data, "message");
    var hasText :- Contains(message, "text");
    if !hasText then Ok(None)
    else
      var hasEntities :- Contains(message, "entities");
      if !hasEntities then Ok(None)
      else
        var entities :- GetItem(message, "entities");
        var items :- Iterate(entities);
        FirstCommandEntity(items)
  }

  /** `self.text[:entity['length']]`. */
  function BotCommandToken(text: Json, entity: Json): (r: Result<Json>)
    ensures r.Ok? ==> entity.JObj? && "length" in entity.fields
    ensures entity.JObj? && "length" !in entity.fields ==> r == Err(KeyError("length"))
  {
    var length :- GetItem(entity, "length");
    SliceTo(text, length)
  }

  /** The token is the prefix of the text of length `min(length, |text|)`. */
  lemma BotCommandTokenIsPrefix(s: string, entity: Json, length: nat)
    requires entity.JObj? && "length" in entity.fields && entity.fields["length"] == JInt(length)
    ensures BotCommandToken(JStr(s), entity) == Ok(JStr(s[..if length < |s| then length else |s|]))
  {
  }

  /** `BotCommandUpdate(update_data, entity)`. */
  function DecodeBotCommand(data: Json, entity: Json): (r: Result<Update>)
    ensures r.Ok? ==> r.value.BotCommandUpdate?
    ensures r.Ok? ==> DecodeMessageAt(data, "message").Ok?
                      && r.value.message == DecodeMessageAt(data, "message").value
                      && Ok(r.value.botCommand) == BotCommandToken(r.value.message.Text(), entity)
  {
    var message :- DecodeMessageAt(data, "message");
    var token :- BotCommandToken(message.Text(), entity);
    Ok(BotCommandUpdate(message, token))
  }

  // ---------------------------------------------------------------------------
  // Handler specs

  /** A Python value a spec is made of: JSON-like data, a handler class, or a list/tuple. */
  datatype SpecValue = Value(j: Json) | Class(name: string) | Sequence(items: seq<SpecValue>)

  /** An instantiated handler: its class and the arguments it was created with. */
  datatype Handler = Handler(cls: string, args: seq<Json>)

  /** The elements of `spec` when `isinstance(spec, (list, tuple))`. */
  function ListItems(spec: SpecValue): (r: Option<seq<SpecValue>>)
    ensures r.Some? <==> spec.Sequence? || (spec.Value? && spec.j.JArr?)
  {
    match spec
    case Sequence(items) => Some(items)
    case Value(JArr(xs)) => Some(seq(|xs|, i requires 0 <= i < |xs| => Value(xs[i])))
    case _ => None
  }

  /**
    `UpdateHandlerSpec.__init__`: a pair gives the patterns and the handler
    class, a single pattern string becoming a one-element list; anything that
    is not a list or tuple is the handler class, with patterns None; a list or
    tuple of another length fails the assertion.
   */
  function NormaliseSpec(spec: SpecValue): (r: Result<(SpecValue, SpecValue)>)
    ensures ListItems(spec).None? ==> r == Ok((Value(JNull), spec))
    ensures ListItems(spec).Some? ==> (r.Ok? <==> |ListItems(spec).value| == 2)
    ensures r.Err? ==> r.error == AssertionError
    ensures r.Ok? && ListItems(spec).Some? ==>
      var items := ListItems(spec).value;
      && r.value.1 == items[1]
      && (items[0].Value? && items[0].j.JStr? ==> r.value.0 == Value(JArr([items[0].j])))
      && (!(items[0].Value? && items[0].j.JStr?) ==> r.value.0 == items[0])
  {
    match ListItems(spec)
    case None => Ok((Value(JNull), spec))
    case Some(items) =>
      if |items| != 2 then Err(AssertionError)
      else if items[0].Value? && items[0].j.JStr? then Ok((Value(JArr([items[0].j])), items[1]))
      else Ok((items[0], items[1]))
  }

  /** Normalising the pair a spec normalised to changes nothing: normalisation is idempotent. */
  lemma NormaliseSpecIdempotent(spec: SpecValue)
    requires NormaliseSpec(spec).Ok?
    ensures var (patterns, cls) := NormaliseSpec(spec).value;
      NormaliseSpec(Sequence([patterns, cls])) == Ok((patterns, cls))
  {
  }

  /** The state of a spec that dispatch reads. */
  datatype SpecView = SpecView(patterns: SpecValue, handler: Option<Handler>)

  class UpdateHandlerSpec {
    const patterns: SpecValue
    const handlerClass: SpecValue
    var handler: Option<Handler>

    constructor (spec: SpecValue)
      requires NormaliseSpec(spec).Ok?
      ensures patterns == NormaliseSpec(spec).value.0
      ensures handlerClass == NormaliseSpec(spec).value.1
      ensures handler == None
    {
      var normalised := NormaliseSpec(spec).value;
      patterns := normalised.0;
      handlerClass := normalised.1;
      handler := None;
    }

    function View(): SpecView
      reads this
    {
      SpecView(patterns, handler)
    }

    /** `init_handler(*args)`: instantiates the handler class; calling something that is not a class raises TypeError. */
    method InitHandler(args: seq<Json>) returns (err: Option<PyError>)
      modifies this
      ensures handlerClass.Class? ==> err == None && handler == Some(Handler(handlerClass.name, args))
      ensures !handlerClass.Class? ==> err == Some(TypeError("")) && handler == old(handler)
    {
      if handlerClass.Class? {
        handler := Some(Handler(handlerClass.name, args));
        err := None;
      } else {
        err := Some(TypeError(""));
      }
    }
  }

  /** `UpdateHandlerSpec(spec)`: a new spec without a handler, or the AssertionError of a malformed spec. */
  method NewUpdateHandlerSpec(spec: SpecValue) returns (r: Result<UpdateHandlerSpec>)
    ensures r.Ok? <==> NormaliseSpec(spec).Ok?
    ensures r.Err? ==> r.error == AssertionError
    ensures r.Ok? ==> fresh(r.value) && r.value.handler == None
                      && (r.value.patterns, r.value.handlerClass) == NormaliseSpec(spec).value
  {
    var normalised := NormaliseSpec(spec);
    if normalised.Err? {
      return Err(normalised.error);
    }
    var created := new UpdateHandlerSpec(spec);
    r := Ok(created);
  }

  // ---------------------------------------------------------------------------
  // Handler selection

  /** One call `handler.handle(update)`. */
  datatype Invocation = Invocation(handler: Handler, update: Update)

  /** The calls made, in order, and the exception that ended the dispatch, if any. */
  datatype Outcome = Outcome(invoked: seq<Invocation>, error: Option<PyError>)

  function Failed(e: PyError): Outcome {
    Outcome([], Some(e))
  }

  /** The handler table as dispatch sees it: the specs of each update type. */
  type Table = map<string, seq<SpecView>>

  /**
    `[spec.handler.handle(update) for spec in specs]`: every spec is called in
    order; a spec whose handler is still None raises AttributeError there.
   */
  function FanOut(specs: seq<SpecView>, u: Update): (r: Outcome)
    ensures |r.invoked| <= |specs|
  {
    if |specs| == 0 then Outcome([], None)
    else
      var before := FanOut(specs[..|specs| - 1], u);
      var last := specs[|specs| - 1];
      if before.error.Some? then before
      else if last.handler.None? then Outcome(before.invoked, Some(AttributeError("handle")))
      else Outcome(before.invoked + [Invocation(last.handler.value, u)], None)
  }

  /**
    What a fan-out did: the calls made are the first specs' handlers, in
    order, with the update; it finishes without error exactly when every
    spec has a handler, and otherwise stops at the first one that has none.
   */
  lemma {:induction false} FanOutMeaning(specs: seq<SpecView>, u: Update)
    ensures var r := FanOut(specs, u);
      && (forall i :: 0 <= i < |r.invoked| ==>
            specs[i].handler.Some? && r.invoked[i] == Invocation(specs[i].handler.value, u))
      && (r.error.None? <==> forall i :: 0 <= i < |specs| ==> specs[i].handler.Some?)
      && (r.error.None? ==> |r.invoked| == |specs|)
      && (r.error.Some? ==> r.error.value == AttributeError("handle") && specs[|r.invoked|].handler.None?)
  {
    if |specs| > 0 {
      var init := specs[..|specs| - 1];
      FanOutMeaning(init, u);
      forall i | 0 <= i < |init| ensures init[i] == specs[i] { }
    }
  }

  /** Once a spec without a handler was reached, the later specs are not visited. */
  lemma {:induction false} FanOutStops(specs: seq<SpecView>, j: nat, u: Update)
    requires j <= |specs| && FanOut(specs[..j], u).error.Some?
    ensures FanOut(specs, u) == FanOut(specs[..j], u)
  {
    if j < |specs| {
      assert specs[..|specs| - 1][..j] == specs[..j];
      FanOutStops(specs[..|specs| - 1], j, u);
    } else {
      assert specs[..j] == specs;
    }
  }

  /** `find_*_handlers` for a plain update type: a missing table entry raises KeyError. */
  function FanOutKey(key: string, u: Update, table: Table): (r: Outcome)
    ensures key !in table ==> r == Failed(KeyError(key))
    ensures key in table ==> r == FanOut(table[key], u)
  {
    if key !in table then Failed(KeyError(key)) else FanOut(table[key], u)
  }

  /** Python's `cmd in patterns`. */
  function PatternsContain(cmd: Json, patterns: SpecValue): (r: Result<bool>)
    ensures patterns.Value? && patterns.j.JArr? ==> r == Ok(cmd in patterns.j.items)
    ensures patterns.Sequence? ==> r == Ok(Value(cmd) in patterns.items)
    ensures patterns.Value? && patterns.j.JStr? ==>
      r == if cmd.JStr? then Ok(IsInfix(cmd.s, patterns.j.s)) else Err(TypeError(""))
    ensures patterns.Class? ==> r.Err?
  {
    match patterns
    case Value(JArr(xs)) => Ok(cmd in xs)
    case Value(JStr(s)) => if cmd.JStr? then Ok(IsInfix(cmd.s, s)) else Err(TypeError(""))
    case Value(JObj(m)) =>
      if cmd.JStr? then Ok(cmd.s in m)
      else if cmd.JArr? || cmd.JObj? then Err(TypeError(""))  // unhashable key
      else Ok(false)
    case Sequence(items) => Ok(Value(cmd) in items)
    case _ => Err(TypeError(""))
  }

  /** Whether a bot-command spec takes `cmd`: always when its patterns are None, else by membership. */
  function Wants(spec: SpecView, cmd: Json): (r: Result<bool>)
    ensures spec.patterns == Value(JNull) ==> r == Ok(true)
    ensures spec.patterns.Value? && spec.patterns.j.JArr? ==> r == Ok(cmd in spec.patterns.j.items)
    ensures spec.patterns.Sequence? ==> r == Ok(Value(cmd) in spec.patterns.items)
  {
    if spec.patterns == Value(JNull) then Ok(true) else PatternsContain(cmd, spec.patterns)
  }

  /** `find_bot_command_handlers`: each spec that wants the command is called, in registration order. */
  function CommandFanOut(specs: seq<SpecView>, cmd: Json, u: Update): (r: Outcome)
    ensures |r.invoked| <= |specs|
    ensures forall i :: 0 <= i < |r.invoked| ==> r.invoked[i].update == u
  {
    if |specs| == 0 then Outcome([], None)
    else
      var before := CommandFanOut(specs[..|specs| - 1], cmd, u);
      var last := specs[|specs| - 1];
      if before.error.Some? then before
      else
        var wanted := Wants(last, cmd);
        if wanted.Err? then Outcome(before.invoked, Some(wanted.error))
        else if !wanted.value then before
        else if last.handler.None? then Outcome(before.invoked, Some(AttributeError("handle")))
        else Outcome(before.invoked + [Invocation(last.handler.value, u)], None)
  }

  /** Once a call raised, the later specs are not visited. */
  lemma {:induction false} CommandFanOutStops(specs: seq<SpecView>, j: nat, cmd: Json, u: Update)
    requires j <= |specs| && CommandFanOut(specs[..j], cmd, u).error.Some?
    ensures CommandFanOut(specs, cmd, u) == CommandFanOut(specs[..j], cmd, u)
  {
    if j < |specs| {
      assert specs[..|specs| - 1][..j] == specs[..j];
      CommandFanOutStops(specs[..|specs| - 1], j, cmd, u);
    } else {
      assert specs[..j] == specs;
    }
  }

  /** Reference selection: the specs that want the command, in order. */
  function Chosen(specs: seq<SpecView>, cmd: Json): (r: seq<SpecView>)
    ensures forall x :: x in r <==> x in specs && Wants(x, cmd) == Ok(true)
  {
    if |specs| == 0 then []
    else (if Wants(specs[0], cmd) == Ok(true) then [specs[0]] else []) + Chosen(specs[1..], cmd)
  }

  lemma {:induction false} ChosenSnoc(specs: seq<SpecView>, x: SpecView, cmd: Json)
    ensures Chosen(specs + [x], cmd)
         == Chosen(specs, cmd) + (if Wants(x, cmd) == Ok(true) then [x] else [])
  {
    if |specs| == 0 {
      assert specs + [x] == [x];
    } else {
      assert (specs + [x])[1..] == specs[1..] + [x];
      ChosenSnoc(specs[1..], x, cmd);
    }
  }

  /** Every spec whose tests succeed and whose chosen handlers exist. */
  predicate CommandReady(specs: seq<SpecView>, cmd: Json) {
    forall i :: 0 <= i < |specs| ==>
      Wants(specs[i], cmd).Ok? && (Wants(specs[i], cmd) == Ok(true) ==> specs[i].handler.Some?)
  }

  /** The calls of the chosen specs, in order. */
  function CallsOf(specs: seq<SpecView>, u: Update): (r: seq<Invocation>)
    requires forall i :: 0 <= i < |specs| ==> specs[i].handler.Some?
    ensures |r| == |specs|
    ensures forall i :: 0 <= i < |specs| ==> r[i] == Invocation(specs[i].handler.value, u)
  {
    seq(|specs|, i requires 0 <= i < |specs| && specs[i].handler.Some? => Invocation(specs[i].handler.value, u))
  }

  /** When no test raises, exactly the chosen specs are called, in registration order. */
  lemma {:induction false} CommandFanOutCallsChosen(specs: seq<SpecView>, cmd: Json, u: Update)
    requires CommandReady(specs, cmd)
    ensures forall x :: x in Chosen(specs, cmd) ==> x.handler.Some?
    ensures CommandFanOut(specs, cmd, u) == Outcome(CallsOf(Chosen(specs, cmd), u), None)
  {
    if |specs| > 0 {
      var init, last := specs[..|specs| - 1], specs[|specs| - 1];
      assert init + [last] == specs;
      CommandFanOutCallsChosen(init, cmd, u);
      ChosenSnoc(init, last, cmd);
    }
  }

  /** A plain fan-out calls every handler of the list, in order, once all are instantiated. */
  lemma FanOutCallsAll(specs: seq<SpecView>, u: Update)
    requires forall i :: 0 <= i < |specs| ==> specs[i].handler.Some?
    ensures FanOut(specs, u) == Outcome(CallsOf(specs, u), None)
  {
    FanOutMeaning(specs, u);
  }

  // ---------------------------------------------------------------------------
  // Dispatch

  /** The keys tested by `dispatch`, in priority order. */
  const DispatchKeys := ["message", "edited_message", "inline_query", "chosen_inline_result", "callback_query"]

  /** A decoded update handed to the handlers of `key`, or the decoding error. */
  function Routed(decoded: Result<Update>, key: string, table: Table): Outcome {
    if decoded.Err? then Failed(decoded.error) else FanOutKey(key, decoded.value, table)
  }

  /** The `message` branch: a bot command goes to the bot-command specs only, anything else to the message handlers. */
  function MessageOutcome(data: Json, table: Table): Outcome {
    var entity := CommandEntity(data);
    if entity.Err? then Failed(entity.error)
    else if entity.value.Some? then
      var decoded := DecodeBotCommand(data, entity.value.value);
      if decoded.Err? then Failed(decoded.error)
      else if "bot_command" !in table then Failed(KeyError("bot_command"))
      else CommandFanOut(table["bot_command"], decoded.value.botCommand, decoded.value)
    else
      var decoded := DecodeMessageAt(data, "message");
      if decoded.Err? then Failed(decoded.error)
      else FanOutKey("message", MessageUpdate(decoded.value), table)
  }

  /**
    The `edited_message` branch as written: `EditedMessageUpdate` inherits the
    decoder that reads `update['message']`, and the handler lookup it would
    reach next is not defined.
   */
  function EditedOutcome(data: Json): Outcome {
    var decoded := DecodeMessageAt(data, "message");
    if decoded.Err? then Failed(decoded.error)
    else Failed(AttributeError("find_edited_message_handlers"))
  }

  /** The `edited_message` branch as evidently intended: decode the edited message and call its handlers. */
  function EditedOutcomeIntended(data: Json, table: Table): Outcome {
    var decoded := DecodeMessageAt(data, "edited_message");
    if decoded.Err? then Failed(decoded.error)
    else FanOutKey("edited_message", EditedMessageUpdate(decoded.value), table)
  }

  /**
    `dispatch(update_data)`, with the `edited_message` branch as written or as
    intended. Only the first `in` test can raise: once it passed, the payload
    supports `in`.
   */
  function DispatchWith(data: Json, table: Table, intended: bool): Outcome {
    if !IsContainer(data) then Failed(WrongType)
    else if In(data, "message") then MessageOutcome(data, table)
    else if In(data, "edited_message") then
      (if intended then EditedOutcomeIntended(data, table) else EditedOutcome(data))
    else if In(data, "inline_query") then Routed(DecodeInlineQuery(data), "inline_query", table)
    else if In(data, "chosen_inline_result") then
      Routed(DecodeChosenInlineResult(data), "chosen_inline_result", table)
    else if In(data, "callback_query") then Routed(DecodeCallbackQuery(data), "callback_query", table)
    else Outcome([], None)
  }

  /** The first of `keys` that the payload has. */
  function FirstKey(fields: map<string, Json>, keys: seq<string>): (r: Option<string>)
    ensures r.None? <==> forall i :: 0 <= i < |keys| ==> keys[i] !in fields
    ensures r.Some? ==> r.value in fields && r.value in keys
  {
    if |keys| == 0 then None
    else if keys[0] in fields then Some(keys[0])
    else FirstKey(fields, keys[1..])
  }

  /**
    A payload is classified by the first of `message`, `edited_message`,
    `inline_query`, `chosen_inline_result`, `callback_query` it has: every
    call receives an update decoded from that key, and a payload with none of
    them calls nothing.
   */
  lemma ClassifiedByFirstKey(fields: map<string, Json>, table: Table, intended: bool)
    ensures var r := DispatchWith(JObj(fields), table, intended);
      && (FirstKey(fields, DispatchKeys).None? ==> r == Outcome([], None))
      && (forall i :: 0 <= i < |r.invoked| ==>
            r.invoked[i].update.PayloadKey() == FirstKey(fields, DispatchKeys).value)
  {
    FirstDispatchKey(fields);
    DispatchCallsCarryKey(fields, table, intended);
  }

  /** The classification with the first dispatch key spelled out. */
  lemma DispatchCallsCarryKey(fields: map<string, Json>, table: Table, intended: bool)
    ensures var r := DispatchWith(JObj(fields), table, intended);
      var key := if "message" in fields then Some("message")
                 else if "edited_message" in fields then Some("edited_message")
                 else if "inline_query" in fields then Some("inline_query")
                 else if "chosen_inline_result" in fields then Some("chosen_inline_result")
                 else if "callback_query" in fields then Some("callback_query")
                 else None;
      && (key.None? ==> r == Outcome([], None))
      && (forall i :: 0 <= i < |r.invoked| ==> r.invoked[i].update.PayloadKey() == key.value)
  {
    var data := JObj(fields);
    if "message" in fields {
      MessageCallsCarryMessage(data, table);
    } else if "edited_message" in fields {
      if intended {
        var decoded := DecodeMessageAt(data, "edited_message");
        if decoded.Ok? && "edited_message" in table {
          FanOutMeaning(table["edited_message"], EditedMessageUpdate(decoded.value));
        }
      }
    } else if "inline_query" in fields {
      RoutedCallsCarryKey(DecodeInlineQuery(data), "inline_query", table);
    } else if "chosen_inline_result" in fields {
      RoutedCallsCarryKey(DecodeChosenInlineResult(data), "chosen_inline_result", table);
    } else if "callback_query" in fields {
      RoutedCallsCarryKey(DecodeCallbackQuery(data), "callback_query", table);
    }
  }

  /** Every call of the `message` branch receives an update built from `message`. */
  lemma MessageCallsCarryMessage(data: Json, table: Table)
    ensures var r := MessageOutcome(data, table);
      forall i :: 0 <= i < |r.invoked| ==> r.invoked[i].update.PayloadKey() == "message"
  {
    var entity := CommandEntity(data);
    if entity.Ok? && entity.value.Some? {
      var decoded := DecodeBotCommand(data, entity.value.value);
    } else if entity.Ok? {
      var decoded := DecodeMessageAt(data, "message");
      if decoded.Ok? && "message" in table {
        FanOutMeaning(table["message"], MessageUpdate(decoded.value));
      }
    }
  }

  /** Every call of a routed branch receives the decoded update. */
  lemma RoutedCallsCarryKey(decoded: Result<Update>, key: string, table: Table)
    requires decoded.Ok? ==> decoded.value.PayloadKey() == key
    ensures var r := Routed(decoded, key, table);
      forall i :: 0 <= i < |r.invoked| ==> r.invoked[i].update.PayloadKey() == key
  {
    if decoded.Ok? && key in table {
      FanOutMeaning(table[key], decoded.value);
    }
  }

  /** The first dispatch key, spelled out. */
  lemma FirstDispatchKey(fields: map<string, Json>)
    ensures FirstKey(fields, DispatchKeys)
         == if "message" in fields then Some("message")
            else if "edited_message" in fields then Some("edited_message")
            else if "inline_query" in fields then Some("inline_query")
            else if "chosen_inline_result" in fields then Some("chosen_inline_result")
            else if "callback_query" in fields then Some("callback_query")
            else None
  {
    var k4 := ["callback_query"];
    var k3 := ["chosen_inline_result"] + k4;
    var k2 := ["inline_query"] + k3;
    var k1 := ["edited_message"] + k2;
    var k0 := ["message"] + k1;
    assert k0 == DispatchKeys;
    assert k4[1..] == [];
    assert k3[1..] == k4 && k2[1..] == k3 && k1[1..] == k2 && k0[1..] == k1;
    assert FirstKey(fields, k4) == if "callback_query" in fields then Some("callback_query") else None;
    assert FirstKey(fields, k3) == if "chosen_inline_result" in fields then Some("chosen_inline_result")
                                   else FirstKey(fields, k4);
    assert FirstKey(fields, k2) == if "inline_query" in fields then Some("inline_query") else FirstKey(fields, k3);
    assert FirstKey(fields, k1) == if "edited_message" in fields then Some("edited_message") else FirstKey(fields, k2);
  }

  /**
    A message that carries a bot command at offset 0 goes to the bot-command
    specs alone: no message handler is called, every call receives the
    `BotCommandUpdate`, and its token comes from the first qualifying entity.
   */
  lemma BotCommandExcludesMessageHandlers(data: Json, table: Table, intended: bool)
    requires Contains(data, "message") == Ok(true)
    requires CommandEntity(data).Ok? && CommandEntity(data).value.Some?
    ensures var r := DispatchWith(data, table, intended);
      forall i :: 0 <= i < |r.invoked| ==>
        r.invoked[i].update.BotCommandUpdate?
        && r.invoked[i].update == DecodeBotCommand(data, CommandEntity(data).value.value).value
  {
  }

  /**
    A message without a qualifying bot command goes to every message handler,
    in order, as a plain `MessageUpdate`.
   */
  lemma PlainMessageReachesMessageHandlers(data: Json, table: Table, intended: bool)
    requires Contains(data, "message") == Ok(true)
    requires CommandEntity(data) == Ok(None)
    requires DecodeMessageAt(data, "message").Ok?
    requires "message" in table
    requires forall i :: 0 <= i < |table["message"]| ==> table["message"][i].handler.Some?
    ensures DispatchWith(data, table, intended)
         == Outcome(CallsOf(table["message"], MessageUpdate(DecodeMessageAt(data, "message").value)), None)
  {
    FanOutCallsAll(table["message"], MessageUpdate(DecodeMessageAt(data, "message").value));
  }

  /** A routed update that decodes goes to every handler of its key, in order, once all are instantiated. */
  lemma RoutedReachesHandlers(decoded: Result<Update>, key: string, table: Table)
    requires decoded.Ok? && key in table
    requires forall i :: 0 <= i < |table[key]| ==> table[key][i].handler.Some?
    ensures Routed(decoded, key, table) == Outcome(CallsOf(table[key], decoded.value), None)
  {
    FanOutCallsAll(table[key], decoded.value);
  }

  /** An `inline_query` payload (with no key of higher priority) that decodes reaches every `inline_query` handler, in order. */
  lemma InlineQueryReachesHandlers(fields: map<string, Json>, table: Table, intended: bool)
    requires "message" !in fields && "edited_message" !in fields && "inline_query" in fields
    requires DecodeInlineQuery(JObj(fields)).Ok? && "inline_query" in table
    requires forall i :: 0 <= i < |table["inline_query"]| ==> table["inline_query"][i].handler.Some?
    ensures DispatchWith(JObj(fields), table, intended)
         == Outcome(CallsOf(table["inline_query"], DecodeInlineQuery(JObj(fields)).value), None)
  {
    RoutedReachesHandlers(DecodeInlineQuery(JObj(fields)), "inline_query", table);
  }

  /** A `chosen_inline_result` payload (with no key of higher priority) that decodes reaches every handler of that type, in order. */
  lemma ChosenInlineResultReachesHandlers(fields: map<string, Json>, table: Table, intended: bool)
    requires "message" !in fields && "edited_message" !in fields && "inline_query" !in fields
    requires "chosen_inline_result" in fields
    requires DecodeChosenInlineResult(JObj(fields)).Ok? && "chosen_inline_result" in table
    requires forall i :: 0 <= i < |table["chosen_inline_result"]| ==> table["chosen_inline_result"][i].handler.Some?
    ensures DispatchWith(JObj(fields), table, intended)
         == Outcome(CallsOf(table["chosen_inline_result"], DecodeChosenInlineResult(JObj(fields)).value), None)
  {
    RoutedReachesHandlers(DecodeChosenInlineResult(JObj(fields)), "chosen_inline_result", table);
  }

  /** A `callback_query` payload (with no key of higher priority) that decodes reaches every `callback_query` handler, in order. */
  lemma CallbackQueryReachesHandlers(fields: map<string, Json>, table: Table, intended: bool)
    requires "message" !in fields && "edited_message" !in fields && "inline_query" !in fields
    requires "chosen_inline_result" !in fields && "callback_query" in fields
    requires DecodeCallbackQuery(JObj(fields)).Ok? && "callback_query" in table
    requires forall i :: 0 <= i < |table["callback_query"]| ==> table["callback_query"][i].handler.Some?
    ensures DispatchWith(JObj(fields), table, intended)
         == Outcome(CallsOf(table["callback_query"], DecodeCallbackQuery(JObj(fields)).value), None)
  {
    RoutedReachesHandlers(DecodeCallbackQuery(JObj(fields)), "callback_query", table);
  }

  /** As written, an `edited_message` payload (without `message`) never reaches a handler: it always raises. */
  lemma EditedMessageNeverDispatched(fields: map<string, Json>, table: Table)
    requires "message" !in fields && "edited_message" in fields
    ensures DispatchWith(JObj(fields), table, false).invoked == []
    ensures DispatchWith(JObj(fields), table, false).error.Some?
  {
  }

  /** As intended, a well-formed `edited_message` payload reaches every `edited_message` handler, in order. */
  lemma EditedMessageIntended(fields: map<string, Json>, table: Table)
    requires "message" !in fields && "edited_message" in fields
    requires DecodeMessageAt(JObj(fields), "edited_message").Ok?
    requires "edited_message" in table
    requires forall i :: 0 <= i < |table["edited_message"]| ==> table["edited_message"][i].handler.Some?
    ensures DispatchWith(JObj(fields), table, true)
         == Outcome(CallsOf(table["edited_message"],
                            EditedMessageUpdate(DecodeMessageAt(JObj(fields), "edited_message").value)), None)
  {
    FanOutCallsAll(table["edited_message"],
                   EditedMessageUpdate(DecodeMessageAt(JObj(fields), "edited_message").value));
  }

  // ---------------------------------------------------------------------------
  // The dispatcher

  /** The views of a list of specs, in order. */
  function Views(specs: seq<UpdateHandlerSpec>): (r: seq<SpecView>)
    reads set i | 0 <= i < |specs| :: specs[i]
    ensures |r| == |specs|
    ensures forall i :: 0 <= i < |specs| ==> r[i] == specs[i].View()
  {
    if |specs| == 0 then []
    else Views(specs[..|specs| - 1]) + [specs[|specs| - 1].View()]
  }

  class UpdateDispatcher {
    const handlers: map<string, seq<UpdateHandlerSpec>>

    constructor (updateHandlers: map<string, seq<UpdateHandlerSpec>>)
      ensures handlers == updateHandlers
    {
      handlers := updateHandlers;
    }

    /** The specs of every update type. */
    ghost function Specs(): set<UpdateHandlerSpec> {
      set k, i | k in handlers && 0 <= i < |handlers[k]| :: handlers[k][i]
    }

    function Table(): Table
      reads Specs()
    {
      map k | k in handlers :: Views(handlers[k])
    }

    /** `find_*_handlers` for `message`, `inline_query`, `chosen_inline_result` and `callback_query`. */
    method FindHandlers(key: string, u: Update) returns (outcome: Outcome)
      ensures outcome == FanOutKey(key, u, Table())
    {
      if key !in handlers {
        return Failed(KeyError(key));
      }
      var specs := handlers[key];
      ghost var views := Views(specs);
      assert Table()[key] == views;
      var invoked: seq<Invocation> := [];
      var i := 0;
      while i < |specs|
        invariant 0 <= i <= |specs|
        invariant FanOut(views[..i], u) == Outcome(invoked, None)
      {
        assert views[..i + 1][..i] == views[..i];
        if specs[i].handler.None? {
          FanOutStops(views, i + 1, u);
          return Outcome(invoked, Some(AttributeError("handle")));
        }
        invoked := invoked + [Invocation(specs[i].handler.value, u)];
        i := i + 1;
      }
      assert views[..i] == views;
      outcome := Outcome(invoked, None);
    }

    /** `find_bot_command_handlers`: the specs whose patterns take the command, in order. */
    method FindBotCommandHandlers(u: Update) returns (outcome: Outcome)
      requires u.BotCommandUpdate?
      ensures "bot_command" !in Table() ==> outcome == Failed(KeyError("bot_command"))
      ensures "bot_command" in Table() ==> outcome == CommandFanOut(Table()["bot_command"], u.botCommand, u)
    {
      if "bot_command" !in handlers {
        return Failed(KeyError("bot_command"));
      }
      var specs := handlers["bot_command"];
      ghost var views := Views(specs);
      assert Table()["bot_command"] == views;
      var invoked: seq<Invocation> := [];
      var i := 0;
      while i < |specs|
        invariant 0 <= i <= |specs|
        invariant CommandFanOut(views[..i], u.botCommand, u) == Outcome(invoked, None)
      {
        assert views[..i + 1][..i] == views[..i];
        var wanted := Wants(specs[i].View(), u.botCommand);
        if wanted.Err? {
          CommandFanOutStops(views, i + 1, u.botCommand, u);
          return Outcome(invoked, Some(wanted.error));
        }
        if wanted.value {
          if specs[i].handler.None? {
            CommandFanOutStops(views, i + 1, u.botCommand, u);
            return Outcome(invoked, Some(AttributeError("handle")));
          }
          invoked := invoked + [Invocation(specs[i].handler.value, u)];
        }
        i := i + 1;
      }
      assert views[..i] == views;
      outcome := Outcome(invoked, None);
    }

    /** The `message` branch of `dispatch`, scanning the entities with an early return. */
    method DispatchMessage(data: Json) returns (outcome: Outcome)
      ensures outcome == MessageOutcome(data, Table())
    {
      var message := GetItem(data, "message");
      if message.Err? {
        return Failed(message.error);
      }
      var hasText := Contains(message.value, "text");
      if hasText.Err? {
        return Failed(hasText.error);
      }
      if hasText.value {
        // The second `in` tests the same container as the first, so it cannot raise.
        var hasEntities := Contains(message.value, "entities");
        if hasEntities.value {
          var listed := GetItem(message.value, "entities");
          if listed.Err? {
            return Failed(listed.error);
          }
          var entities := Iterate(listed.value);
          if entities.Err? {
            return Failed(entities.error);
          }
          var i := 0;
          while i < |entities.value|
            invariant 0 <= i <= |entities.value|
            invariant FirstCommandEntity(entities.value) == FirstCommandEntity(entities.value[i..])
          {
            assert entities.value[i..][1..] == entities.value[i + 1..];
            var isCommand := IsCommandEntity(entities.value[i]);
            if isCommand.Err? {
              return Failed(isCommand.error);
            }
            if isCommand.value {
              var update := DecodeBotCommand(data, entities.value[i]);
              if update.Err? {
                return Failed(update.error);
              }
              outcome := FindBotCommandHandlers(update.value);
              return;
            }
            i := i + 1;
          }
        }
      }
      var update := DecodeMessageAt(data, "message");
      if update.Err? {
        return Failed(update.error);
      }
      outcome := FindHandlers("message", MessageUpdate(update.value));
    }

    /** `dispatch(update_data)` as written. */
    method Dispatch(data: Json) returns (outcome: Outcome)
      ensures outcome == DispatchWith(data, Table(), false)
    {
      var hasMessage := Contains(data, "message");
      if hasMessage.Err? {
        return Failed(hasMessage.error);
      }
      if hasMessage.value {
        outcome := DispatchMessage(data);
      } else if In(data, "edited_message") {
        outcome := EditedOutcome(data);
      } else if In(data, "inline_query") {
        outcome := Route(DecodeInlineQuery(data), "inline_query");
      } else if In(data, "chosen_inline_result") {
        outcome := Route(DecodeChosenInlineResult(data), "chosen_inline_result");
      } else if In(data, "callback_query") {
        outcome := Route(DecodeCallbackQuery(data), "callback_query");
      } else {
        outcome := Outcome([], None);
      }
    }

    /** Builds the update (which can raise) and calls the handlers of `key`. */
    method Route(decoded: Result<Update>, key: string) returns (outcome: Outcome)
      ensures outcome == Routed(decoded, key, Table())
    {
      if decoded.Err? {
        return Failed(decoded.error);
      }
      outcome := FindHandlers(key, decoded.value);
    }
  }
}
