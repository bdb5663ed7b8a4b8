/** The chat front end: a session gate in front of the LLM call, and the loop
    that normalises the posted messages into the shape the LLM client
    expects. HTTP routing and templates are reduced to the replies the
    handlers return; the LLM client is an argument. */
module ChatApp {
  import opened Wrappers

  /** A parsed JSON value. */
  datatype Json =
    | JNull
    | JBool(b: bool)
    | JNumber(n: real)
    | JString(s: string)
    | JArray(items: seq<Json>)
    | JObject(fields: map<string, Json>)

  /** A message as handed to the LLM client. */
  datatype FixedMessage = FixedMessage(role: Json, content: seq<Json>)

  /** A request the handler cannot process: Python raises and Flask answers 500. */
  datatype ChatError = MalformedRequest

  datatype HttpMethod = GET | POST

  datatype Reply =
    | Redirect(location: string)
    | Page(template: string)
    | Text(text: string, status: int)
    | JsonReply(json: Json, code: int)
    | BadRequest      // a missing form field
    | ServerError     // an exception in the handler

  const LOGIN_PASSWORD: string := "1234"

  /** `dict.get(key)`: the value, or None. */
  function Get(fields: map<string, Json>, key: string): Json
  {
    if key in fields then fields[key] else JNull
  }

  /** The content rule of the loop: text becomes one `{"text": ...}` part, a
      list is kept, anything else (including a missing content) becomes `[]`. */
  function NormalizedContent(content: Json): (parts: seq<Json>)
    ensures content.JString? ==> parts == [JObject(map["text" := content])]
    ensures content.JArray? ==> parts == content.items
    ensures !content.JString? && !content.JArray? ==> parts == []
  {
    match content
    case JString(_) => [JObject(map["text" := content])]
    case JArray(items) => items
    case _ => []
  }

  /** One message after normalisation. */
  function Normalize(fields: map<string, Json>): FixedMessage
  {
    FixedMessage(Get(fields, "role"), NormalizedContent(Get(fields, "content")))
  }

  /** The `{"role": ..., "content": [...]}` object of a fixed message. */
  function AsJson(m: FixedMessage): Json
  {
    JObject(map["role" := m.role, "content" := JArray(m.content)])
  }

  /** A message already in the fixed shape passes through unchanged, so
      normalising twice is the same as normalising once. */
  lemma NormalizeRoundTrip(m: FixedMessage)
    ensures AsJson(m).JObject? && Normalize(AsJson(m).fields) == m
  {
    var fields := AsJson(m).fields;
    assert Get(fields, "role") == m.role;
    assert Get(fields, "content") == JArray(m.content);
  }

  lemma NormalizeIdempotent(fields: map<string, Json>)
    ensures Normalize(AsJson(Normalize(fields)).fields) == Normalize(fields)
  {
    NormalizeRoundTrip(Normalize(fields));
  }

  /** What iterating `data.get("messages", [])` visits, or the error it
      raises: a body that is no object, `null` or a scalar, and any non-empty
      string or object (whose characters or keys have no `get`). */
  function MessagesOf(data: Json): (r: Result<seq<Json>, ChatError>)
    ensures r.Ok? <==>
      && data.JObject?
      && ("messages" in data.fields ==>
            var m := data.fields["messages"];
            m.JArray? || m == JString("") || m == JObject(map[]))
    ensures r.Ok? && "messages" in data.fields && data.fields["messages"].JArray? ==>
      r.value == data.fields["messages"].items
    ensures r.Ok? && |r.value| > 0 ==> "messages" in data.fields && data.fields["messages"] == JArray(r.value)
  {
    if !data.JObject? then Err(MalformedRequest)
    else if "messages" !in data.fields then Ok([])
    else
      match data.fields["messages"]
      case JArray(items) => Ok(items)
      case JString(s) => if s == "" then Ok([]) else Err(MalformedRequest)
      case JObject(m) => if m == map[] then Ok([]) else Err(MalformedRequest)
      case _ => Err(MalformedRequest)
  }

  /** The `fixed_messages` loop. */
  method FixMessages(messages: seq<Json>) returns (r: Result<seq<FixedMessage>, ChatError>)
    ensures r.Ok? <==> forall i :: 0 <= i < |messages| ==> messages[i].JObject?
    ensures r.Ok? ==>
      && |r.value| == |messages|
      && forall i :: 0 <= i < |messages| ==> r.value[i] == Normalize(messages[i].fields)
  {
    var fixedMessages: seq<FixedMessage> := [];
    for i := 0 to |messages|
      invariant |fixedMessages| == i
      invariant forall k :: 0 <= k < i ==> messages[k].JObject? && fixedMessages[k] == Normalize(messages[k].fields)
    {
      var msg := messages[i];
      if !msg.JObject? {
        return Err(MalformedRequest);
      }
      var role := Get(msg.fields, "role");
      var content := Get(msg.fields, "content");
      var parts: seq<Json>;
      if content.JString? {
        parts := [JObject(map["text" := content])];
      } else if content.JArray? {
        parts := content.items;
      } else {
        parts := [];
      }
      fixedMessages := fixedMessages + [FixedMessage(role, parts)];
    }
    r := Ok(fixedMessages);
  }

  /** The messages the handler passes on for `data`, or the error it raises. */
  function FixedMessagesOf(data: Json): Result<seq<FixedMessage>, ChatError>
  {
    match MessagesOf(data)
    case Err(e) => Err(e)
    case Ok(messages) =>
      if forall i :: 0 <= i < |messages| ==> messages[i].JObject?
      then Ok(seq(|messages|, i requires 0 <= i < |messages| => Normalize(messages[i].fields)))
      else Err(MalformedRequest)
  }

  /** Output has the input's length and order; each role is the input's role
      (null when missing), and each content follows the content rule. */
  lemma FixedMessagesShape(data: Json)
    requires FixedMessagesOf(data).Ok?
    ensures MessagesOf(data).Ok?
    ensures var messages, fixed := MessagesOf(data).value, FixedMessagesOf(data).value;
      && |fixed| == |messages|
      && forall i :: 0 <= i < |messages| ==>
           && messages[i].JObject?
           && fixed[i].role == (if "role" in messages[i].fields then messages[i].fields["role"] else JNull)
           && fixed[i].content == NormalizedContent(Get(messages[i].fields, "content"))
  {
  }

  /** The server: the session of one client, and (as a ghost record) the
      calls made to the LLM client. */
  class ChatServer {
    var session: map<string, string>
    ghost var llmCalls: seq<(string, seq<FixedMessage>)>

    constructor ()
      ensures session == map[] && llmCalls == []
    {
      session := map[];
      llmCalls := [];
    }

    /** `login`: the right password stores the submitted key in the session. */
    method Login(httpMethod: HttpMethod, form: map<string, string>) returns (reply: Reply)
      modifies this
      ensures llmCalls == old(llmCalls)
      ensures httpMethod == GET ==> reply == Page("login.html") && session == old(session)
      ensures httpMethod == POST && ("customer_api_key" !in form || "password" !in form) ==>
        reply == BadRequest && session == old(session)
      ensures httpMethod == POST && "customer_api_key" in form && "password" in form ==>
        if form["password"] == LOGIN_PASSWORD
        then reply == Redirect("/chat") && session == old(session)["api_key" := form["customer_api_key"]]
        else reply == Text("Invalid password", 401) && session == old(session)
    {
      if httpMethod == POST {
        if "customer_api_key" !in form || "password" !in form {
          return BadRequest;
        }
        var apiKey := form["customer_api_key"];
        var password := form["password"];
        if password == LOGIN_PASSWORD {
          session := session["api_key" := apiKey];
          return Redirect("/chat");
        }
        return Text("Invalid password", 401);
      }
      reply := Page("login.html");
    }

    /** `chat`: the chat page for a logged-in client, the login page otherwise. */
    method Chat() returns (reply: Reply)
      ensures "api_key" !in session ==> reply == Redirect("/")
      ensures "api_key" in session ==> reply == Page("chat.html")
    {
      if "api_key" !in session {
        return Redirect("/");
      }
      reply := Page("chat.html");
    }

    /** `chat_message`: without a key in the session, 403 and no LLM call;
        otherwise the fixed messages go to the LLM under the session's key. */
    method ChatMessage(data: Json, llm: (string, seq<FixedMessage>) -> Json) returns (reply: Reply)
      modifies this
      ensures session == old(session)
      ensures "api_key" !in session ==>
        reply == JsonReply(JObject(map["error" := JString("Not authenticated")]), 403) && llmCalls == old(llmCalls)
      ensures "api_key" in session && FixedMessagesOf(data).Err? ==>
        reply == ServerError && llmCalls == old(llmCalls)
      ensures "api_key" in session && FixedMessagesOf(data).Ok? ==>
        && reply == JsonReply(JObject(map["reply" := llm(session["api_key"], FixedMessagesOf(data).value)]), 200)
        && llmCalls == old(llmCalls) + [(session["api_key"], FixedMessagesOf(data).value)]
    {
      if "api_key" !in session {
        return JsonReply(JObject(map["error" := JString("Not authenticated")]), 403);
      }
      var messages := MessagesOf(data);
      if messages.Err? {
        return ServerError;
      }
      var fixedMessages := FixMessages(messages.value);
      if fixedMessages.Err? {
        return ServerError;
      }
      assert fixedMessages.value == seq(|messages.value|, i requires 0 <= i < |messages.value| => Normalize(messages.value[i].fields));
      var response := llm(session["api_key"], fixedMessages.value);
      llmCalls := llmCalls + [(session["api_key"], fixedMessages.value)];
      reply := JsonReply(JObject(map["reply" := response]), 200);
    }

    /** `logout`: the session is emptied. */
    method Logout() returns (reply: Reply)
      modifies this
      ensures session == map[] && llmCalls == old(llmCalls)
      ensures reply == Redirect("/")
    {
      session := map[];
      reply := Redirect("/");
    }
  }

  /** After `logout`, `chat_message` is refused with 403 and the LLM is not
      called, whatever the request. */
  method LogoutLocksChat(server: ChatServer, data: Json, llm: (string, seq<FixedMessage>) -> Json)
    returns (reply: Reply)
    modifies server
    ensures reply == JsonReply(JObject(map["error" := JString("Not authenticated")]), 403)
    ensures server.session == map[] && server.llmCalls == old(server.llmCalls)
  {
    var _ := server.Logout();
    reply := server.ChatMessage(data, llm);
  }
}
