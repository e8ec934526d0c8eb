/** Request construction and reply extraction of the three provider protocols
    (src/lib/providers.js): the OpenAI-style chat completion call used by
    `callOpenRouter` and `callOpenAICompatible`, and the configurable
    `callGeneric`. The HTTP call itself is not part of this module: it only
    builds what would be handed to `axios` and reads what comes back. */
module Requests {
  import opened Text
  import opened Optional
  import opened JsonValue
  import opened Template
  import opened JsonPath

  /** `slot.generic`, with an absent object or field read as empty, as the
      `||` fallbacks of `callGeneric` do. */
  datatype GenericConfig = GenericConfig(
    url: string,
    httpMethod: string,
    headers: map<string, string>,
    bodyTemplate: string,
    responsePath: string)

  /** A configured slot. An absent `providerType` or `apiKey` is the empty
      string: both are tested for truthiness first, and a slot with an empty
      one is answered by an early error before either value is compared,
      copied into the result or put into a header, or, for an empty `apiKey`
      on a `generic_json` slot, is never read again. `label` (here
      `slotLabel`), `baseUrl` and `model` keep `None` for `undefined`, where
      it behaves differently from the empty string. */
  datatype SlotConfig = SlotConfig(
    slotLabel: Option<string>,
    providerType: string,
    apiKey: string,
    baseUrl: Option<string>,
    model: Option<string>,
    headers: map<string, string>,
    generic: GenericConfig)

  /** A request body: a JSON value `axios` serializes, or a ready string. */
  datatype Payload = JsonBody(value: Json) | TextBody(text: string)

  /** What is handed to `axios`. */
  datatype Request = Request(
    httpMethod: string,
    url: Option<string>,
    headers: map<string, string>,
    body: Payload,
    timeoutMs: nat)

  /** A prepared call: the request and the path its reply is read from, or
      the message of the exception thrown while building it. */
  datatype Prepared = Send(request: Request, responsePath: string) | Threw(message: string)

  /** Every provider call gives up after 60 seconds. */
  const TimeoutMs: nat := 60000

  /** What V8 throws for `slot.baseUrl.replace(...)` when `baseUrl` is
      `undefined`. */
  const MissingBaseUrlMessage: string := "Cannot read properties of undefined (reading 'replace')"

  // ---------------------------------------------------------------------
  // OpenAI-style chat completions
  // ---------------------------------------------------------------------

  /** `s.replace(/\/$/, '')`: at most one trailing slash is removed. */
  function StripTrailingSlash(s: string): (r: string)
    ensures s == r || s == r + "/"
    ensures r == s <==> (s == [] || s[|s| - 1] != '/')
  {
    if s != [] && s[|s| - 1] == '/' then s[..|s| - 1] else s
  }

  /** The chat completions endpoint below a base URL. */
  function ChatCompletionsUrl(baseUrl: string): (url: string)
    ensures url == StripTrailingSlash(baseUrl) + "/chat/completions"
    ensures |url| == |baseUrl| + 17 || |url| == |baseUrl| + 16
  {
    StripTrailingSlash(baseUrl) + "/chat/completions"
  }

  /** `{ Authorization, 'Content-Type', ...slot.headers }`: the slot's own
      headers override both defaults. */
  function OpenAIHeaders(apiKey: string, extra: map<string, string>): (h: map<string, string>)
    ensures h.Keys == extra.Keys + {"Authorization", "Content-Type"}
    ensures forall k :: k in extra ==> h[k] == extra[k]
    ensures "Authorization" !in extra ==> h["Authorization"] == "Bearer " + apiKey
    ensures "Content-Type" !in extra ==> h["Content-Type"] == "application/json"
  {
    map["Authorization" := "Bearer " + apiKey, "Content-Type" := "application/json"] + extra
  }

  /** `buildOpenAIChatBody(model, messages)`: `{ model, messages }`, where an
      `undefined` model is dropped when the body is serialized. */
  function ChatBody(model: Option<string>, messages: seq<Json>): (body: Json)
    ensures body.Obj? && "messages" in body.fields && body.fields["messages"] == Arr(messages)
    ensures "model" in body.fields <==> model.Some?
    ensures model.Some? ==> body.fields["model"] == Str(model.value)
    ensures body.fields.Keys <= {"model", "messages"}
  {
    var withMessages := map["messages" := Arr(messages)];
    match model
    case Some(m) => Obj(withMessages["model" := Str(m)])
    case None => Obj(withMessages)
  }

  /** The call `callOpenRouter` and `callOpenAICompatible` both make. */
  function OpenAIRequest(slot: SlotConfig, messages: seq<Json>): (p: Prepared)
    ensures p.Threw? <==> slot.baseUrl.None?
    ensures p.Threw? ==> p.message == MissingBaseUrlMessage
    ensures p.Send? ==>
      && p.request == Request("POST", Some(ChatCompletionsUrl(slot.baseUrl.value)),
                              OpenAIHeaders(slot.apiKey, slot.headers),
                              JsonBody(ChatBody(slot.model, messages)), TimeoutMs)
      && p.responsePath == ReplyPath
  {
    match slot.baseUrl
    case None => Threw(MissingBaseUrlMessage)
    case Some(base) =>
      Send(Request("POST", Some(ChatCompletionsUrl(base)), OpenAIHeaders(slot.apiKey, slot.headers),
                   JsonBody(ChatBody(slot.model, messages)), TimeoutMs),
           ReplyPath)
  }

  // ---------------------------------------------------------------------
  // The configurable generic protocol
  // ---------------------------------------------------------------------

  /** `g.url || slot.baseUrl`. */
  function GenericUrl(g: GenericConfig, baseUrl: Option<string>): (url: Option<string>)
    ensures g.url != "" ==> url == Some(g.url)
    ensures g.url == "" ==> url == baseUrl
  {
    if g.url != "" then Some(g.url) else baseUrl
  }

  /** `(g.method || 'POST').toUpperCase()`. */
  function GenericMethod(g: GenericConfig): (m: string)
    ensures forall i :: 0 <= i < |m| ==> !('a' <= m[i] <= 'z')
    ensures g.httpMethod == "" ==> m == "POST"
    ensures g.httpMethod != "" ==>
      |m| == |g.httpMethod| && forall i :: 0 <= i < |m| ==> m[i] == UpperChar(g.httpMethod[i])
  {
    ToUpperAscii(if g.httpMethod != "" then g.httpMethod else "POST")
  }

  /** `{ 'Content-Type': 'application/json', ...slot.headers, ...g.headers }`:
      the generic headers win over the slot's, which win over the default. */
  function GenericHeaders(slotHeaders: map<string, string>, g: GenericConfig): (h: map<string, string>)
    ensures h.Keys == {"Content-Type"} + slotHeaders.Keys + g.headers.Keys
    ensures forall k :: k in g.headers ==> h[k] == g.headers[k]
    ensures forall k :: k in slotHeaders && k !in g.headers ==> h[k] == slotHeaders[k]
    ensures "Content-Type" !in slotHeaders && "Content-Type" !in g.headers
            ==> h["Content-Type"] == "application/json"
  {
    map["Content-Type" := "application/json"] + slotHeaders + g.headers
  }

  /** The template variables: the model name (empty when unset) and the
      serialized conversation. */
  function TemplateVariables(model: Option<string>, messages: seq<Json>, serialize: Json -> string)
    : (vars: map<string, string>)
    ensures vars.Keys == {"model", "messages_json"}
    ensures vars["model"] == (if model.Some? then model.value else "")
    ensures vars["messages_json"] == serialize(Arr(messages))
  {
    map["model" := (if model.Some? then model.value else ""),
        "messages_json" := serialize(Arr(messages))]
  }

  /** The template in use: the configured one, or the default. */
  function BodyTemplate(g: GenericConfig): string {
    if g.bodyTemplate != "" then g.bodyTemplate else DefaultBodyTemplate
  }

  /** The path the reply is read from: the configured one, or the
      OpenAI-style default. */
  function ResponsePath(g: GenericConfig): string {
    if g.responsePath != "" then g.responsePath else ReplyPath
  }

  /** The call `callGeneric` makes; building it never throws. */
  function GenericRequest(slot: SlotConfig, messages: seq<Json>, serialize: Json -> string): Prepared {
    var g := slot.generic;
    var body := Substitute(BodyTemplate(g), TemplateVariables(slot.model, messages, serialize));
    Send(Request(GenericMethod(g), GenericUrl(g, slot.baseUrl), GenericHeaders(slot.headers, g),
                 TextBody(body), TimeoutMs),
         ResponsePath(g))
  }

  /** Without a configured template the generic body wraps the serialized
      conversation as `{"messages":...}`, and the reply is read from the
      OpenAI-style path unless another is configured. */
  lemma GenericDefaults(slot: SlotConfig, messages: seq<Json>, serialize: Json -> string)
    requires slot.generic.bodyTemplate == ""
    ensures var p := GenericRequest(slot, messages, serialize);
      && p.Send?
      && p.request.body == TextBody("{\"messages\":" + serialize(Arr(messages)) + "}")
      && p.request.timeoutMs == TimeoutMs
      && (slot.generic.responsePath == "" ==> p.responsePath == ReplyPath)
  {
    var vars := TemplateVariables(slot.model, messages, serialize);
    DefaultBodyFilled(vars);
  }

  /** Whatever the template, the reply is read along the configured path,
      or along the OpenAI-style one when none is configured, and the call
      gives up after 60 seconds. */
  lemma GenericResponsePath(slot: SlotConfig, messages: seq<Json>, serialize: Json -> string)
    ensures var p := GenericRequest(slot, messages, serialize);
      && p.Send?
      && (slot.generic.responsePath != "" ==> p.responsePath == slot.generic.responsePath)
      && (slot.generic.responsePath == "" ==> p.responsePath == ReplyPath)
      && p.request.timeoutMs == TimeoutMs
  {
  }

  /** A configured template made of literal text and placeholders is filled
      in place: `{{model}}` with the model name, `{{messages_json}}` with the
      serialized conversation, any other name with the empty string. */
  lemma GenericTemplateBody(slot: SlotConfig, messages: seq<Json>, serialize: Json -> string,
                            pieces: seq<Piece>)
    requires forall i :: 0 <= i < |pieces| ==> WellFormedPiece(pieces[i])
    requires slot.generic.bodyTemplate == Render(pieces) != ""
    ensures GenericRequest(slot, messages, serialize).request.body
         == TextBody(Fill(pieces, TemplateVariables(slot.model, messages, serialize)))
  {
    SubstituteRendered(pieces, TemplateVariables(slot.model, messages, serialize));
  }

  // ---------------------------------------------------------------------
  // Reading the reply
  // ---------------------------------------------------------------------

  /** `typeof text === 'string' ? text : JSON.stringify(resp.data)`, where
      `text = getByPath(resp.data, path)`. */
  function ExtractText(data: Json, path: string, serialize: Json -> string): string {
    match PathValue(data, path)
    case Some(Str(s)) => s
    case _ => serialize(data)
  }

  /** On an OpenAI-style response the reply text is the first choice's
      message content when that is a string; otherwise the whole response is
      serialized. Other keys of the response, the choice and the message do
      not matter. */
  lemma ExtractReply(top: map<string, Json>, items: seq<Json>, choice: map<string, Json>,
                     msg: map<string, Json>, serialize: Json -> string)
    requires "choices" in top && top["choices"] == Arr(items)
    requires |items| >= 1 && items[0] == Obj(choice)
    requires "message" in choice && choice["message"] == Obj(msg)
    requires "content" in msg
    ensures ExtractText(Obj(top), ReplyPath, serialize)
         == (if msg["content"].Str? then msg["content"].s else serialize(Obj(top)))
  {
    ReplyPathLookup(top, items, choice, msg);
  }

  /** A response without the path gives the serialized response. */
  lemma ExtractMissing(data: Json, path: string, serialize: Json -> string)
    requires PathValue(data, path).None?
    ensures ExtractText(data, path, serialize) == serialize(data)
  {
  }
}
