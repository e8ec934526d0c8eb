/** `callProvider` and `callAllProviders` (src/lib/providers.js): per-slot
    validation, dispatch on the provider type, conversion of every failure
    into an error result, and the fan-out over the three fixed slots. The
    network is a parameter: `transport` maps the request handed to `axios`
    to what came back. */
module Providers {
  import opened Optional
  import opened JsonValue
  import opened Requests

  /** What `axios` delivered: the parsed response body, or a rejection with
      `err.response.data` (when the server answered) and `err.message`. */
  datatype Outcome = Ok(data: Json) | Fail(responseData: Option<Json>, message: Option<string>)

  /** The three protocols `callProvider` dispatches to. */
  datatype Protocol = OpenRouter | OpenAICompatible | GenericJson

  /** The `switch` on `slot.providerType`: any other value takes the
      `default` arm, the OpenAI-compatible call. */
  function ProtocolOf(providerType: string): (p: Protocol)
    ensures p == GenericJson <==> providerType == "generic_json"
    ensures p == OpenRouter <==> providerType == "openrouter"
  {
    if providerType == "openrouter" then OpenRouter
    else if providerType == "openai_compatible" then OpenAICompatible
    else if providerType == "generic_json" then GenericJson
    else OpenAICompatible
  }

  /** The request the dispatched protocol builds. */
  function Prepare(slot: SlotConfig, messages: seq<Json>, serialize: Json -> string): Prepared {
    match ProtocolOf(slot.providerType)
    case OpenRouter => OpenAIRequest(slot, messages)
    case OpenAICompatible => OpenAIRequest(slot, messages)
    case GenericJson => GenericRequest(slot, messages, serialize)
  }

  /** Either the reply text or the error message: a result never has both. */
  datatype Answer = Output(text: string) | Error(message: string)

  /** The object `callProvider` resolves to. `providerType` is absent from
      the two early errors. */
  datatype SlotResult = SlotResult(
    slotKey: string,
    slotLabel: Option<string>,
    providerType: Option<string>,
    answer: Answer)

  /** `x || slotKey` for a label. */
  function LabelOr(given: Option<string>, slotKey: string): (r: string)
    ensures r == slotKey || (given.Some? && r == given.value != "")
    ensures given.Some? && given.value != "" ==> r == given.value
  {
    if given.Some? && given.value != "" then given.value else slotKey
  }

  /** The error message of the `catch` block: the serialized response body
      when it is truthy, else `err.message` when it is non-empty, else
      `'Unknown error'`. */
  function ErrorText(responseData: Option<Json>, message: Option<string>, serialize: Json -> string): string {
    if responseData.Some? && Truthy(responseData.value) then serialize(responseData.value)
    else if message.Some? && message.value != "" then message.value
    else "Unknown error"
  }

  /** The two checks made before any call. */
  predicate NotConfigured(slot: Option<SlotConfig>) {
    slot.None? || slot.value.providerType == ""
  }

  predicate MissingKey(slot: SlotConfig) {
    slot.apiKey == "" && slot.providerType != "generic_json"
  }

  /** `callProvider(slotKey, slot, messages)`. */
  function CallProvider(slotKey: string, slot: Option<SlotConfig>, messages: seq<Json>,
                        serialize: Json -> string, transport: Request -> Outcome): (r: SlotResult)
    ensures r.slotKey == slotKey
  {
    if NotConfigured(slot) then
      SlotResult(slotKey, Some(LabelOr(if slot.Some? then slot.value.slotLabel else None, slotKey)),
                 None, Error("Provider not configured"))
    else
      var s := slot.value;
      if MissingKey(s) then
        SlotResult(slotKey, s.slotLabel, None, Error("Missing API key"))
      else
        var shown := Some(LabelOr(s.slotLabel, slotKey));
        var answer :=
          match Prepare(s, messages, serialize)
          case Threw(message) => Error(ErrorText(None, Some(message), serialize))
          case Send(request, path) =>
            match transport(request)
            case Ok(data) => Output(ExtractText(data, path, serialize))
            case Fail(responseData, message) => Error(ErrorText(responseData, message, serialize));
        SlotResult(slotKey, shown, Some(s.providerType), answer)
  }

  /** The requests `callProvider` hands to `axios`: none for an early error
      or a request that could not be built, else exactly one. */
  function Sent(slot: Option<SlotConfig>, messages: seq<Json>, serialize: Json -> string): (rs: seq<Request>)
    ensures |rs| <= 1
  {
    if NotConfigured(slot) || MissingKey(slot.value) then []
    else
      match Prepare(slot.value, messages, serialize)
      case Threw(_) => []
      case Send(request, _) => [request]
  }

  // ---------------------------------------------------------------------
  // What `callProvider` promises
  // ---------------------------------------------------------------------

  /** A result carries `providerType` exactly when neither early check
      fired, and then it is the slot's type and the label falls back to the
      slot key. */
  lemma ResultShape(slotKey: string, slot: Option<SlotConfig>, messages: seq<Json>,
                    serialize: Json -> string, transport: Request -> Outcome)
    ensures var r := CallProvider(slotKey, slot, messages, serialize, transport);
      && (r.providerType.None? <==> NotConfigured(slot) || MissingKey(slot.value))
      && (r.providerType.Some? ==>
            r.providerType.value == slot.value.providerType
            && r.slotLabel == Some(LabelOr(slot.value.slotLabel, slotKey)))
  {
  }

  /** A missing slot or provider type is reported with the label falling
      back to the slot key; a missing API key outside the generic protocol is
      reported with the slot's label as it is. Neither sends anything. */
  lemma EarlyErrors(slotKey: string, slot: Option<SlotConfig>, messages: seq<Json>,
                    serialize: Json -> string, transport: Request -> Outcome)
    ensures NotConfigured(slot) ==>
      && CallProvider(slotKey, slot, messages, serialize, transport)
         == SlotResult(slotKey, Some(LabelOr(if slot.Some? then slot.value.slotLabel else None, slotKey)),
                       None, Error("Provider not configured"))
      && Sent(slot, messages, serialize) == []
    ensures !NotConfigured(slot) && MissingKey(slot.value) ==>
      && CallProvider(slotKey, slot, messages, serialize, transport)
         == SlotResult(slotKey, slot.value.slotLabel, None, Error("Missing API key"))
      && Sent(slot, messages, serialize) == []
  {
  }

  /** The result depends on the network only through the replies to the
      requests that were sent. */
  lemma OnlySentRequestsMatter(slotKey: string, slot: Option<SlotConfig>, messages: seq<Json>,
                               serialize: Json -> string, t1: Request -> Outcome, t2: Request -> Outcome)
    requires forall q :: q in Sent(slot, messages, serialize) ==> t1(q) == t2(q)
    ensures CallProvider(slotKey, slot, messages, serialize, t1)
         == CallProvider(slotKey, slot, messages, serialize, t2)
  {
    if !NotConfigured(slot) && !MissingKey(slot.value) {
      match Prepare(slot.value, messages, serialize)
      case Threw(_) =>
      case Send(request, _) =>
        assert request in Sent(slot, messages, serialize);
    }
  }

  /** An unrecognised provider type is served exactly like
      `openai_compatible`: the same request is sent and the same answer
      given; only the reported type differs. */
  lemma DefaultArm(slotKey: string, slot: SlotConfig, messages: seq<Json>,
                   serialize: Json -> string, transport: Request -> Outcome)
    requires slot.providerType !in {"", "openrouter", "openai_compatible", "generic_json"}
    ensures var r := CallProvider(slotKey, Some(slot), messages, serialize, transport);
      var c := CallProvider(slotKey, Some(slot.(providerType := "openai_compatible")), messages,
                            serialize, transport);
      && r.slotKey == c.slotKey && r.slotLabel == c.slotLabel && r.answer == c.answer
      && r.providerType == (if c.providerType.Some? then Some(slot.providerType) else None)
      && Sent(Some(slot), messages, serialize)
         == Sent(Some(slot.(providerType := "openai_compatible")), messages, serialize)
  {
    var other := slot.(providerType := "openai_compatible");
    assert ProtocolOf(slot.providerType) == OpenAICompatible;
    assert OpenAIRequest(slot, messages) == OpenAIRequest(other, messages);
    assert Prepare(slot, messages, serialize) == Prepare(other, messages, serialize);
    assert !NotConfigured(Some(slot)) && !NotConfigured(Some(other));
    assert MissingKey(slot) == MissingKey(other);
  }

  /** A generic slot needs no API key. */
  lemma GenericNeedsNoKey(slotKey: string, slot: SlotConfig, messages: seq<Json>,
                          serialize: Json -> string, transport: Request -> Outcome)
    requires slot.providerType == "generic_json"
    ensures CallProvider(slotKey, Some(slot), messages, serialize, transport).providerType
         == Some("generic_json")
    ensures |Sent(Some(slot), messages, serialize)| == 1
  {
  }

  /** An OpenAI-style slot without a base URL fails before anything is sent,
      with the message of the `TypeError` its URL construction throws. */
  lemma MissingBaseUrl(slotKey: string, slot: SlotConfig, messages: seq<Json>,
                       serialize: Json -> string, transport: Request -> Outcome)
    requires slot.providerType != "" && slot.apiKey != ""
    requires slot.providerType != "generic_json" && slot.baseUrl.None?
    ensures CallProvider(slotKey, Some(slot), messages, serialize, transport).answer
         == Error(MissingBaseUrlMessage)
    ensures Sent(Some(slot), messages, serialize) == []
  {
  }

  /** A successful reply is read along the protocol's path; a failed one is
      reported with the serialized response body, the error message or
      `Unknown error`, in that order of preference. */
  lemma SentOutcome(slotKey: string, slot: SlotConfig, messages: seq<Json>,
                    serialize: Json -> string, transport: Request -> Outcome)
    requires !NotConfigured(Some(slot)) && !MissingKey(slot)
    requires Prepare(slot, messages, serialize).Send?
    ensures var p := Prepare(slot, messages, serialize);
      var r := CallProvider(slotKey, Some(slot), messages, serialize, transport);
      && Sent(Some(slot), messages, serialize) == [p.request]
      && (transport(p.request).Ok? ==>
            r.answer == Output(ExtractText(transport(p.request).data, p.responsePath, serialize)))
      && (transport(p.request).Fail? ==>
            r.answer == Error(ErrorText(transport(p.request).responseData,
                                        transport(p.request).message, serialize)))
  {
  }

  /** Error messages are never empty as long as the serializer never
      returns the empty string, which `JSON.stringify` of a truthy value
      does not. */
  lemma ErrorTextNonEmpty(responseData: Option<Json>, message: Option<string>, serialize: Json -> string)
    requires forall j :: serialize(j) != ""
    ensures ErrorText(responseData, message, serialize) != ""
  {
  }

  // ---------------------------------------------------------------------
  // `callAllProviders`
  // ---------------------------------------------------------------------

  /** The slots every broadcast goes to. */
  const SlotKeys: seq<string> := ["slotA", "slotB", "slotC"]

  /** `slots[k]`, `undefined` when the slot is not configured. */
  function SlotOf(slots: map<string, SlotConfig>, k: string): Option<SlotConfig> {
    if k in slots then Some(slots[k]) else None
  }

  /** `callAllProviders(slots, messages)`: one `callProvider` per fixed key,
      each against the network as that call sees it, collected into an
      object keyed by each result's `slotKey`. */
  method CallAllProviders(slots: map<string, SlotConfig>, messages: seq<Json>,
                          serialize: Json -> string, transport: string -> Request -> Outcome)
    returns (out: map<string, SlotResult>)
    ensures out.Keys == {"slotA", "slotB", "slotC"}
    ensures forall k :: k in out ==>
      out[k] == CallProvider(k, SlotOf(slots, k), messages, serialize, transport(k))
    ensures forall k :: k in out ==> out[k].slotKey == k
  {
    var keys := SlotKeys;
    var results := seq(|keys|, i requires 0 <= i < |keys| =>
      CallProvider(keys[i], SlotOf(slots, keys[i]), messages, serialize, transport(keys[i])));
    out := map[];
    for i := 0 to |results|
      invariant out.Keys == set j | 0 <= j < i :: keys[j]
      invariant forall k :: k in out ==>
        out[k] == CallProvider(k, SlotOf(slots, k), messages, serialize, transport(k))
    {
      var r := results[i];
      out := out[r.slotKey := r];
    }
    assert out.Keys == {keys[0], keys[1], keys[2]};
  }
}
