/**
 * The application-level JSON event vocabulary exchanged with the realtime
 * endpoint over the data channel, as decoded values.  JSON text itself is not
 * modelled: an outbound message is a `Frame`, an inbound one an `Event`, and a
 * frame that does not parse is `None`.
 */
module Wire {

  datatype Option<+T> = None | Some(value: T)

  /** The `turn_detection` object carried by `session.update`. */
  datatype TurnDetection = TurnDetection(
    kind: string,
    threshold: real,
    prefixPaddingMs: nat,
    silenceDurationMs: nat,
    createResponse: bool)

  /**
   * The two system instructions the client sends.  The model keeps which one a
   * content part carries; `PromptText` gives the text that goes on the wire.
   */
  datatype Prompt = Greeting | Recovery

  datatype ContentPart = ContentPart(kind: string, text: Prompt)

  datatype Item = Item(kind: string, role: string, content: seq<ContentPart>)

  /** The three outbound event types the client emits. */
  datatype Body =
    | SessionUpdate(turnDetection: TurnDetection)
    | ItemCreate(item: Item)
    | ResponseCreate

  /**
   * An outbound message as it stands at some moment: its payload, its
   * `event_id` and the local-only `timestamp`, either of which may be absent.
   */
  datatype Frame = Frame(body: Body, eventId: Option<nat>, timestamp: Option<nat>)

  /** The `type` discriminator written on the wire for a body. */
  function TypeName(b: Body): string {
    match b
    case SessionUpdate(_) => "session.update"
    case ItemCreate(_) => "conversation.item.create"
    case ResponseCreate => "response.create"
  }

  /** Server-side voice activity detection: 2 s of silence ends a turn and creates a response. */
  const ServerVad: TurnDetection := TurnDetection("server_vad", 0.5, 300, 2000, true)

  function PromptText(p: Prompt): string {
    match p
    case Greeting =>
      "You are a virtual tour guide specialized ONLY in Indian tourism. Greet the user and ask them what they would like to know about India, keep it very short and concise. Always respond promptly to any greeting or question about India. Do not answer questions not related to India. DO NOT TALK ABOUT ANYTHING ELSE."
    case Recovery =>
      "You are a virtual tour guide specialized in Indian tourism. Please respond to the user's question about India in a friendly and informative manner."
  }

  /** The wire type tells the three outbound bodies apart. */
  lemma TypeNameIdentifiesBody(a: Body, b: Body)
    ensures TypeName(a) == TypeName(b) <==>
      (a.SessionUpdate? && b.SessionUpdate?) || (a.ItemCreate? && b.ItemCreate?) || (a.ResponseCreate? && b.ResponseCreate?)
  {
    if TypeName(a) == TypeName(b) {
      assert TypeName(a)[0] == TypeName(b)[0] && |TypeName(a)| == |TypeName(b)|;
    }
  }

  /** A `conversation.item.create` body holding one system-role text message. */
  function SystemMessage(p: Prompt): Body {
    ItemCreate(Item("message", "system", [ContentPart("input_text", p)]))
  }

  // ---------------------------------------------------------------------------
  // Inbound events

  /** The `error` object of an inbound error event; every field may be missing. */
  datatype ErrorInfo = ErrorInfo(code: Option<string>, param: Option<string>, message: Option<string>)

  /** A decoded inbound event: its `type` and its optional `error` object. */
  datatype Event = Event(kind: string, error: Option<ErrorInfo>)

  const ResponseDoneType: string := "response.done"
  const ErrorType: string := "error"
  const ActiveResponseCode: string := "conversation_already_has_active_response"
  const InvalidValueCode: string := "invalid_value"

  /** JavaScript truthiness of an optional string: present and not empty. */
  predicate Truthy(o: Option<string>) {
    o.Some? && o.value != ""
  }

  predicate StartsWith(s: string, prefix: string) {
    |prefix| <= |s| && s[..|prefix|] == prefix
  }

  /** `s.includes(sub)`. */
  predicate Contains(s: string, sub: string)
    decreases |s|
  {
    StartsWith(s, sub) || (s != [] && Contains(s[1..], sub))
  }

  /** `sub` occurs in `s` at position `i`. */
  ghost predicate OccursAt(s: string, sub: string, i: int) {
    0 <= i && i + |sub| <= |s| && s[i..i + |sub|] == sub
  }

  /** `Contains` agrees with the positional definition of a substring occurrence. */
  lemma {:induction false} ContainsIffOccurs(s: string, sub: string)
    ensures Contains(s, sub) <==> exists i :: OccursAt(s, sub, i)
    decreases |s|
  {
    if StartsWith(s, sub) {
      assert OccursAt(s, sub, 0);
    } else if s == [] {
      assert sub != [];
    } else {
      ContainsIffOccurs(s[1..], sub);
      if Contains(s[1..], sub) {
        var i :| OccursAt(s[1..], sub, i);
        assert s[1..][i..i + |sub|] == s[i + 1..i + 1 + |sub|];
        assert OccursAt(s, sub, i + 1);
      } else {
        forall i ensures !OccursAt(s, sub, i) {
          if 1 <= i && i + |sub| <= |s| {
            assert s[1..][i - 1..i - 1 + |sub|] == s[i..i + |sub|];
            assert !OccursAt(s[1..], sub, i - 1);
          }
        }
      }
    }
  }

  /** The peer reports that it already considers a response active. */
  predicate IsPeerConflict(ev: Event) {
    ev.kind == ErrorType && ev.error.Some? && ev.error.value.code == Some(ActiveResponseCode)
  }

  /**
   * An invalid parameter tied to content typing: code `invalid_value`, a
   * message and a param, and either the param mentions "type" or the message
   * says the content "must be 'input_text'".
   */
  predicate IsRecoverable(e: ErrorInfo) {
    && Truthy(e.message)
    && e.code == Some(InvalidValueCode)
    && Truthy(e.param)
    && (Contains(e.param.value, "type") || Contains(e.message.value, "must be 'input_text'"))
  }

  /**
   * The recovery test in terms of substring positions: an `invalid_value`
   * error with a non-empty message and param, where "type" occurs in the
   * param or "must be 'input_text'" occurs in the message.
   */
  lemma RecoverableIffTypingError(e: ErrorInfo)
    ensures IsRecoverable(e) <==>
      && e.code == Some(InvalidValueCode)
      && e.message.Some? && e.message.value != ""
      && e.param.Some? && e.param.value != ""
      && ((exists i :: OccursAt(e.param.value, "type", i))
          || (exists i :: OccursAt(e.message.value, "must be 'input_text'", i)))
  {
    if e.param.Some? {
      ContainsIffOccurs(e.param.value, "type");
    }
    if e.message.Some? {
      ContainsIffOccurs(e.message.value, "must be 'input_text'");
    }
  }

  /** The active-response conflict and the recoverable typing error are disjoint error routes. */
  lemma ConflictNotRecoverable(ev: Event)
    ensures IsPeerConflict(ev) ==> ev.kind == ErrorType && !IsRecoverable(ev.error.value)
  {
    if IsPeerConflict(ev) {
      assert ActiveResponseCode[0] != InvalidValueCode[0];
    }
  }

  /** How the message handler routes a decoded inbound event. */
  datatype Route = Completed | PeerConflict | Recoverable | Fatal | PassThrough

  function Classify(ev: Event): (r: Route)
    ensures r == Completed <==> ev.kind == ResponseDoneType
    ensures r == PeerConflict <==> IsPeerConflict(ev)
    ensures r == Recoverable <==> ev.kind == ErrorType && ev.error.Some? && IsRecoverable(ev.error.value)
    ensures r == Fatal <==>
      ev.kind == ErrorType && !IsPeerConflict(ev) && !(ev.error.Some? && IsRecoverable(ev.error.value))
    ensures r == PassThrough <==> ev.kind != ResponseDoneType && ev.kind != ErrorType
  {
    if ev.kind == ResponseDoneType then Completed
    else if IsPeerConflict(ev) then PeerConflict
    else if ev.kind == ErrorType then
      if ev.error.Some? && IsRecoverable(ev.error.value) then Recoverable else Fatal
    else PassThrough
  }
}
