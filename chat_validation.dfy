/** The request models of the chat endpoint (backend/main.py, `Message` and
    `ChatRequest`) and the field validation that the framework performs before
    the handler runs. */
module ChatValidation {
  import opened Wrappers

  const MAX_CONTENT_LENGTH := 10000
  const MAX_MESSAGES := 50
  const MAX_MODEL_LENGTH := 100
  const MIN_TEMPERATURE: real := 0.0
  const MAX_TEMPERATURE: real := 2.0
  /** The field default of `ChatRequest.temperature`, used when the key is absent. */
  const FIELD_DEFAULT_TEMPERATURE: real := 0.5

  /** One chat message; the same record arrives raw and leaves validated. */
  datatype Message = Message(role: string, content: string)

  /** A JSON field as the client sent it: left out, sent as `null`, or given. */
  datatype Field<T> = Absent | Null | Given(value: T)

  /** The decoded request body, before validation. */
  datatype RawChatRequest = RawChatRequest(
    messages: Field<seq<Message>>,
    model: Field<string>,
    temperature: Field<real>,
    stream: Field<bool>)

  /** A validated request; the optional fields keep Python's `None`. */
  datatype ChatRequest = ChatRequest(
    messages: seq<Message>,
    model: Option<string>,
    temperature: Option<real>,
    stream: Option<bool>)

  /** The top-level field a validation error is reported against. */
  datatype FieldName = Messages | Model | Temperature

  /** `pattern="^(user|assistant|system)$"`: the pattern is anchored at both
      ends, so the role is exactly one of the three words. */
  predicate ValidRole(role: string) {
    role == "user" || role == "assistant" || role == "system"
  }

  predicate ValidMessage(m: Message) {
    ValidRole(m.role) && 1 <= |m.content| <= MAX_CONTENT_LENGTH
  }

  /** The field constraint on `messages`: `min_length=1, max_length=50` and
      every element a valid `Message`. */
  predicate MessagesConstraint(ms: seq<Message>) {
    1 <= |ms| <= MAX_MESSAGES && forall i :: 0 <= i < |ms| ==> ValidMessage(ms[i])
  }

  /** The extra validator `validate_messages`, run only on a list that already
      met the field constraint. */
  function ValidateMessagesHook(ms: seq<Message>): (r: Result<seq<Message>, string>)
    ensures r.Success? <==> ms != []
    ensures r.Success? ==> r.value == ms
  {
    if ms == [] then Failure("Messages cannot be empty") else Success(ms)
  }

  predicate MessagesOk(f: Field<seq<Message>>) {
    f.Given? && MessagesConstraint(f.value) && ValidateMessagesHook(f.value).Success?
  }

  predicate ModelOk(f: Field<string>) {
    f.Given? ==> |f.value| <= MAX_MODEL_LENGTH
  }

  predicate TemperatureOk(f: Field<real>) {
    f.Given? ==> MIN_TEMPERATURE <= f.value <= MAX_TEMPERATURE
  }

  function ModelValue(f: Field<string>): Option<string> {
    if f.Given? then Some(f.value) else None
  }

  /** An absent key takes the default 0.5; an explicit `null` stays `None`. */
  function TemperatureValue(f: Field<real>): Option<real> {
    match f
    case Absent => Some(FIELD_DEFAULT_TEMPERATURE)
    case Null => None
    case Given(t) => Some(t)
  }

  /** An absent key takes the default `False`; an explicit `null` stays `None`. */
  function StreamValue(f: Field<bool>): Option<bool> {
    match f
    case Absent => Some(false)
    case Null => None
    case Given(b) => Some(b)
  }

  /** Validation of a request body: every field is checked and all offending
      top-level fields are reported together. */
  function Validate(raw: RawChatRequest): (r: Result<ChatRequest, set<FieldName>>)
    ensures r.Success? <==>
      && raw.messages.Given?
      && 1 <= |raw.messages.value| <= MAX_MESSAGES
      && (forall i :: 0 <= i < |raw.messages.value| ==>
            ValidRole(raw.messages.value[i].role)
            && 1 <= |raw.messages.value[i].content| <= MAX_CONTENT_LENGTH)
      && (raw.model.Given? ==> |raw.model.value| <= MAX_MODEL_LENGTH)
      && (raw.temperature.Given? ==> 0.0 <= raw.temperature.value <= 2.0)
    ensures r.Success? ==>
      && r.value.messages == raw.messages.value
      && r.value.model == (if raw.model.Given? then Some(raw.model.value) else None)
      && (raw.temperature.Absent? ==> r.value.temperature == Some(0.5))
      && (raw.temperature.Null? ==> r.value.temperature == None)
      && (raw.temperature.Given? ==> r.value.temperature == Some(raw.temperature.value))
      && (raw.stream.Absent? ==> r.value.stream == Some(false))
      && (raw.stream.Null? ==> r.value.stream == None)
      && (raw.stream.Given? ==> r.value.stream == Some(raw.stream.value))
    ensures r.Failure? ==>
      && r.error != {}
      && (Messages in r.error <==> !MessagesOk(raw.messages))
      && (Model in r.error <==> !ModelOk(raw.model))
      && (Temperature in r.error <==> !TemperatureOk(raw.temperature))
  {
    var errors :=
      (if MessagesOk(raw.messages) then {} else {Messages})
      + (if ModelOk(raw.model) then {} else {Model})
      + (if TemperatureOk(raw.temperature) then {} else {Temperature});
    if errors == {} then
      Success(ChatRequest(raw.messages.value, ModelValue(raw.model),
                          TemperatureValue(raw.temperature), StreamValue(raw.stream)))
    else
      Failure(errors)
  }

  /** An empty message list is always rejected, whatever the other fields. */
  lemma EmptyMessagesRejected(raw: RawChatRequest)
    requires raw.messages == Given([])
    ensures Validate(raw).Failure? && Messages in Validate(raw).error
  {
  }

  /** `validate_messages` never rejects a list that met `min_length=1`: its
      check only repeats the field constraint. */
  lemma MessagesHookRedundant(ms: seq<Message>)
    requires MessagesConstraint(ms)
    ensures ValidateMessagesHook(ms) == Success(ms)
  {
  }

  /** A request holding one message and nothing else is accepted iff the
      message's role is one of the three words and its content has between
      1 and 10000 characters. */
  lemma MessageAcceptance(m: Message)
    ensures Validate(RawChatRequest(Given([m]), Absent, Absent, Absent)).Success? <==>
      (m.role in {"user", "assistant", "system"} && 1 <= |m.content| <= 10000)
  {
    assert [m][0] == m;
    if m.role in {"user", "assistant", "system"} && 1 <= |m.content| <= 10000 {
      assert MessagesConstraint([m]);
    }
  }
}
