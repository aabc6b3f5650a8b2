/** The conversation with the chat-completion provider: its messages, the
    two requests the agent sends, the replies it can get back, and how a
    refused request is turned into an error message.

    The HTTP exchange is not modelled: a reply is an already-decoded
    record. */
module Provider {
  import opened Wrappers
  import opened Text
  import opened Json

  /** One entry of an assistant message's `tool_calls`. */
  datatype ToolCall = ToolCall(id: string, name: string, arguments: Arguments)

  /** A conversation entry, tagged with its role. */
  datatype Message =
    | System(content: string)
    | User(content: string)
      /** the reply's `message`; `text` (its `content`) is `None` when the
          provider sends `null` */
    | Assistant(text: Option<string>, toolCalls: seq<ToolCall>)
    | Tool(toolCallId: string, name: string, content: string)

  /** A chat-completion payload. Model and temperature aside, the two
      payloads differ in whether they carry `tools` and `tool_choice`. */
  datatype Request = Request(model: string, messages: seq<Message>, offersTools: bool)

  /** The `error` object of a refused request: its `message` (`None` when
      the key is absent, `Some(Null)` when it is `null`) and its `code` (""
      when absent). */
  datatype ErrorObject = ErrorObject(message: Option<Value>, code: string)

  /** What one `requests.post` to the provider comes to. */
  datatype Reply =
      /** status 200 and `choices[0].message` present */
    | Completed(content: Option<string>, toolCalls: seq<ToolCall>)
      /** a status other than 200 (a 200 reply is never refused); `errorObject` is the body's `error`
          object when the body is JSON and has one, `body` the raw text */
    | Refused(status: int, errorObject: Option<ErrorObject>, body: string)
      /** the request raised, or the 200 body lacked `choices[0].message`:
          the exception's text */
    | Failed(error: string)

  const DecommissionedCode := "model_decommissioned"
  const ProviderErrorPrefix := "Groq API error: "

  /** `error_data.get('error', {}).get('code', '')` */
  function ErrorCode(error: Option<ErrorObject>): string
  {
    if error.Some? then error.value.code else ""
  }

  /** `error_data.get('error', {}).get('message', response.text)` */
  function ErrorDetail(error: Option<ErrorObject>, body: string): string
  {
    if error.Some? && error.value.message.Some? then Render(error.value.message.value) else body
  }

  /** Whether the refusal says the configured model is no longer served. */
  predicate Decommissioned(error: Option<ErrorObject>)
  {
    Contains(ErrorCode(error), DecommissionedCode)
  }

  /** The text of the exception raised on a refused request. A
      decommissioned-model refusal names the configured model (in quotes);
      any other is the generic provider error with the status; both end in
      the provider's own message. */
  function RefusalText(model: string, status: int, error: Option<ErrorObject>, body: string): (m: string)
    ensures Decommissioned(error) ==> Contains(m, "'" + model + "'")
    ensures !Decommissioned(error) <==> StartsWith(m, ProviderErrorPrefix)
    ensures !Decommissioned(error) ==>
              StartsWith(m, ProviderErrorPrefix + IntToString(status) + " - ")
    ensures !Decommissioned(error) ==>
              m == ProviderErrorPrefix + IntToString(status) + " - " + ErrorDetail(error, body)
    ensures EndsWith(m, ErrorDetail(error, body))
  {
    var detail := ErrorDetail(error, body);
    if Decommissioned(error) then
      var quoted := "'" + model + "'";
      var tail := " has been decommissioned. Please update config.py with a current model. Error: " + detail;
      var m := "Model " + quoted + tail;
      ContainsInfix("Model ", quoted, tail);
      DiffersAtStart(m, ProviderErrorPrefix);
      m
    else
      var lead := ProviderErrorPrefix + IntToString(status) + " - ";
      assert (lead + detail)[..|ProviderErrorPrefix|] == ProviderErrorPrefix;
      assert (lead + detail)[..|lead|] == lead;
      lead + detail
  }

  /** A `null` message is present, not absent: the text ends in "None", not
      in the raw body. */
  lemma NullMessageIsNone(model: string, status: int, code: string, body: string)
    ensures EndsWith(RefusalText(model, status, Some(ErrorObject(Some(Null), code)), body), "None")
  {
  }

  lemma DiffersAtStart(m: string, p: string)
    requires |m| > 0 && |p| > 0 && m[0] != p[0]
    ensures !StartsWith(m, p)
  {

  }
}
