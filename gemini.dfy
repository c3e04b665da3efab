/**
 * The assistant client: how a conversation is flattened into one prompt, which
 * message a failed request throws, and how each send function hands exactly
 * one request function to the shared queue.
 */
module GeminiClient {
  import opened Wrappers
  import opened Strings
  import opened Queue

  datatype ContextMessage = ContextMessage(text: string, sender: string)

  const UserLabel: string := "Пользователь"
  const GuideLabel: string := "Туроводитель"

  /** The speaker label: the user for sender `'user'`, the guide for any other sender. */
  function Speaker(m: ContextMessage): string {
    if m.sender == "user" then UserLabel else GuideLabel
  }

  /** `${label}: ${msg.text}`. */
  function FormatLine(m: ContextMessage): string {
    Speaker(m) + ": " + m.text
  }

  function Lines(messages: seq<ContextMessage>): (r: seq<string>)
    ensures |r| == |messages| && forall i :: 0 <= i < |r| ==> r[i] == FormatLine(messages[i])
  {
    seq(|messages|, i requires 0 <= i < |messages| => FormatLine(messages[i]))
  }

  /** `contextMessages.map(...).join('\n')`. */
  function FormatContext(messages: seq<ContextMessage>): string {
    Join(Lines(messages), '\n')
  }

  /** A line is its label, `": "`, then the message text verbatim. */
  lemma FormatLineParts(m: ContextMessage)
    ensures var line := FormatLine(m); var n := |Speaker(m)|;
      && line[..n] == (if m.sender == "user" then UserLabel else GuideLabel)
      && line[n..n + 2] == ": " && line[n + 2..] == m.text
  {
  }

  /** No messages give the empty prompt. */
  lemma FormatContextEmpty()
    ensures FormatContext([]) == ""
  {
  }

  /** One more message adds a newline and its line at the end. */
  lemma FormatContextAppend(messages: seq<ContextMessage>, m: ContextMessage)
    requires messages != []
    ensures FormatContext(messages + [m]) == FormatContext(messages) + "\n" + FormatLine(m)
  {
    assert Lines(messages + [m])[..|messages|] == Lines(messages);
  }

  /**
   * One line per message, in input order: when no text holds a newline,
   * splitting the prompt at newlines gives back exactly the messages' lines.
   */
  lemma FormatContextLines(messages: seq<ContextMessage>)
    requires messages != []
    requires forall i :: 0 <= i < |messages| ==> '\n' !in messages[i].text
    ensures Split(FormatContext(messages), '\n') == Lines(messages)
  {
    assert '\n' !in UserLabel && '\n' !in GuideLabel;
    forall i | 0 <= i < |messages|
      ensures '\n' !in Lines(messages)[i]
    {
      assert Lines(messages)[i] == Speaker(messages[i]) + ": " + messages[i].text;
    }
    SplitJoin(Lines(messages), '\n');
  }

  /** The JSON body of a non-ok response: its `error` and `message` members. */
  datatype ErrorBody = ErrorBody(error: Option<string>, message: Option<string>)

  const HttpErrorPrefix: string := "HTTP error! status: "

  /** `errorData.error || errorData.message || \`HTTP error! status: ${response.status}\``. */
  function ErrorMessage(body: ErrorBody, status: nat): (r: string)
    ensures r != ""
    ensures Truthy(body.error) ==> r == body.error.value
    ensures !Truthy(body.error) && Truthy(body.message) ==> r == body.message.value
    ensures !Truthy(body.error) && !Truthy(body.message) ==> HttpErrorPrefix <= r
  {
    if Truthy(body.error) then body.error.value
    else if Truthy(body.message) then body.message.value
    else HttpErrorPrefix + NatToString(status)
  }

  /**
   * When the body names no error, the message is the prefix followed by the
   * status in decimal (no leading zero), which reads back as the status.
   */
  lemma ErrorMessageStatus(body: ErrorBody, status: nat)
    requires !Truthy(body.error) && !Truthy(body.message)
    ensures ErrorMessage(body, status) == HttpErrorPrefix + NatToString(status)
    ensures var r := ErrorMessage(body, status);
      AllDigits(r[|HttpErrorPrefix|..]) && DigitsValue(r[|HttpErrorPrefix|..]) == status
  {
    var r := ErrorMessage(body, status);
    assert r[|HttpErrorPrefix|..] == NatToString(status);
    NatToStringValue(status);
  }

  /** What `fetch` answered: `response.ok`, `response.status` and the parsed JSON body. */
  datatype Response = Response(ok: bool, status: nat, reply: Option<string>, body: ErrorBody)

  /** The outcome of a request function: `data.reply` on success, an `Error` with the chosen message otherwise. */
  function RequestOutcome(response: Response): (r: Outcome<Option<string>, string>)
    ensures r.Rejected? <==> !response.ok
    ensures r.Resolved? ==> r.value == response.reply
    ensures r.Rejected? ==> r.error == ErrorMessage(response.body, response.status)
  {
    if !response.ok then Rejected(ErrorMessage(response.body, response.status)) else Resolved(response.reply)
  }

  /** `SERVER_URL`: the configured URL, else `''` on Vercel, else the local development server. */
  function ServerUrl(configured: Option<string>, onVercel: bool): (r: string)
    ensures r == "" <==> !Truthy(configured) && onVercel
    ensures Truthy(configured) ==> r == configured.value
    ensures !Truthy(configured) && !onVercel ==> r == "http://localhost:3001"
  {
    if Truthy(configured) then configured.value else if onVercel then "" else "http://localhost:3001"
  }

  /** A request function: where it posts and the `message` of its JSON body. */
  datatype ChatRequest = ChatRequest(url: string, message: string)

  /** With a server URL the request goes to that server, otherwise to the application's own route. */
  function ChatUrl(serverUrl: string): (r: string)
    ensures serverUrl == "" ==> r == "/api/chat"
    ensures serverUrl != "" ==> r == serverUrl + "/api/chat"
  {
    if serverUrl != "" then serverUrl + "/api/chat" else "/api/chat"
  }

  /** `sendGeminiMessage`: exactly one request function, posting the message, is added to the queue. */
  method SendMessage(queue: ApiQueue<ChatRequest, Option<string>, string>, serverUrl: string, message: string)
    returns (p: Promise)
    requires queue.Valid()
    modifies queue
    ensures queue.Valid() && p == old(queue.issued)
    ensures queue.State() == Admit(old(queue.State()), ChatRequest(ChatUrl(serverUrl), message))
  {
    p := queue.Add(ChatRequest(ChatUrl(serverUrl), message));
  }

  /** `sendGeminiMessageWithContext`: exactly one request function, posting the formatted context, is added. */
  method SendMessageWithContext(queue: ApiQueue<ChatRequest, Option<string>, string>, serverUrl: string,
                                messages: seq<ContextMessage>)
    returns (p: Promise)
    requires queue.Valid()
    modifies queue
    ensures queue.Valid() && p == old(queue.issued)
    ensures queue.State() == Admit(old(queue.State()), ChatRequest(ChatUrl(serverUrl), FormatContext(messages)))
  {
    p := queue.Add(ChatRequest(ChatUrl(serverUrl), FormatContext(messages)));
  }

  /** The awaited request function finished with `response`: its promise settles with `RequestOutcome(response)`. */
  method DeliverResponse(queue: ApiQueue<ChatRequest, Option<string>, string>, response: Response)
    requires queue.Valid() && queue.inFlight.Some?
    modifies queue
    ensures queue.Valid() && queue.State() == Settle(old(queue.State()), RequestOutcome(response))
  {
    queue.Resume(RequestOutcome(response));
  }
}
