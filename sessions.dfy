/**
 * One command of `EmailBot.process_email_command` (telegram_bot/bot.py
 * lines 196-444) as a function of the user's session and the answers of the
 * outside world: the MCP tools, the chat model that picks an action, the
 * chat model that writes reply bodies, and `html.unescape`.
 */
module Sessions {
  import opened Text
  import opened Options
  import opened Html
  import opened Commands
  import opened Mail

  /**
   * The per-user context: the last email list, the email last read and the
   * reply awaiting confirmation. A `pending_draft` that was never set and one
   * set to `None` are both `None` here; the code reads it only by `.get`.
   */
  datatype SessionState = SessionState(lastEmails: seq<Record>, lastRead: Option<Record>, pendingDraft: Option<Draft>)

  /** The context `_get_user_context` creates (bot.py lines 65-68). */
  const Initial := SessionState([], None, None)

  /** The decision the chat model's answer parses to, if it is JSON. */
  datatype Decision =
    | NotAnObject
    | Object(action: Option<string>, tool: Option<string>, params: map<string, string>, message: Option<string>)

  /** The chat completion of bot.py lines 381-391: it raised, or it gave this text. */
  datatype LlmAnswer = LlmRaised | LlmText(raw: string)

  /**
   * The outside world for one command: what each tool call returns, what the
   * chat model answers, how `json.loads` parses that answer (`None` for
   * invalid JSON), the reply body `_generate_reply_body` produces (`None` when
   * it raises) from sender, subject, body and hint, and `html.unescape`.
   */
  datatype Env = Env(
    tool: ToolCall -> ToolReply,
    llm: LlmAnswer,
    parse: string -> Option<Decision>,
    generate: (string, string, string, string) -> Option<string>,
    unescape: string -> string)

  /**
   * The result of one command: the new context, the text returned, the email
   * list returned beside it, and the tool call made, if any.
   */
  datatype Outcome = Outcome(state: SessionState, text: string, emails: Option<seq<Record>>, call: Option<ToolCall>)

  /** Python's truth value of an optional dictionary. */
  predicate Truthy(r: Option<Record>) {
    r.Some? && r.value != map[]
  }

  /** A tool reply after which the read email is stored (bot.py line 232). */
  predicate StoresRead(reply: ToolReply) {
    reply.Returned? && reply.result.DictResult? && "error" !in reply.result.fields
  }

  /** The stored email: the result with its id and account written in (bot.py lines 233-235). */
  function StoredRead(fields: Record, id: string): (r: Record)
    ensures "id" in r && r["id"] == id
    ensures "account" in r && r["account"] == AccountFor(id)
    ensures forall k :: k in fields && k != "id" && k != "account" ==> k in r && r[k] == fields[k]
  {
    fields["id" := id]["account" := AccountFor(id)]
  }

  function ReadCall(id: string): ToolCall {
    ToolCall(ReadToolFor(id), map["email_id" := id])
  }

  function OutOfRangeText(count: nat): string {
    "Sorry, you only have " + Dec(count) + " emails in the list."
  }

  /** Reading email number `n` of the last list (bot.py lines 220-241). */
  function ReadStep(s: SessionState, n: int, env: Env): (r: Outcome)
    ensures r.state.lastEmails == s.lastEmails && r.state.pendingDraft == s.pendingDraft
    ensures r.state.lastRead != s.lastRead ==> r.call.Some? && StoresRead(env.tool(r.call.value))
  {
    if !(0 <= n - 1 < |s.lastEmails|) then Outcome(s, OutOfRangeText(|s.lastEmails|), None, None)
    else
      var target := s.lastEmails[n - 1];
      if "id" !in target then Outcome(s, Apology, None, None)
      else
        var id := target["id"];
        var call := ReadCall(id);
        match env.tool(call)
        case Raised => Outcome(s, Apology, None, Some(call))
        case Returned(result, _) =>
          if result.DictResult? && "error" !in result.fields then
            var stored := StoredRead(result.fields, id);
            Outcome(s.(lastRead := Some(stored)), FormatEmailContent(DictResult(stored), env.unescape).GetOr(Apology), None, Some(call))
          else
            Outcome(s, FormatEmailContent(result, env.unescape).GetOr(Apology), None, Some(call))
  }

  /** The draft made from the email last read and a generated body (bot.py lines 253-287). */
  function ReplyDraft(last: Record, generated: string): Draft {
    Draft(Recipient(Get(last, "from", "")), ReplySubject(Get(last, "subject", "")), Strip(generated), Get(last, "account", "gmail"))
  }

  /** What `_generate_reply_body` is asked for a reply to `last`. */
  function GenerateFor(last: Record, lower: string, env: Env): Option<string> {
    env.generate(Get(last, "from", ""), Get(last, "subject", ""),
      StripHtml(env.unescape, Get(last, "body", "")), ReplyHint(lower).GetOr(""))
  }

  /** Drafting a reply to the email last read (bot.py lines 252-296). */
  function DraftStep(s: SessionState, lower: string, env: Env): (r: Outcome)
    requires s.lastRead.Some?
    ensures r.state.lastEmails == s.lastEmails && r.state.lastRead == s.lastRead
    ensures r.call.None? && r.emails.None?
  {
    var last := s.lastRead.value;
    match GenerateFor(last, lower, env)
    case None => Outcome(s, Apology, None, None)
    case Some(generated) =>
      var d := ReplyDraft(last, generated);
      Outcome(s.(pendingDraft := Some(d)), DraftPreview(d), None, None)
  }

  function SendCall(d: Draft): ToolCall {
    ToolCall(SendToolFor(d.account), map["to" := d.to, "subject" := d.subject, "body" := d.body])
  }

  /** Sending the pending draft (bot.py lines 299-316). */
  function SendStep(s: SessionState, env: Env): (r: Outcome)
    requires s.pendingDraft.Some?
    ensures r.call == Some(SendCall(s.pendingDraft.value))
    ensures r.state.lastEmails == s.lastEmails && r.state.lastRead == s.lastRead
    ensures r.state.pendingDraft.None? || r.state == s
  {
    var d := s.pendingDraft.value;
    var call := SendCall(d);
    match env.tool(call)
    case Raised => Outcome(s, Apology, None, Some(call))
    case Returned(result, _) =>
      var text :=
        if result.DictResult? && "error" in result.fields then "Failed to send: " + result.fields["error"]
        else "\U{2705} Reply sent to " + d.to + "!";
      Outcome(s.(pendingDraft := None), text, None, Some(call))
  }

  const CancelledText := "\U{274C} Draft cancelled."
  const SentText := "\U{2705} Email sent successfully!"

  /** Cancelling the pending draft (bot.py lines 319-321). */
  function CancelStep(s: SessionState): (r: Outcome)
    ensures r.state.pendingDraft.None?
    ensures r.state.lastEmails == s.lastEmails && r.state.lastRead == s.lastRead
    ensures r.call.None? && r.emails.None?
  {
    Outcome(s.(pendingDraft := None), CancelledText, None, None)
  }

  /** What a tool the chat model chose returned (bot.py lines 404-432). */
  function ToolResultStep(s: SessionState, call: ToolCall, result: ToolResult, shown: string): (r: Outcome)
    ensures r.call == Some(call) && r.state.lastRead == s.lastRead
    ensures r.state.pendingDraft != s.pendingDraft ==>
      r.state.pendingDraft.Some? && r.state.pendingDraft.value.account == "gmail"
  {
    match result
    case ListResult(items) =>
      if items != [] then Outcome(s.(lastEmails := items), ListText(items), Some(items), Some(call))
      else Outcome(s, shown, None, Some(call))
    case DictResult(f) =>
      if "error" in f then Outcome(s, "Error: " + f["error"], None, Some(call))
      else if "status" in f && f["status"] == "sent" then Outcome(s, SentText, None, Some(call))
      else if "status" in f && f["status"] == "draft_created" then
        if "to" in f && "subject" in f && "body" in f then
          var d := Draft(f["to"], f["subject"], f["body"], "gmail");
          Outcome(s.(pendingDraft := Some(d)), DraftPreview(d), None, Some(call))
        else Outcome(s, Apology, None, Some(call))
      else Outcome(s, shown, None, Some(call))
    case ScalarResult(_) => Outcome(s, shown, None, Some(call))
  }

  /** Everything the bot does not handle itself goes to the chat model (bot.py lines 326-438). */
  function DeferStep(s: SessionState, env: Env): (r: Outcome)
    ensures r.state.lastRead == s.lastRead
    ensures r.call.Some? ==> env.llm.LlmText?
  {
    match env.llm
    case LlmRaised => Outcome(s, Apology, None, None)
    case LlmText(raw) =>
      match env.parse(raw)
      case None => Outcome(s, raw, None, None)
      case Some(NotAnObject) => Outcome(s, Apology, None, None)
      case Some(Object(action, tool, params, message)) =>
        if action != Some("call_tool") then Outcome(s, message.GetOr(raw), None, None)
        else match tool
          case None => Outcome(s, Apology, None, None)
          case Some(name) =>
            var call := ToolCall(name, params);
            match env.tool(call)
            case Raised => Outcome(s, Apology, None, Some(call))
            case Returned(result, shown) => ToolResultStep(s, call, result, shown)
  }

  /** The read branch is taken (bot.py line 220). */
  predicate ReadApplies(s: SessionState, n: Option<nat>) {
    n.Some? && n.value != 0 && s.lastEmails != []
  }

  /** The draft, send and cancel tests, in order, then the chat model (bot.py lines 246-438). */
  function AfterRead(s: SessionState, lower: string, env: Env): (r: Outcome)
    ensures r.state.lastRead == s.lastRead
  {
    if IsDraftRequest(lower) && Truthy(s.lastRead) then DraftStep(s, lower, env)
    else if IsSendRequest(lower) && s.pendingDraft.Some? then SendStep(s, env)
    else if IsCancelRequest(lower) && s.pendingDraft.Some? then CancelStep(s)
    else DeferStep(s, env)
  }

  /**
   * `process_email_command` on one user's context. Only a command the read
   * branch takes changes the email last read.
   */
  function Step(s: SessionState, command: string, env: Env): (r: Outcome)
    ensures r.state.lastRead != s.lastRead ==> ReadApplies(s, EmailNumber(Lower(command)))
  {
    var lower := Lower(command);
    var n := EmailNumber(lower);
    if ReadApplies(s, n) then ReadStep(s, n.value, env) else AfterRead(s, lower, env)
  }

  /**
   * What every context the bot builds satisfies: a read email carries its id
   * and the account that id belongs to, and a draft's account is one of the two.
   */
  predicate Wf(s: SessionState) {
    (s.lastRead.Some? ==>
      "id" in s.lastRead.value && "account" in s.lastRead.value
      && s.lastRead.value["account"] == AccountFor(s.lastRead.value["id"]))
    && (s.pendingDraft.Some? ==> s.pendingDraft.value.account == "gmail" || s.pendingDraft.value.account == "icloud")
  }
}
