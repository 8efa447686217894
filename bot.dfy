/**
 * `EmailBot` (telegram_bot/bot.py): the map from user id to context, and the
 * context itself as an object whose three fields the command handler updates
 * in place. Each method is proved against the function in module Sessions
 * that specifies its branch.
 */
module Bot {
  import opened Text
  import opened Options
  import opened Html
  import opened Commands
  import opened Mail
  import opened Sessions

  /** One user's context dictionary. */
  class Session {
    var lastEmails: seq<Record>
    var lastRead: Option<Record>
    var pendingDraft: Option<Draft>

    function View(): SessionState
      reads this
    {
      SessionState(lastEmails, lastRead, pendingDraft)
    }

    /** The fresh context of bot.py lines 65-68. */
    constructor ()
      ensures View() == Initial
    {
      lastEmails := [];
      lastRead := None;
      pendingDraft := None;
    }

    /** Reading email number `n` (bot.py lines 220-241). */
    method ReadEmail(n: int, env: Env) returns (text: string, call: Option<ToolCall>)
      modifies this
      ensures Outcome(View(), text, None, call) == ReadStep(old(View()), n, env)
    {
      if !(0 <= n - 1 < |lastEmails|) {
        return OutOfRangeText(|lastEmails|), None;
      }
      var target := lastEmails[n - 1];
      if "id" !in target {
        return Apology, None;
      }
      var id := target["id"];
      call := Some(ReadCall(id));
      var reply := env.tool(call.value);
      if reply.Raised? {
        return Apology, call;
      }
      var result := reply.result;
      if result.DictResult? && "error" !in result.fields {
        lastRead := Some(result.fields);
        lastRead := Some(lastRead.value["id" := id]);
        lastRead := Some(lastRead.value["account" := AccountFor(id)]);
        // The stored dictionary is the result object itself, so the text is
        // formatted from the result with id and account written in.
        result := DictResult(lastRead.value);
      }
      text := FormatEmailContent(result, env.unescape).GetOr(Apology);
    }

    /** Drafting a reply to the email last read (bot.py lines 252-296). */
    method DraftReply(lower: string, env: Env) returns (text: string)
      requires lastRead.Some?
      modifies this
      ensures Outcome(View(), text, None, None) == DraftStep(old(View()), lower, env)
    {
      var last := lastRead.value;
      var from := Get(last, "from", "");
      var subject := Get(last, "subject", "");
      var body := Get(last, "body", "");
      var hint := ReplyHint(lower).GetOr("");
      var recipient := Recipient(from);
      var replySubject := ReplySubject(subject);
      var generated := env.generate(from, subject, StripHtml(env.unescape, body), hint);
      if generated.None? {
        return Apology;
      }
      var d := Draft(recipient, replySubject, Strip(generated.value), Get(last, "account", "gmail"));
      pendingDraft := Some(d);
      text := DraftPreview(d);
    }

    /** Sending the pending draft (bot.py lines 299-316). */
    method SendDraft(env: Env) returns (text: string, call: Option<ToolCall>)
      requires pendingDraft.Some?
      modifies this
      ensures Outcome(View(), text, None, call) == SendStep(old(View()), env)
    {
      var d := pendingDraft.value;
      var sendTool := SendToolFor(d.account);
      call := Some(ToolCall(sendTool, map["to" := d.to, "subject" := d.subject, "body" := d.body]));
      var reply := env.tool(call.value);
      if reply.Raised? {
        return Apology, call;
      }
      pendingDraft := None;
      if reply.result.DictResult? && "error" in reply.result.fields {
        return "Failed to send: " + reply.result.fields["error"], call;
      }
      text := "\U{2705} Reply sent to " + d.to + "!";
    }

    /** Cancelling the pending draft (bot.py lines 319-321). */
    method CancelDraft() returns (text: string)
      modifies this
      ensures Outcome(View(), text, None, None) == CancelStep(old(View()))
    {
      pendingDraft := None;
      text := CancelledText;
    }

    /** Acting on what a tool chosen by the chat model returned (bot.py lines 404-432). */
    method HandleToolResult(call: ToolCall, result: ToolResult, shown: string) returns (text: string, emails: Option<seq<Record>>)
      modifies this
      ensures Outcome(View(), text, emails, Some(call)) == ToolResultStep(old(View()), call, result, shown)
    {
      emails := None;
      if result.ListResult? && result.items != [] {
        lastEmails := result.items;
        text := FormatEmailList(result.items);
        emails := Some(result.items);
        return;
      }
      if result.DictResult? {
        var f := result.fields;
        if "error" in f {
          return "Error: " + f["error"], None;
        }
        if "status" in f && f["status"] == "sent" {
          return SentText, None;
        }
        if "status" in f && f["status"] == "draft_created" {
          if !("to" in f && "subject" in f && "body" in f) {
            return Apology, None;
          }
          var d := Draft(f["to"], f["subject"], f["body"], "gmail");
          pendingDraft := Some(d);
          return DraftPreview(d), None;
        }
      }
      text := shown;
    }

    /** Handing the command to the chat model (bot.py lines 326-438). */
    method Defer(env: Env) returns (text: string, emails: Option<seq<Record>>, call: Option<ToolCall>)
      modifies this
      ensures Outcome(View(), text, emails, call) == DeferStep(old(View()), env)
    {
      emails, call := None, None;
      if env.llm.LlmRaised? {
        return Apology, None, None;
      }
      var raw := env.llm.raw;
      var decision := env.parse(raw);
      if decision.None? {
        return raw, None, None;
      }
      if decision.value.NotAnObject? {
        return Apology, None, None;
      }
      if decision.value.action != Some("call_tool") {
        return decision.value.message.GetOr(raw), None, None;
      }
      if decision.value.tool.None? {
        return Apology, None, None;
      }
      var c := ToolCall(decision.value.tool.value, decision.value.params);
      call := Some(c);
      var reply := env.tool(c);
      if reply.Raised? {
        return Apology, None, call;
      }
      text, emails := HandleToolResult(c, reply.result, reply.shown);
    }

    /** `process_email_command` on this context: the local branches in order, then the chat model. */
    method ProcessCommand(command: string, env: Env) returns (text: string, emails: Option<seq<Record>>, call: Option<ToolCall>)
      modifies this
      ensures Outcome(View(), text, emails, call) == Step(old(View()), command, env)
    {
      var lower := Lower(command);
      var n := EmailNumber(lower);
      emails, call := None, None;
      if n.Some? && n.value != 0 && lastEmails != [] {
        text, call := ReadEmail(n.value, env);
        return;
      }
      var isDraft := IsDraftRequest(lower);
      var isSendReply := IsSendRequest(lower);
      if isDraft && lastRead.Some? && lastRead.value != map[] {
        text := DraftReply(lower, env);
        return;
      }
      if isSendReply && pendingDraft.Some? {
        text, call := SendDraft(env);
        return;
      }
      if IsCancelRequest(lower) && pendingDraft.Some? {
        text := CancelDraft();
        return;
      }
      text, emails, call := Defer(env);
    }
  }

  /** The bot's per-user memory, `self.user_context`. */
  class EmailBot {
    var userContext: map<int, Session>

    /** Each user has a context object of their own. */
    ghost predicate Valid()
      reads this
    {
      forall u, v :: u in userContext && v in userContext && u != v ==> userContext[u] != userContext[v]
    }

    constructor ()
      ensures userContext == map[] && Valid()
    {
      userContext := map[];
    }

    /**
     * `_get_user_context` (bot.py lines 62-69): the user's context, created
     * empty only when the user has none; any other user's is untouched.
     */
    method GetUserContext(uid: int) returns (s: Session)
      requires Valid()
      modifies this
      ensures Valid()
      ensures uid in userContext && s == userContext[uid]
      ensures uid in old(userContext) ==> userContext == old(userContext)
      ensures uid !in old(userContext) ==> fresh(s) && s.View() == Initial && userContext == old(userContext)[uid := s]
    {
      if uid !in userContext {
        var created := new Session();
        userContext := userContext[uid := created];
      }
      s := userContext[uid];
    }

    /**
     * `process_email_command` for user `uid`: one step of that user's context,
     * starting from the empty context for a new user; every other user's
     * context keeps its object and its contents.
     */
    method ProcessEmailCommand(uid: int, command: string, env: Env)
      returns (text: string, emails: Option<seq<Record>>, call: Option<ToolCall>)
      requires Valid()
      modifies this, userContext.Values
      ensures Valid()
      ensures userContext.Keys == old(userContext.Keys) + {uid}
      ensures forall u :: u in old(userContext) ==> userContext[u] == old(userContext[u])
      ensures forall u :: u in old(userContext) && u != uid ==> userContext[u].View() == old(userContext[u].View())
      ensures uid in old(userContext) ==>
        Outcome(userContext[uid].View(), text, emails, call) == Step(old(userContext[uid].View()), command, env)
      ensures uid !in old(userContext) ==>
        Outcome(userContext[uid].View(), text, emails, call) == Step(Initial, command, env)
    {
      var s := GetUserContext(uid);
      text, emails, call := s.ProcessCommand(command, env);
    }
  }
}
