/**
 * What one command of `process_email_command` does to a user's context and
 * which tool it calls, for every context, command and answer of the outside
 * world.
 */
module SessionFacts {
  import opened Text
  import opened Options
  import opened Commands
  import opened CommandFacts
  import opened Mail
  import opened Sessions

  /** A command the read branch does not take (bot.py line 220). */
  predicate SkipsRead(s: SessionState, command: string) {
    !ReadApplies(s, EmailNumber(Lower(command)))
  }

  /** A command without "read", or a context without a list, skips the read branch. */
  lemma NoReadWithoutReadOrList(s: SessionState, command: string)
    requires !Contains(Lower(command), "read") || s.lastEmails == []
    ensures SkipsRead(s, command)
  {
  }

  /** Number `n` beyond the list: the count is given, no tool is called and nothing changes. */
  lemma ReadOutOfRange(s: SessionState, command: string, env: Env)
    requires EmailNumber(Lower(command)).Some?
    requires EmailNumber(Lower(command)).value > |s.lastEmails| > 0
    ensures Step(s, command, env) == Outcome(s, OutOfRangeText(|s.lastEmails|), None, None)
  {
  }

  /**
   * Number `n` within the list reads the email at index n - 1 with the tool of
   * its account; only a dictionary without "error" becomes the read email,
   * tagged with its id and account, and nothing else in the context changes.
   */
  lemma ReadInRange(s: SessionState, command: string, env: Env, n: nat)
    requires EmailNumber(Lower(command)) == Some(n)
    requires 1 <= n <= |s.lastEmails| && "id" in s.lastEmails[n - 1]
    ensures var id := s.lastEmails[n - 1]["id"];
      var o := Step(s, command, env);
      && o.call == Some(ToolCall(ReadToolFor(id), map["email_id" := id]))
      && (o.call.value.name == "read_icloud_email" <==> IsDigitString(id))
      && o.emails == None
      && (StoresRead(env.tool(o.call.value)) ==>
            o.state == s.(lastRead := Some(StoredRead(env.tool(o.call.value).result.fields, id)))
            && o.state.lastRead.value["account"] == AccountFor(id))
      && (!StoresRead(env.tool(o.call.value)) ==> o.state == s)
  {
  }

  /** An entry without an id: the apology, no tool call, nothing changes. */
  lemma ReadWithoutId(s: SessionState, command: string, env: Env, n: nat)
    requires EmailNumber(Lower(command)) == Some(n)
    requires 1 <= n <= |s.lastEmails| && "id" !in s.lastEmails[n - 1]
    ensures Step(s, command, env) == Outcome(s, Apology, None, None)
  {
  }

  /**
   * The read email is shown as its content, opening with its From and Subject
   * lines, never as the "could not read" text.
   */
  lemma ReadShowsStoredEmail(s: SessionState, n: int, env: Env)
    requires 1 <= n <= |s.lastEmails| && "id" in s.lastEmails[n - 1]
    requires StoresRead(env.tool(ReadCall(s.lastEmails[n - 1]["id"])))
    ensures var id := s.lastEmails[n - 1]["id"];
      StartsWith(ReadStep(s, n, env).text, ContentHeader(StoredRead(env.tool(ReadCall(id)).result.fields, id)))
  {
    var id := s.lastEmails[n - 1]["id"];
    var stored := StoredRead(env.tool(ReadCall(id)).result.fields, id);
    assert "id" in stored;
    assert DictResult(stored).Truthy();
    var content := FormatEmailContent(DictResult(stored), env.unescape);
    assert content.Some? && StartsWith(content.value, ContentHeader(stored));
  }

  /** A read that returns an error dictionary reports it and stores nothing. */
  lemma ReadErrorReported(s: SessionState, n: int, env: Env)
    requires 1 <= n <= |s.lastEmails| && "id" in s.lastEmails[n - 1]
    requires var reply := env.tool(ReadCall(s.lastEmails[n - 1]["id"]));
      reply.Returned? && reply.result.DictResult? && "error" in reply.result.fields
    ensures var call := ReadCall(s.lastEmails[n - 1]["id"]);
      ReadStep(s, n, env) == Outcome(s, "Error reading email: " + env.tool(call).result.fields["error"], None, Some(call))
  {
  }

  /**
   * A draft wholly replaces the previous one: its recipient, subject and body
   * come from the email last read and the generated text, its account from
   * the email (by default "gmail"), and the previous draft plays no part.
   */
  lemma DraftReplacesDraft(s: SessionState, lower: string, env: Env, previous: Option<Draft>)
    requires s.lastRead.Some?
    requires GenerateFor(s.lastRead.value, lower, env).Some?
    ensures var o := DraftStep(s.(pendingDraft := previous), lower, env);
      var last := s.lastRead.value;
      var d := o.state.pendingDraft.value;
      && o == DraftStep(s, lower, env).(state := s.(pendingDraft := o.state.pendingDraft))
      && o.state.pendingDraft.Some?
      && d.to == Recipient(Get(last, "from", ""))
      && d.subject == ReplySubject(Get(last, "subject", ""))
      && d.body == Strip(GenerateFor(last, lower, env).value)
      && d.account == Get(last, "account", "gmail")
      && o.call.None?
  {
  }

  /** A draft's subject is a reply subject: "re:" in some case, then the original subject. */
  lemma DraftSubjectIsReply(s: SessionState, lower: string, env: Env)
    requires s.lastRead.Some?
    requires GenerateFor(s.lastRead.value, lower, env).Some?
    ensures var d := DraftStep(s, lower, env).state.pendingDraft.value;
      && StartsWith(Lower(d.subject), "re:")
      && EndsWith(d.subject, Get(s.lastRead.value, "subject", ""))
      && ReplySubject(d.subject) == d.subject
  {
    ReplySubjectIdempotent(Get(s.lastRead.value, "subject", ""));
  }

  /** When the reply body cannot be generated, nothing changes. */
  lemma DraftFailureKeepsContext(s: SessionState, lower: string, env: Env)
    requires s.lastRead.Some?
    requires GenerateFor(s.lastRead.value, lower, env).None?
    ensures DraftStep(s, lower, env) == Outcome(s, Apology, None, None)
  {
  }

  /**
   * Sending calls the iCloud send tool exactly for an iCloud draft, with the
   * draft's recipient, subject and body, and clears the draft whether or not
   * the tool reported an error; only a tool that raises leaves it in place.
   */
  lemma SendClearsDraft(s: SessionState, env: Env)
    requires s.pendingDraft.Some?
    ensures var d := s.pendingDraft.value;
      var o := SendStep(s, env);
      && o.call == Some(SendCall(d))
      && (o.call.value.name == "send_icloud_email" <==> d.account == "icloud")
      && o.call.value.args["to"] == d.to
      && (env.tool(SendCall(d)).Raised? ==> o.state == s && o.text == Apology)
      && (env.tool(SendCall(d)).Returned? ==> o.state == s.(pendingDraft := None))
  {
  }

  /** A send that returns an error dictionary still loses the draft. */
  lemma FailedSendLosesDraft(s: SessionState, env: Env, err: string)
    requires s.pendingDraft.Some?
    requires env.tool(SendCall(s.pendingDraft.value)).Returned?
    requires env.tool(SendCall(s.pendingDraft.value)).result == DictResult(map["error" := err])
    ensures SendStep(s, env).state.pendingDraft.None?
    ensures SendStep(s, env).text == "Failed to send: " + err
  {
  }

  predicate IsSendTool(name: string) {
    name == "send_icloud_email" || name == "send_gmail_email"
  }

  /**
   * Without a pending draft the bot never calls a send tool on its own: any
   * send call then is one the chat model chose, with the parameters it gave.
   */
  lemma SendWithoutDraftComesFromModel(s: SessionState, command: string, env: Env)
    requires s.pendingDraft.None?
    requires Step(s, command, env).call.Some?
    requires IsSendTool(Step(s, command, env).call.value.name)
    ensures ModelNamed(env, Step(s, command, env).call.value)
  {
    var lower := Lower(command);
    var n := EmailNumber(lower);
    if ReadApplies(s, n) {
      ReadCallsReadTool(s, n.value, env);
    } else {
      assert Step(s, command, env) == AfterRead(s, lower, env);
      if !(IsDraftRequest(lower) && Truthy(s.lastRead)) {
        assert AfterRead(s, lower, env) == DeferStep(s, env);
        DeferCallComesFromModel(s, env);
      }
    }
  }

  /** Any call the chat-model branch makes is the one the model named, with its parameters. */
  lemma DeferCallComesFromModel(s: SessionState, env: Env)
    requires DeferStep(s, env).call.Some?
    ensures ModelNamed(env, DeferStep(s, env).call.value)
  {
  }

  /** The chat model answered with a JSON object asking for exactly this call. */
  predicate ModelNamed(env: Env, c: ToolCall) {
    && env.llm.LlmText?
    && env.parse(env.llm.raw).Some?
    && env.parse(env.llm.raw).value.Object?
    && env.parse(env.llm.raw).value == Object(Some("call_tool"), Some(c.name), c.args, env.parse(env.llm.raw).value.message)
  }

  lemma ReadCallsReadTool(s: SessionState, n: int, env: Env)
    ensures var o := ReadStep(s, n, env);
      o.call.Some? ==> o.call.value.name == "read_icloud_email" || o.call.value.name == "read_gmail_email"
  {
  }

  /**
   * "send reply" says "reply", so while an email is read it drafts a new reply
   * instead of sending the pending one (bot.py lines 249-252 before 299).
   */
  lemma SendReplyRedrafts(s: SessionState, command: string, env: Env)
    requires Contains(Lower(command), "send reply")
    requires SkipsRead(s, command)
    requires Truthy(s.lastRead)
    ensures Step(s, command, env) == DraftStep(s, Lower(command), env)
    ensures Step(s, command, env).call.None?
  {
    SendReplyIsDraftRequest(Lower(command));
  }

  /**
   * With a draft, "cancel" clears it and nothing else, unless an earlier branch
   * applies: a draft request while an email is read, or a send request.
   */
  lemma CancelClearsDraft(s: SessionState, command: string, env: Env)
    requires IsCancelRequest(Lower(command)) && s.pendingDraft.Some?
    requires SkipsRead(s, command)
    requires !(IsDraftRequest(Lower(command)) && Truthy(s.lastRead))
    requires !IsSendRequest(Lower(command))
    ensures Step(s, command, env) == Outcome(s.(pendingDraft := None), CancelledText, None, None)
  {
  }

  /**
   * "cancel the draft" says "draft", so while an email is read it drafts a new
   * reply instead of cancelling (bot.py lines 249-252 before 319).
   */
  lemma CancelDraftRedrafts(s: SessionState, command: string, env: Env)
    requires Contains(Lower(command), "cancel the draft") || Contains(Lower(command), "cancel the reply")
    requires SkipsRead(s, command)
    requires Truthy(s.lastRead)
    ensures Step(s, command, env) == DraftStep(s, Lower(command), env)
    ensures Step(s, command, env).call.None?
  {
    CancelDraftIsDraftRequest(Lower(command));
  }

  /** Without a draft, send and cancel fall through to the chat model. */
  lemma NoDraftFallsThrough(s: SessionState, command: string, env: Env)
    requires s.pendingDraft.None?
    requires SkipsRead(s, command)
    requires !(IsDraftRequest(Lower(command)) && Truthy(s.lastRead))
    ensures Step(s, command, env) == DeferStep(s, env)
  {
  }

  /** The chat model's answer is returned as it is when it is not JSON; nothing changes. */
  lemma InvalidJsonVerbatim(s: SessionState, env: Env)
    requires env.llm.LlmText? && env.parse(env.llm.raw).None?
    ensures DeferStep(s, env) == Outcome(s, env.llm.raw, None, None)
  {
  }

  /** A non-empty list from a tool replaces the last list and nothing else. */
  lemma ListReplacesOnlyList(s: SessionState, call: ToolCall, items: seq<Record>, shown: string)
    requires items != []
    ensures var o := ToolResultStep(s, call, ListResult(items), shown);
      && o.state == s.(lastEmails := items)
      && o.state.lastRead == s.lastRead && o.state.pendingDraft == s.pendingDraft
      && o.text == ListText(items) && o.emails == Some(items)
  {
  }

  /** An error dictionary is reported as "Error: ..." and changes nothing. */
  lemma ErrorDictReported(s: SessionState, call: ToolCall, f: Record, shown: string)
    requires "error" in f
    ensures ToolResultStep(s, call, DictResult(f), shown) == Outcome(s, "Error: " + f["error"], None, Some(call))
  {
  }

  /** A created draft becomes the pending draft, on the Gmail account. */
  lemma CreatedDraftIsGmail(s: SessionState, call: ToolCall, f: Record, shown: string)
    requires "error" !in f && "status" in f && f["status"] == "draft_created"
    requires "to" in f && "subject" in f && "body" in f
    ensures var o := ToolResultStep(s, call, DictResult(f), shown);
      && o.state == s.(pendingDraft := Some(Draft(f["to"], f["subject"], f["body"], "gmail")))
      && o.text == DraftPreview(o.state.pendingDraft.value)
  {
  }

  /** An email list is returned only when it became the last list, and is never empty. */
  lemma EmailsReturnedAreStored(s: SessionState, command: string, env: Env)
    ensures var o := Step(s, command, env);
      o.emails.Some? ==> o.emails.value != [] && o.state.lastEmails == o.emails.value
  {
    var lower := Lower(command);
    var n := EmailNumber(lower);
    if ReadApplies(s, n) {
      assert Step(s, command, env) == ReadStep(s, n.value, env);
      ReadReturnsNoEmails(s, n.value, env);
    } else {
      assert Step(s, command, env) == AfterRead(s, lower, env);
      AfterReadEmailsStored(s, lower, env);
    }
  }

  lemma AfterReadEmailsStored(s: SessionState, lower: string, env: Env)
    ensures var o := AfterRead(s, lower, env);
      o.emails.Some? ==> o.emails.value != [] && o.state.lastEmails == o.emails.value
  {
    if IsDraftRequest(lower) && Truthy(s.lastRead) {
    } else if IsSendRequest(lower) && s.pendingDraft.Some? {
    } else if IsCancelRequest(lower) && s.pendingDraft.Some? {
    } else {
      DeferEmailsStored(s, env);
    }
  }

  lemma ReadReturnsNoEmails(s: SessionState, n: int, env: Env)
    ensures ReadStep(s, n, env).emails.None?
  {
  }

  lemma DeferEmailsStored(s: SessionState, env: Env)
    ensures var o := DeferStep(s, env);
      o.emails.Some? ==> o.emails.value != [] && o.state.lastEmails == o.emails.value
  {
    if env.llm.LlmText? {
      var d := env.parse(env.llm.raw);
      if d.Some? && d.value.Object? && d.value.action == Some("call_tool") && d.value.tool.Some? {
        var call := ToolCall(d.value.tool.value, d.value.params);
        if env.tool(call).Returned? {
          ToolResultEmailsStored(s, call, env.tool(call).result, env.tool(call).shown);
        }
      }
    }
  }

  lemma ToolResultEmailsStored(s: SessionState, call: ToolCall, result: ToolResult, shown: string)
    ensures var o := ToolResultStep(s, call, result, shown);
      o.emails.Some? ==> o.emails.value != [] && o.state.lastEmails == o.emails.value
  {
  }

  /** Which of the three fields a command leaves alone: all but at most one. */
  predicate ChangesAtMostOne(s: SessionState, t: SessionState) {
    (t.lastEmails == s.lastEmails && t.lastRead == s.lastRead)
    || (t.lastEmails == s.lastEmails && t.pendingDraft == s.pendingDraft)
    || (t.lastRead == s.lastRead && t.pendingDraft == s.pendingDraft)
  }

  lemma ToolResultChangesAtMostOne(s: SessionState, call: ToolCall, result: ToolResult, shown: string)
    ensures ChangesAtMostOne(s, ToolResultStep(s, call, result, shown).state)
  {
  }

  lemma DeferChangesAtMostOne(s: SessionState, env: Env)
    ensures ChangesAtMostOne(s, DeferStep(s, env).state)
  {
    if env.llm.LlmText? {
      var d := env.parse(env.llm.raw);
      if d.Some? && d.value.Object? && d.value.action == Some("call_tool") && d.value.tool.Some? {
        var call := ToolCall(d.value.tool.value, d.value.params);
        if env.tool(call).Returned? {
          ToolResultChangesAtMostOne(s, call, env.tool(call).result, env.tool(call).shown);
        }
      }
    }
  }

  /** Every command replaces at most one of the three fields of the context. */
  lemma StepChangesAtMostOne(s: SessionState, command: string, env: Env)
    ensures ChangesAtMostOne(s, Step(s, command, env).state)
  {
    var lower := Lower(command);
    if !ReadApplies(s, EmailNumber(lower)) {
      DeferChangesAtMostOne(s, env);
    }
  }

  lemma InitialWf()
    ensures Wf(Initial)
  {
  }

  lemma ReadKeepsWf(s: SessionState, n: int, env: Env)
    requires Wf(s)
    ensures Wf(ReadStep(s, n, env).state)
  {
  }

  lemma DraftKeepsWf(s: SessionState, lower: string, env: Env)
    requires Wf(s) && s.lastRead.Some?
    ensures Wf(DraftStep(s, lower, env).state)
  {
  }

  lemma DeferKeepsWf(s: SessionState, env: Env)
    requires Wf(s)
    ensures Wf(DeferStep(s, env).state)
  {
    if env.llm.LlmText? {
      var d := env.parse(env.llm.raw);
      if d.Some? && d.value.Object? && d.value.action == Some("call_tool") && d.value.tool.Some? {
        var call := ToolCall(d.value.tool.value, d.value.params);
        if env.tool(call).Returned? {
          var o := ToolResultStep(s, call, env.tool(call).result, env.tool(call).shown);
          assert Wf(o.state);
        }
      }
    }
  }

  /**
   * Every command keeps the context well formed: a read email keeps its id
   * and matching account, and a draft is for Gmail or iCloud.
   */
  lemma StepKeepsWf(s: SessionState, command: string, env: Env)
    requires Wf(s)
    ensures Wf(Step(s, command, env).state)
  {
    var lower := Lower(command);
    var n := EmailNumber(lower);
    if ReadApplies(s, n) {
      ReadKeepsWf(s, n.value, env);
    } else if IsDraftRequest(lower) && Truthy(s.lastRead) {
      DraftKeepsWf(s, lower, env);
    } else if !(IsSendRequest(lower) && s.pendingDraft.Some?) && !(IsCancelRequest(lower) && s.pendingDraft.Some?) {
      DeferKeepsWf(s, env);
    }
  }
}
