# EmailBot conversation state, in Dafny

This project models the per-user conversation state machine of the Telegram
email bot, `EmailBot` in `telegram_bot/bot.py`, and proves properties of it.

Each user has a context with three fields:
- `last_emails`: the last list of email summaries fetched;
- `last_read_email`: the email last opened, tagged with its id and account;
- `pending_draft`: a reply waiting for confirmation.

`process_email_command` takes one transcribed command. It tries the local
branches in this order: read by number (digits or a number word), draft a
reply to the email last read, send the pending draft, cancel it. Everything
else goes to a chat model. The model's JSON decision may name an MCP tool, and
that tool's result may update the context.

The model is layered like the source:

| module | file | what it holds |
|---|---|---|
| `Text` | text.dfy | character classes, `lower()`, `strip()`, substring tests, decimal numbers |
| `Html` | html.dfy | `_strip_html` |
| `NumberWords` | number_words.dfy | `_word_to_number` |
| `Commands` | commands.dfy | the regular-expression and substring tests of `process_email_command`; recipient and subject of a reply |
| `CommandFacts` | command_facts.dfy | how typical commands resolve |
| `Mail` | mail.dfy | records, tool results, `_format_email_list` (a loop method), `_format_email_content`, the draft preview |
| `Sessions` | sessions.dfy | one command as a function `Step` of the context and the outside world |
| `SessionFacts` | session_facts.dfy | what a command does to a context and which tool it calls |
| `Bot` | bot.dfy | `class Session`, whose fields the branch methods update in place, and `class EmailBot` with its map from user id to `Session` |

Each method of `Bot.Session` is proved equal to its function in `Sessions`: the new
fields together with the reply must equal what that function returns. The
properties are proved about those functions.

The outside world is one value `Sessions.Env` per command. It holds:
- what each tool call returns, or that it raised;
- the chat model's text, or that it raised;
- how `json.loads` parses that text;
- the reply body the generator writes, or that it raised;
- `html.unescape`.

Every exception the handler catches becomes the fixed apology. The context is
left as it was when the exception was raised.

Behaviour of the code worth knowing:
- Loading a list replaces `last_emails` only. The read email and the draft
  stay as they were (`SessionFacts.ListReplacesOnlyList`).
- A send that returns an error still clears the draft
  (`SessionFacts.FailedSendLosesDraft`).
- "send reply" contains "reply". So while an email is read, it drafts a new
  reply instead of sending (`SessionFacts.SendReplyRedrafts`).
- "cancel the draft" and "cancel the reply" contain "draft" and "reply". So
  while an email is read, they draft a new reply instead of cancelling
  (`SessionFacts.CancelDraftRedrafts`). With no email read, they cancel
  (`SessionFacts.CancelClearsDraft`).
- Cancel without a draft goes to the chat model
  (`SessionFacts.NoDraftFallsThrough`).
- The recipient is the text in the first `<...>`, otherwise the whole From
  header stripped.
- Number words are recognised only after "read", and only the twenty listed
  in `_word_to_number`.
- The context holds one read email per user.

## Model

| member | source | states |
|---|---|---|
| `Text.Dec` | telegram_bot/bot.py:107 | the decimal text of a number is a non-empty string of digits with no leading zero: `0` is written `"0"`, any other number starts with a non-zero digit |
| `Text.ParseDecOfDec` | telegram_bot/bot.py:214 | `int()` of the decimal text of `n` gives back `n` |
| `Text.Lower` | telegram_bot/bot.py:246 | `lower()` keeps the length and lower-cases each character on its own |
| `Text.Strip` | telegram_bot/bot.py:268 | `strip()` returns a slice `s[k..k+|r|]` of the input with only whitespace before and after it, and no whitespace at either of its own ends |
| `Text.NonSpaceOfStrip` | telegram_bot/bot.py:86 | `strip()` keeps every non-whitespace character, in order |
| `Html.RemoveTags` | telegram_bot/bot.py:80 | removing tags never lengthens the text and keeps only its own characters or spaces; what each tag becomes is stated by the four lemmas below, which together cover every input |
| `Html.RemoveTagsReplacesTag` | telegram_bot/bot.py:80 | in `x<t>y`, with no `<` in `x` and a non-empty `t` without `>`, the tag becomes one space, `x` is kept and the rest is processed the same way |
| `Html.RemoveTagsKeepsEmptyBrackets` | telegram_bot/bot.py:80 | an empty `<>`, which `<[^>]+>` cannot match, is kept, and the rest is processed the same way |
| `Html.RemoveTagsKeepsPrefix` | telegram_bot/bot.py:80 | text with no `<` in front of the rest is kept as it is |
| `Html.RemoveTagsWithoutClose` | telegram_bot/bot.py:80 | a text without `>` is unchanged: a `<` that is never closed is kept |
| `Html.RemoveTagsLeavesNoTag` | telegram_bot/bot.py:80 | no `<[^>]+>` match is left after the substitution |
| `Html.RemoveTagsWithoutAngle` | telegram_bot/bot.py:80 | a text without `<` is unchanged |
| `Html.CollapseSpaces` | telegram_bot/bot.py:86 | collapsing leaves no two adjacent whitespace characters, only plain spaces, and keeps emptiness and a leading space; `CollapseSpacesRun` and `CollapseSpacesUnchanged` fix the result on every input |
| `Html.CollapseSpacesRun` | telegram_bot/bot.py:86 | a non-empty run of whitespace between two pieces of text, one ending and the other starting with a visible character, becomes exactly one space, and each piece is collapsed on its own |
| `Html.CollapseSpacesKeepsText` | telegram_bot/bot.py:86 | collapsing keeps every non-whitespace character, in order |
| `Html.CollapseSpacesUnchanged` | telegram_bot/bot.py:86 | text already single-spaced is unchanged |
| `Html.StripHtml` | telegram_bot/bot.py:71-89 | empty input is returned unchanged; otherwise the result has at most 800 characters, no leading whitespace, no two adjacent whitespace characters and only plain spaces, and its non-whitespace characters begin those of the text with tags removed and entities decoded, and are all of them when the cleaned text fits in 800 characters; the result is the first `min(len, 800)` characters of the cleaned text |
| `Html.CleanedIsClean` | telegram_bot/bot.py:83-86 | after collapsing and stripping, the text is single-spaced, starts with no whitespace and keeps every non-whitespace character of the decoded text |
| `Html.CutToMax` | telegram_bot/bot.py:89 | `[:800]` keeps the first `min(len, 800)` characters of the text, all of it when it fits, and with them the spacing and a beginning of the non-whitespace characters |
| `Html.StripHtmlKeepsCleanText` | telegram_bot/bot.py:71-89 | clean, short, tag-free text that unescaping leaves alone is returned unchanged |
| `NumberWords.WordToNumber` | telegram_bot/bot.py:91-99 | a word has a number exactly when, lower-cased, it is one of the ten cardinals or ten ordinals; the number is 1..10 and is that word's position |
| `NumberWords.WordToNumberExactly` | telegram_bot/bot.py:91-99 | a word maps to `n` if and only if `n` is 1..10 and the lower-cased word is the n-th cardinal or the n-th ordinal |
| `NumberWords.WordToNumberIgnoresCase` | telegram_bot/bot.py:99 | the lookup gives the same answer for a word and for its lower case |
| `Commands.LiteralThenSpace` | telegram_bot/bot.py:210 | a match of `lit\s+` starts with `lit` and ends after at least one whitespace character |
| `Commands.DigitsAt` | telegram_bot/bot.py:210 | the `(\d+)` group is a non-empty run of digits |
| `Commands.WordAt` | telegram_bot/bot.py:216 | the `(\w+)` group is non-empty |
| `Commands.ReadDigitsAt` | telegram_bot/bot.py:210 | the digit pattern tried at one position captures digits only |
| `Commands.ReadWordAt` | telegram_bot/bot.py:216 | the word pattern tried at one position captures a non-empty word, trying the optional groups in the engine's order |
| `Commands.SearchReadDigits` | telegram_bot/bot.py:210 | the search captures digits only |
| `Commands.SearchReadDigitsFindsRead` | telegram_bot/bot.py:210 | the digit search matches only in a command containing "read" |
| `Commands.SearchReadWordFindsRead` | telegram_bot/bot.py:216 | the word search matches only in a command containing "read" |
| `Commands.EmailNumber` | telegram_bot/bot.py:210-218 | an email number is found only in a command that says "read" |
| `Commands.KeywordEnd` | telegram_bot/bot.py:260 | the keyword alternative (`saying`, `that`, `with`, `message`) matches at a position exactly when one of the four keywords starts there, and the match ends right after that whole keyword |
| `Commands.LineEnd` | telegram_bot/bot.py:260 | `.+` takes characters up to, and not including, the next newline or the end of the text |
| `Commands.HintFrom` | telegram_bot/bot.py:260 | the captured hint is non-empty and on one line |
| `Commands.HintAt` | telegram_bot/bot.py:260 | the pattern tried at one position captures a non-empty hint on one line |
| `Commands.SearchHint` | telegram_bot/bot.py:260 | the search captures a non-empty hint on one line |
| `Commands.ReplyHint` | telegram_bot/bot.py:260-264 | a reply hint is non-empty and contains no newline |
| `Commands.SearchReadWord` | telegram_bot/bot.py:216 | the word search captures a non-empty word |
| `Commands.IsDraftRequest` | telegram_bot/bot.py:249 | a draft request is a command containing one of "draft", "reply", "respond", "write back" |
| `Commands.IsSendRequest` | telegram_bot/bot.py:250 | a send request is a command containing one of "send reply", "send it", "yes send" |
| `Commands.Recipient` | telegram_bot/bot.py:267-268 | the recipient is the stripped From header, or a non-empty one-line text that stands in the header between a `<` and the `>` right after it |
| `Commands.SearchAngle` | telegram_bot/bot.py:267 | a match of `<(.+?)>` captures a non-empty one-line text that stands between a `<` and a `>` of the header |
| `Commands.ReplySubject` | telegram_bot/bot.py:271 | the reply subject starts with "re:" in some case and ends with the original subject; a subject that already starts so is kept, any other gets "Re: " in front |
| `CommandFacts.SearchesFindNothing` | telegram_bot/bot.py:210-216 | with no "read" followed by whitespace, neither search matches |
| `CommandFacts.ReadEmailNumberDigits` | telegram_bot/bot.py:210-214 | "read email number N" resolves to N for every N |
| `CommandFacts.ReadEmailWord` | telegram_bot/bot.py:216-218 | "read email W", for a word of letters, resolves to the word's number, if it has one |
| `CommandFacts.DigitAndWordAgree` | telegram_bot/bot.py:210-218 | for n in 1..10, the digits, the cardinal and the ordinal after "read email" all select email n |
| `CommandFacts.SendReplyIsDraftRequest` | telegram_bot/bot.py:249-250 | a command saying "send reply" passes both the draft test and the send test |
| `CommandFacts.CancelDraftIsDraftRequest` | telegram_bot/bot.py:249 | a command saying "cancel the draft" or "cancel the reply" passes both the draft test and the cancel test |
| `CommandFacts.ReplyHintAfterSaying` | telegram_bot/bot.py:259-264 | in "draft a reply saying X", X (one line, starting with a non-space) is the hint |
| `CommandFacts.RecipientInAngles` | telegram_bot/bot.py:267-268 | the recipient of "Name <address>..." is the address |
| `CommandFacts.RecipientWithoutAngles` | telegram_bot/bot.py:267-268 | a From header without `<` is used stripped |
| `CommandFacts.ReplySubjectIdempotent` | telegram_bot/bot.py:271 | deriving the reply subject twice equals deriving it once |
| `Mail.AccountFor` | telegram_bot/bot.py:235 | an id is iCloud if and only if it is all digits, otherwise Gmail |
| `Mail.ReadToolFor` | telegram_bot/bot.py:228 | `read_icloud_email` if and only if the id is all digits; the tool belongs to the id's account |
| `Mail.SendToolFor` | telegram_bot/bot.py:302 | `send_icloud_email` if and only if the account is "icloud", otherwise `send_gmail_email` |
| `Mail.ShortenFrom` | telegram_bot/bot.py:113-114 | a From of at most 40 characters is kept; a longer one becomes its first 40 characters and "..." |
| `Mail.FormatEmailList` | telegram_bot/bot.py:101-119 | the text built, header then the entry loop then the footer, is exactly `ListText`: the no-emails text for an empty list, else the header, entries 1..min(len, 10) and the footer |
| `Mail.AppendEntries` | telegram_bot/bot.py:108-116 | the loop appends entries 1..shown, in order, to the text it starts from |
| `Mail.FormatEntry` | telegram_bot/bot.py:109-116 | one loop pass appends entry number i: its From line, shortened past 40 characters, then its Subject line |
| `Mail.EntriesPrefix` | telegram_bot/bot.py:109-116 | the text of the first j entries begins the text of the first k |
| `Mail.EntriesAgree` | telegram_bot/bot.py:109-116 | the entries depend only on the emails they show |
| `Mail.ListShowsEntry` | telegram_bot/bot.py:106-116 | each of the first min(len, 10) emails appears under its number, with its shortened From and its subject |
| `Mail.ListText` | telegram_bot/bot.py:101-119 | no emails give "You have no emails matching that query."; otherwise the text starts with "Found N emails." and ends with the hint to read the first one |
| `Mail.ListTextIgnoresTail` | telegram_bot/bot.py:106-109 | emails after the tenth do not change the text beyond the count |
| `Mail.FormatEmailContent` | telegram_bot/bot.py:121-140 | falsy input gives "Could not read email."; an error dictionary gives "Error reading email: " and the error; a value that is neither falsy nor a dictionary raises; any other email is its From line, its Subject line (with their defaults), a blank line, then its stripped body |
| `Mail.DraftPreview` | telegram_bot/bot.py:289-295 | the preview shows the recipient line, the subject line and the body, and ends with the send-or-cancel prompt |
| `Sessions.ReadStep` | telegram_bot/bot.py:220-241 | reading changes neither the list nor the draft, and changes the read email only after a read tool returned a dictionary without "error" |
| `Sessions.DraftStep` | telegram_bot/bot.py:252-296 | drafting changes neither the list nor the read email, and calls no tool |
| `Sessions.SendStep` | telegram_bot/bot.py:299-316 | sending calls the send tool with the draft, changes neither the list nor the read email, and either clears the draft or changes nothing |
| `Sessions.CancelStep` | telegram_bot/bot.py:319-321 | cancelling clears the draft, keeps the rest and calls no tool |
| `Sessions.ToolResultStep` | telegram_bot/bot.py:404-432 | a tool result never changes the read email, and a draft it sets is for Gmail |
| `Sessions.DeferStep` | telegram_bot/bot.py:326-438 | the chat-model branch never changes the read email, and calls a tool only when the model answered |
| `Sessions.AfterRead` | telegram_bot/bot.py:246-438 | no branch after the read branch changes the read email |
| `Sessions.Step` | telegram_bot/bot.py:196-444 | only a command the read branch takes changes the email last read |
| `Sessions.StoredRead` | telegram_bot/bot.py:232-235 | the stored email carries the id and its account, and keeps every other field of the result |
| `SessionFacts.NoReadWithoutReadOrList` | telegram_bot/bot.py:220 | without "read" in the command, or without a list, the read branch is skipped |
| `SessionFacts.ReadOutOfRange` | telegram_bot/bot.py:240-241 | a number past the list gives "Sorry, you only have N emails in the list." with no tool call and no change |
| `SessionFacts.ReadInRange` | telegram_bot/bot.py:220-239 | number n in range reads the email at index n-1 with the tool of its account; only a dictionary without "error" becomes the read email, tagged with id and account; nothing else changes |
| `SessionFacts.ReadWithoutId` | telegram_bot/bot.py:224 | an entry without "id" gives the apology with no tool call and no change |
| `SessionFacts.ReadShowsStoredEmail` | telegram_bot/bot.py:232-238 | a stored email is shown as its content, opening with its From and Subject lines |
| `SessionFacts.ReadErrorReported` | telegram_bot/bot.py:229-238 | a read tool that returns an error dictionary gives "Error reading email: " and the error, and stores nothing |
| `SessionFacts.ReadCallsReadTool` | telegram_bot/bot.py:228-229 | the read branch calls a read tool, if any |
| `SessionFacts.DraftReplacesDraft` | telegram_bot/bot.py:252-287 | a draft wholly replaces any previous one: recipient, reply subject and stripped body from the read email and the generator, account from the email (default "gmail") |
| `SessionFacts.DraftSubjectIsReply` | telegram_bot/bot.py:271-287 | the draft's subject starts with "re:", ends with the original subject, and is its own reply subject |
| `SessionFacts.DraftFailureKeepsContext` | telegram_bot/bot.py:274-287 | a generator that raises leaves the context as it was |
| `SessionFacts.SendClearsDraft` | telegram_bot/bot.py:299-316 | send calls the iCloud tool exactly for an iCloud draft, with the draft's fields, and clears the draft whether or not an error came back; only a raise keeps it |
| `SessionFacts.FailedSendLosesDraft` | telegram_bot/bot.py:311-315 | an error reply reports "Failed to send: ..." and the draft is gone |
| `SessionFacts.SendWithoutDraftComesFromModel` | telegram_bot/bot.py:397-402 | without a pending draft, any send-tool call is the one the chat model's decision named, with its parameters |
| `SessionFacts.DeferCallComesFromModel` | telegram_bot/bot.py:397-402 | any tool call the chat-model branch makes is the one the model's `call_tool` decision named, with its parameters |
| `SessionFacts.SendReplyRedrafts` | telegram_bot/bot.py:249-252 | while an email is read, "send reply" drafts again and calls no tool |
| `SessionFacts.CancelClearsDraft` | telegram_bot/bot.py:319-321 | cancel with a draft clears it, changes nothing else and answers "Draft cancelled.", whenever the draft branch (a draft request with an email read) and the send branch do not apply |
| `SessionFacts.CancelDraftRedrafts` | telegram_bot/bot.py:249-252 | while an email is read, "cancel the draft" or "cancel the reply" drafts again and calls no tool |
| `SessionFacts.NoDraftFallsThrough` | telegram_bot/bot.py:299-321 | without a draft, send and cancel fall through to the chat model |
| `SessionFacts.InvalidJsonVerbatim` | telegram_bot/bot.py:437-438 | chat-model output that is not JSON is returned verbatim with no change and no tool call |
| `SessionFacts.ListReplacesOnlyList` | telegram_bot/bot.py:405-407 | a non-empty list result replaces `last_emails` and nothing else, and is returned formatted and as the email list |
| `SessionFacts.ErrorDictReported` | telegram_bot/bot.py:411-412 | an error dictionary gives "Error: ..." with no change |
| `SessionFacts.CreatedDraftIsGmail` | telegram_bot/bot.py:415-428 | a `draft_created` result becomes the pending draft with account "gmail", shown as the preview |
| `SessionFacts.EmailsReturnedAreStored` | telegram_bot/bot.py:405-407 | an email list is returned only when non-empty and already stored as `last_emails` |
| `SessionFacts.AfterReadEmailsStored` | telegram_bot/bot.py:246-438 | the same for the branches after the read branch |
| `SessionFacts.ReadReturnsNoEmails` | telegram_bot/bot.py:239-241 | the read branch returns no email list |
| `SessionFacts.DeferEmailsStored` | telegram_bot/bot.py:394-438 | the same for the chat-model branch |
| `SessionFacts.ToolResultEmailsStored` | telegram_bot/bot.py:404-432 | the same for a tool result |
| `SessionFacts.ToolResultChangesAtMostOne` | telegram_bot/bot.py:404-432 | a tool result changes at most one field of the context |
| `SessionFacts.DeferChangesAtMostOne` | telegram_bot/bot.py:394-438 | the chat-model branch changes at most one field |
| `SessionFacts.StepChangesAtMostOne` | telegram_bot/bot.py:196-444 | every command replaces at most one of the three fields |
| `SessionFacts.InitialWf` | telegram_bot/bot.py:65-68 | the fresh context is well formed |
| `SessionFacts.ReadKeepsWf` | telegram_bot/bot.py:232-235 | reading keeps the context well formed |
| `SessionFacts.DraftKeepsWf` | telegram_bot/bot.py:282-287 | drafting keeps the context well formed |
| `SessionFacts.DeferKeepsWf` | telegram_bot/bot.py:415-421 | the chat-model branch keeps the context well formed |
| `SessionFacts.StepKeepsWf` | telegram_bot/bot.py:196-444 | every command keeps the context well formed: a read email has an id and that id's account, and a draft is for Gmail or iCloud |
| `Bot.Session.constructor` | telegram_bot/bot.py:65-68 | a new context has an empty list, no read email and no draft |
| `Bot.Session.ReadEmail` | telegram_bot/bot.py:220-241 | the in-place writes of id and account and the returned text agree with `ReadStep` |
| `Bot.Session.DraftReply` | telegram_bot/bot.py:252-296 | the new draft and the preview agree with `DraftStep` |
| `Bot.Session.SendDraft` | telegram_bot/bot.py:299-316 | the call, the cleared draft and the text agree with `SendStep` |
| `Bot.Session.CancelDraft` | telegram_bot/bot.py:319-321 | the draft is cleared, as `CancelStep` says |
| `Bot.Session.HandleToolResult` | telegram_bot/bot.py:404-432 | the fields and text agree with `ToolResultStep` |
| `Bot.Session.Defer` | telegram_bot/bot.py:394-438 | the fields, text, list and call agree with `DeferStep` |
| `Bot.Session.ProcessCommand` | telegram_bot/bot.py:203-438 | one command updates the fields and answers as `Step` says |
| `Bot.EmailBot.GetUserContext` | telegram_bot/bot.py:62-69 | an existing user's context is returned with the map unchanged; a new user gets a fresh empty context added under their id and nothing else changes |
| `Bot.EmailBot.ProcessEmailCommand` | telegram_bot/bot.py:196-205 | the user's context takes one `Step` from its old value, or from the empty context for a new user; every other user keeps the same context object with the same contents |

## Left out

- Telegram plumbing is not modelled: `/start` and `/help`, `handle_voice`, `handle_text`, the error handler, `run`, `post_init`, the MCP connection. These are transport and process lifecycle.
- The re-store of the returned list in `handle_voice` (bot.py lines 518-520) is not modelled. `SessionFacts.EmailsReturnedAreStored` shows it would write back the list already stored.
- Speech transcription and temporary files are left out. They are network and file I/O.
- Prompt construction and the chat-completion calls are left out. Only their results enter, through `Sessions.Env`.
- The tools and the server behind `call_tool` are oracles, in `Sessions.Env.tool`. One command makes at most one call, so a function of the call is enough.
- Concurrency and async scheduling are left out. Each command is one atomic step.
- Tool arguments and JSON objects are maps from strings to strings. A non-string JSON value, such as `max_results: 10`, appears as its text.
- List items that are not objects, and the shape of non-dictionary scalar results, are not modelled. Only a scalar's truth value and its `str()` are kept.
- `lower()`, `isdigit()`, `\d` and `\w` are modelled for ASCII only. Python applies them to all of Unicode.
- `html.unescape` is an abstract function of the environment.
- A `pending_draft` key that was never set and one set to `None` are both `None`.
- `user_id` is an `int`. The `None` default is not modelled.
- A chat-model answer whose `action` or `message` is not a string is not modelled. Neither is a `content` of `None`; it raises like a failed call.
