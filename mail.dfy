/**
 * Email records as the bot sees them, the results the MCP tools return, and
 * the texts `EmailBot` builds from them (telegram_bot/bot.py): the email list,
 * the content of one email and the preview of a reply draft.
 */
module Mail {
  import opened Text
  import opened Options
  import opened Html

  /** A JSON object with string values: an email summary or an email read. */
  type Record = map<string, string>

  /** `record.get(key, default)`. */
  function Get(r: Record, key: string, default: string): string {
    if key in r then r[key] else default
  }

  /** A tool name with its keyword arguments. */
  datatype ToolCall = ToolCall(name: string, args: map<string, string>)

  /**
   * What `call_tool` returns, parsed from JSON: a list, an object, or any
   * other value, of which only its truth value matters here.
   */
  datatype ToolResult =
    | ListResult(items: seq<Record>)
    | DictResult(fields: Record)
    | ScalarResult(truthy: bool)
  {
    /** Python's truth value of the result. */
    predicate Truthy() {
      match this
      case ListResult(items) => items != []
      case DictResult(fields) => fields != map[]
      case ScalarResult(t) => t
    }
  }

  /**
   * The outcome of a tool call: it raised, or it returned a result together
   * with `str(result)`, the text shown when nothing else applies.
   */
  datatype ToolReply = Raised | Returned(result: ToolResult, shown: string)

  /** A reply awaiting confirmation: the `pending_draft` dictionary. */
  datatype Draft = Draft(to: string, subject: string, body: string, account: string)

  /** The reply to every exception `process_email_command` catches. */
  const Apology := "Sorry, something went wrong. Please try again."

  const NoEmailsText := "You have no emails matching that query."
  const ListFooter := "Say 'read email number 1' to read the first one."
  const CouldNotRead := "Could not read email."
  const MaxListed := 10
  const MaxFromLength := 40

  /** The two accounts: an id of digits is an iCloud message number, any other a Gmail id. */
  function AccountFor(id: string): (a: string)
    ensures a == "icloud" <==> IsDigitString(id)
    ensures a == "icloud" || a == "gmail"
  {
    if IsDigitString(id) then "icloud" else "gmail"
  }

  /** The read tool for an email id (bot.py line 228). */
  function ReadToolFor(id: string): (t: string)
    ensures t == "read_icloud_email" <==> IsDigitString(id)
    ensures t == "read_" + AccountFor(id) + "_email"
  {
    if IsDigitString(id) then "read_icloud_email" else "read_gmail_email"
  }

  /** The send tool for a draft's account (bot.py line 302). */
  function SendToolFor(account: string): (t: string)
    ensures t == "send_icloud_email" <==> account == "icloud"
    ensures t == "send_icloud_email" || t == "send_gmail_email"
  {
    if account == "icloud" then "send_icloud_email" else "send_gmail_email"
  }

  /** A From header as listed: cut to its first 40 characters plus "..." when longer. */
  function ShortenFrom(from: string): (r: string)
    ensures |r| <= MaxFromLength + 3
    ensures |from| <= MaxFromLength ==> r == from
    ensures |from| > MaxFromLength ==> |r| == MaxFromLength + 3 && r[..MaxFromLength] == from[..MaxFromLength]
    ensures |from| > MaxFromLength ==> EndsWith(r, "...")
  {
    if |from| > MaxFromLength then from[..MaxFromLength] + "..." else from
  }

  function ListHeader(count: nat, shown: nat): string {
    "Found " + Dec(count) + " emails. Showing top " + Dec(shown) + ":\n\n"
  }

  function FromLine(i: nat, e: Record): string {
    Dec(i) + ". From: " + ShortenFrom(Get(e, "from", "Unknown")) + "\n"
  }

  function SubjectLine(e: Record): string {
    "   Subject: " + Get(e, "subject", "No subject") + "\n\n"
  }

  /** The two lines of entry number `i`. */
  function EntryText(i: nat, e: Record): string {
    FromLine(i, e) + SubjectLine(e)
  }

  /** Entries 1..k of the list, in order. */
  function Entries(emails: seq<Record>, k: nat): string
    requires k <= |emails|
  {
    if k == 0 then "" else Entries(emails, k - 1) + EntryText(k, emails[k - 1])
  }

  /** The text `_format_email_list` returns. */
  function ListText(emails: seq<Record>): (r: string)
    ensures emails == [] ==> r == NoEmailsText
    ensures emails != [] ==> StartsWith(r, ListHeader(|emails|, Min(|emails|, MaxListed))) && EndsWith(r, ListFooter)
  {
    if emails == [] then NoEmailsText
    else ListParts(ListHeader(|emails|, Min(|emails|, MaxListed)), Entries(emails, Min(|emails|, MaxListed)), ListFooter)
  }

  /** `header + entries + footer`, which starts with the header and ends with the footer. */
  function ListParts(header: string, entries: string, footer: string): (r: string)
    ensures StartsWith(r, header) && EndsWith(r, footer)
  {
    var r := header + entries + footer;
    assert r[..|header|] == header;
    assert r[|r| - |footer|..] == footer;
    r
  }

  /** `_format_email_list` (bot.py lines 101-119), built entry by entry. */
  method FormatEmailList(emails: seq<Record>) returns (text: string)
    ensures text == ListText(emails)
  {
    if emails == [] {
      return NoEmailsText;
    }
    var shown := Min(|emails|, MaxListed);
    text := ListHeader(|emails|, shown);
    text := AppendEntries(text, emails, shown);
    text := text + ListFooter;
    ListTextOfSome(emails);
  }

  lemma ListTextOfSome(emails: seq<Record>)
    requires emails != []
    ensures ListText(emails)
      == ListHeader(|emails|, Min(|emails|, MaxListed)) + Entries(emails, Min(|emails|, MaxListed)) + ListFooter
  {
  }

  /** The loop of `_format_email_list`: entries 1..shown appended to `text` one by one. */
  method AppendEntries(start: string, emails: seq<Record>, shown: nat) returns (text: string)
    requires shown <= |emails|
    ensures text == start + Entries(emails, shown)
  {
    text := start;
    for i := 0 to shown
      invariant text == start + Entries(emails, i)
    {
      var entry := FormatEntry(i + 1, emails[i]);
      EntriesStep(start, emails, i, entry);
      text := text + entry;
    }
  }

  lemma EntriesStep(start: string, emails: seq<Record>, i: nat, entry: string)
    requires i < |emails| && entry == EntryText(i + 1, emails[i])
    ensures start + Entries(emails, i + 1) == (start + Entries(emails, i)) + entry
  {
  }

  /** The two lines the loop of `_format_email_list` appends for one email (bot.py lines 110-116). */
  method FormatEntry(number: nat, email: Record) returns (entry: string)
    ensures entry == EntryText(number, email)
  {
    var from := Get(email, "from", "Unknown");
    var subject := Get(email, "subject", "No subject");
    if |from| > MaxFromLength {
      from := from[..MaxFromLength] + "...";
    }
    entry := Dec(number) + ". From: " + from + "\n";
    entry := entry + ("   Subject: " + subject + "\n\n");
  }

  /** Entries 1..j begin entries 1..k for j <= k. */
  lemma {:induction false} EntriesPrefix(emails: seq<Record>, j: nat, k: nat)
    requires j <= k <= |emails|
    ensures StartsWith(Entries(emails, k), Entries(emails, j))
    decreases k - j
  {
    if j < k {
      EntriesPrefix(emails, j, k - 1);
      StartsWithAppend(Entries(emails, k - 1), EntryText(k, emails[k - 1]), Entries(emails, j));
    }
  }

  /** Entries depend only on the emails they show. */
  lemma {:induction false} EntriesAgree(a: seq<Record>, b: seq<Record>, k: nat)
    requires k <= |a| && k <= |b| && a[..k] == b[..k]
    ensures Entries(a, k) == Entries(b, k)
  {
    if k > 0 {
      assert a[..k - 1] == a[..k][..k - 1] && b[..k - 1] == b[..k][..k - 1];
      assert a[k - 1] == a[..k][k - 1] && b[k - 1] == b[..k][k - 1];
      EntriesAgree(a, b, k - 1);
    }
  }

  lemma EntryInEntries(emails: seq<Record>, i: nat, k: nat)
    requires 1 <= i <= k <= |emails|
    ensures Contains(Entries(emails, k), EntryText(i, emails[i - 1]))
  {
    EntriesPrefix(emails, i, k);
    var all := Entries(emails, k);
    var front := Entries(emails, i - 1);
    var entry := EntryText(i, emails[i - 1]);
    var rest := all[|front + entry|..];
    assert all == front + entry + rest;
    ContainsMiddle(front, entry, rest);
  }

  /** Every one of the first min(len, 10) emails is listed, under its number. */
  lemma ListShowsEntry(emails: seq<Record>, i: nat)
    requires 1 <= i <= Min(|emails|, MaxListed)
    ensures Contains(ListText(emails), EntryText(i, emails[i - 1]))
  {
    var shown := Min(|emails|, MaxListed);
    EntryInEntries(emails, i, shown);
    ContainsWithin(ListHeader(|emails|, shown), Entries(emails, shown), ListFooter, EntryText(i, emails[i - 1]));
  }

  /**
   * Emails after the tenth are not listed: two lists of the same length with
   * the same first ten emails give the same text.
   */
  lemma ListTextIgnoresTail(a: seq<Record>, b: seq<Record>)
    requires |a| == |b|
    requires a[..Min(|a|, MaxListed)] == b[..Min(|b|, MaxListed)]
    ensures ListText(a) == ListText(b)
  {
    EntriesAgree(a, b, Min(|a|, MaxListed));
  }

  /** The From and Subject lines that open an email's content, with their defaults. */
  function ContentHeader(fields: Record): string {
    "From: " + Get(fields, "from", "Unknown") + "\nSubject: " + Get(fields, "subject", "No subject") + "\n\n"
  }

  /**
   * `_format_email_content` (bot.py lines 121-140); `None` where Python
   * raises, which is for every value that is neither falsy nor a dictionary.
   */
  function FormatEmailContent(result: ToolResult, unescape: string -> string): (r: Option<string>)
    ensures r.None? <==> result.Truthy() && !result.DictResult?
    ensures !result.Truthy() ==> r == Some(CouldNotRead)
    ensures result.DictResult? && "error" in result.fields ==>
      r == Some("Error reading email: " + result.fields["error"])
    ensures result.DictResult? && result.Truthy() && "error" !in result.fields ==>
      r.Some?
      && |r.value| == |ContentHeader(result.fields)| + |StripHtml(unescape, Get(result.fields, "body", "No content"))|
      && StartsWith(r.value, ContentHeader(result.fields))
      && EndsWith(r.value, StripHtml(unescape, Get(result.fields, "body", "No content")))
  {
    if !result.Truthy() then Some(CouldNotRead)
    else match result
      case DictResult(fields) =>
        if "error" in fields then Some("Error reading email: " + fields["error"])
        else
          var header := ContentHeader(fields);
          var body := StripHtml(unescape, Get(fields, "body", "No content"));
          var text := header + body;
          assert text[..|header|] == header && text[|header|..] == body;
          Some(text)
      case _ => None
  }

  /** The preview of a draft (bot.py lines 289-295 and 422-428). */
  function DraftPreview(d: Draft): (r: string)
    ensures Contains(r, PreviewTo(d))
    ensures Contains(r, PreviewSubject(d))
    ensures Contains(r, PreviewBody(d))
    ensures EndsWith(r, PreviewFooter)
  {
    ContainsParts(PreviewHead, PreviewTo(d), PreviewSubject(d), PreviewBody(d), PreviewFooter);
    PreviewHead + PreviewTo(d) + PreviewSubject(d) + PreviewBody(d) + PreviewFooter
  }

  const PreviewHead := "\U{1F4E7} DRAFT REPLY:\n\n"

  /** The recipient line of the preview. */
  function PreviewTo(d: Draft): string {
    "To: " + d.to + "\n"
  }

  /** The subject line of the preview. */
  function PreviewSubject(d: Draft): string {
    "Subject: " + d.subject + "\n"
  }

  /** The body of the preview, set off by blank lines. */
  function PreviewBody(d: Draft): string {
    "\n" + d.body + "\n\n"
  }

  const PreviewFooter := "Say 'send reply' to send or 'cancel' to cancel."
}
