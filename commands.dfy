/**
 * The local reading of a command in `EmailBot.process_email_command`
 * (telegram_bot/bot.py): the regular expressions and substring tests applied
 * to the lower-cased command, and the derivation of a reply's recipient and
 * subject from the email last read. Each `re.search` is modelled as a scan
 * that tries the pattern at positions 0, 1, ..., |s| and keeps the first match.
 */
module Commands {
  import opened Text
  import opened Options
  import opened NumberWords

  /** Where `lit\s+` ends when it matches at `i`. */
  function LiteralThenSpace(s: string, i: nat, lit: string): (r: Option<nat>)
    ensures r.Some? ==> i + |lit| < r.value <= |s| && StartsWith(s[i..], lit)
  {
    if i <= |s| && StartsWith(s[i..], lit) then
      var j := RunEnd(s, i + |lit|, IsSpace);
      if j > i + |lit| then Some(j) else None
    else None
  }

  /** The `(\d+)` group at `i`: the whole run of digits there, if any. */
  function DigitsAt(s: string, i: nat): (r: Option<string>)
    ensures r.Some? ==> IsDigitString(r.value)
  {
    if i <= |s| then
      var e := RunEnd(s, i, IsDigit);
      if e > i then Some(s[i..e]) else None
    else None
  }

  /** The `(\w+)` group at `i`: the whole run of word characters there, if any. */
  function WordAt(s: string, i: nat): (r: Option<string>)
    ensures r.Some? ==> |r.value| > 0
  {
    if i <= |s| then
      var e := RunEnd(s, i, IsWordChar);
      if e > i then Some(s[i..e]) else None
    else None
  }

  /**
   * `read\s+(?:email\s+)?(?:number\s+)?(\d+)` tried at `p`. Neither optional
   * group can be skipped to any effect once it matched: the text it matched
   * starts with a letter, not a digit.
   */
  function ReadDigitsAt(s: string, p: nat): (r: Option<string>)
    ensures r.Some? ==> IsDigitString(r.value)
  {
    match LiteralThenSpace(s, p, "read")
    case None => None
    case Some(q) =>
      var q1 := LiteralThenSpace(s, q, "email").GetOr(q);
      var q2 := LiteralThenSpace(s, q1, "number").GetOr(q1);
      DigitsAt(s, q2)
  }

  /**
   * `read\s+(?:email\s+)?(?:number\s+)?(\w+)` tried at `p`, with the
   * backtracking order of the regular expression engine: both groups, the
   * email group alone, the number group alone, neither.
   */
  function ReadWordAt(s: string, p: nat): (r: Option<string>)
    ensures r.Some? ==> |r.value| > 0
  {
    match LiteralThenSpace(s, p, "read")
    case None => None
    case Some(q) =>
      var a := LiteralThenSpace(s, q, "email");
      var ab := if a.Some? then LiteralThenSpace(s, a.value, "number") else None;
      var b := LiteralThenSpace(s, q, "number");
      if ab.Some? && WordAt(s, ab.value).Some? then WordAt(s, ab.value)
      else if a.Some? && WordAt(s, a.value).Some? then WordAt(s, a.value)
      else if b.Some? && WordAt(s, b.value).Some? then WordAt(s, b.value)
      else WordAt(s, q)
  }

  /** `re.search` of the digit pattern, from position `p` on. */
  function SearchReadDigits(s: string, p: nat): (r: Option<string>)
    ensures r.Some? ==> IsDigitString(r.value)
    decreases |s| + 1 - p
  {
    if p > |s| then None
    else if ReadDigitsAt(s, p).Some? then ReadDigitsAt(s, p)
    else SearchReadDigits(s, p + 1)
  }

  /** `re.search` of the word pattern, from position `p` on. */
  function SearchReadWord(s: string, p: nat): (r: Option<string>)
    ensures r.Some? ==> |r.value| > 0
    decreases |s| + 1 - p
  {
    if p > |s| then None
    else if ReadWordAt(s, p).Some? then ReadWordAt(s, p)
    else SearchReadWord(s, p + 1)
  }

  /** A search that finds something finds a "read" at or after `p`. */
  lemma {:induction false} SearchReadDigitsFindsRead(s: string, p: nat)
    requires SearchReadDigits(s, p).Some?
    ensures Contains(s, "read")
    decreases |s| + 1 - p
  {
    if ReadDigitsAt(s, p).Some? {
      ContainsInSuffix(s, p, "read");
    } else {
      SearchReadDigitsFindsRead(s, p + 1);
    }
  }

  lemma {:induction false} SearchReadWordFindsRead(s: string, p: nat)
    requires SearchReadWord(s, p).Some?
    ensures Contains(s, "read")
    decreases |s| + 1 - p
  {
    if ReadWordAt(s, p).Some? {
      ContainsInSuffix(s, p, "read");
    } else {
      SearchReadWordFindsRead(s, p + 1);
    }
  }

  /**
   * The email number of a lower-cased command (bot.py lines 210-218): the
   * digits after "read" if the digit pattern matches anywhere, otherwise the
   * number word the word pattern captures, if it is one. A number is found
   * only in a command that says "read".
   */
  function EmailNumber(command: string): (r: Option<nat>)
    ensures r.Some? ==> Contains(command, "read")
  {
    match SearchReadDigits(command, 0)
    case Some(digits) =>
      SearchReadDigitsFindsRead(command, 0);
      Some(ParseDec(digits))
    case None =>
      match SearchReadWord(command, 0)
      case Some(word) =>
        SearchReadWordFindsRead(command, 0);
        WordToNumber(word)
      case None => None
  }

  /** `is_draft` (bot.py line 249). */
  predicate IsDraftRequest(command: string): (r: bool)
    ensures r <==> exists i :: 0 <= i < |DraftWords| && Contains(command, DraftWords[i])
  {
    assert |DraftWords| == 4 && DraftWords[0] == "draft" && DraftWords[1] == "reply" && DraftWords[2] == "respond" && DraftWords[3] == "write back";
    Contains(command, "draft") || Contains(command, "reply") || Contains(command, "respond")
    || Contains(command, "write back")
  }

  const DraftWords: seq<string> := ["draft", "reply", "respond", "write back"]
  const SendWords: seq<string> := ["send reply", "send it", "yes send"]

  /** `is_send_reply` (bot.py line 250). */
  predicate IsSendRequest(command: string): (r: bool)
    ensures r <==> exists i :: 0 <= i < |SendWords| && Contains(command, SendWords[i])
  {
    assert |SendWords| == 3 && SendWords[0] == "send reply" && SendWords[1] == "send it" && SendWords[2] == "yes send";
    Contains(command, "send reply") || Contains(command, "send it") || Contains(command, "yes send")
  }

  /** The cancel test (bot.py line 319). */
  predicate IsCancelRequest(command: string) {
    Contains(command, "cancel")
  }

  const HintKeywords: seq<string> := ["saying", "that", "with", "message"]

  /** The first two letters of one of the keywords. */
  predicate KeywordStart(a: char, b: char) {
    (a == 's' && b == 'a') || (a == 't' && b == 'h') || (a == 'w' && b == 'i') || (a == 'm' && b == 'e')
  }

  /** The end of the alternative `saying|that|with|message` matched at `p`, tried in that order. */
  function KeywordEnd(s: string, p: nat): (r: Option<nat>)
    ensures r.Some? ==> p + 2 < r.value <= |s| && KeywordStart(s[p], s[p + 1])
    ensures r.Some? <==> p <= |s| && exists i :: 0 <= i < |HintKeywords| && StartsWith(s[p..], HintKeywords[i])
    ensures forall i :: 0 <= i < |HintKeywords| && p <= |s| && StartsWith(s[p..], HintKeywords[i]) ==>
      r == Some(p + |HintKeywords[i]|)
  {
    if p > |s| then None
    else if StartsWith(s[p..], "saying") then assert HintKeywords[0] == "saying"; Some(p + 6)
    else if StartsWith(s[p..], "that") then assert HintKeywords[1] == "that"; Some(p + 4)
    else if StartsWith(s[p..], "with") then assert HintKeywords[2] == "with"; Some(p + 4)
    else if StartsWith(s[p..], "message") then assert HintKeywords[3] == "message"; Some(p + 7)
    else None
  }

  /** The end of the line that starts at `k`: what `.+` takes from `k`. */
  function LineEnd(s: string, k: nat): (e: nat)
    requires k <= |s|
    ensures k <= e <= |s|
    ensures '\n' !in s[k..e]
    ensures e == |s| || s[e] == '\n'
  {
    var e := RunEnd(s, k, c => c != '\n');
    assert forall j :: 0 <= j < e - k ==> s[k..e][j] == s[k + j];
    e
  }

  /**
   * `\s+(.+)` once `\s+` may span `s[i..k]` at most: `.+` is tried after the
   * longest span first, then after shorter ones.
   */
  function HintFrom(s: string, i: nat, k: nat): (r: Option<string>)
    requires i < k <= |s|
    ensures r.Some? ==> r.value != [] && '\n' !in r.value
    decreases k
  {
    if k < |s| && s[k] != '\n' then Some(s[k..LineEnd(s, k)])
    else if k - 1 > i then HintFrom(s, i, k - 1)
    else None
  }

  /** The pattern `(?:saying|that|with|message)\s+(.+)` tried at `p`. */
  function HintAt(s: string, p: nat): (r: Option<string>)
    ensures r.Some? ==> r.value != [] && '\n' !in r.value
  {
    match KeywordEnd(s, p)
    case None => None
    case Some(i) =>
      var j := RunEnd(s, i, IsSpace);
      if j > i then HintFrom(s, i, j) else None
  }

  function SearchHint(s: string, p: nat): (r: Option<string>)
    ensures r.Some? ==> r.value != [] && '\n' !in r.value
    decreases |s| + 1 - p
  {
    if p > |s| then None
    else if HintAt(s, p).Some? then HintAt(s, p)
    else SearchHint(s, p + 1)
  }

  /**
   * The reply hint of a lower-cased command (bot.py lines 260-264): what
   * follows the first "saying", "that", "with" or "message" and whitespace,
   * up to the end of that line; `None` where the pattern does not match.
   */
  function ReplyHint(command: string): (r: Option<string>)
    ensures r.Some? ==> r.value != [] && '\n' !in r.value
  {
    SearchHint(command, 0)
  }

  /** `re.search(r'<(.+?)>', s)` at `p`: the shortest non-empty group before a `>`, on one line. */
  function CloseFrom(s: string, start: nat, k: nat): (r: Option<string>)
    requires start < k <= |s|
    requires forall j :: start <= j < k - 1 ==> s[j] != '\n'
    ensures r.Some? ==> r.value != [] && '\n' !in r.value
    ensures r.Some? ==> start + |r.value| < |s| && s[start..start + |r.value|] == r.value && s[start + |r.value|] == '>'
    decreases |s| - k
  {
    if s[k - 1] == '\n' then None
    else if k < |s| && s[k] == '>' then Some(s[start..k])
    else if k < |s| then CloseFrom(s, start, k + 1)
    else None
  }

  /** `r` stands between a `<` at `i` and the `>` right after it. */
  predicate InAngles(s: string, i: nat, r: string) {
    i + |r| + 1 < |s| && s[i] == '<' && s[i + 1..i + 1 + |r|] == r && s[i + 1 + |r|] == '>'
  }

  function AngleAt(s: string, p: nat): (r: Option<string>)
    ensures r.Some? ==> r.value != [] && '\n' !in r.value && InAngles(s, p, r.value)
  {
    if p + 1 < |s| && s[p] == '<' then CloseFrom(s, p + 1, p + 2) else None
  }

  function SearchAngle(s: string, p: nat): (r: Option<string>)
    ensures r.Some? ==> r.value != [] && '\n' !in r.value && exists i :: InAngles(s, i, r.value)
    decreases |s| + 1 - p
  {
    if p > |s| then None
    else if AngleAt(s, p).Some? then AngleAt(s, p)
    else SearchAngle(s, p + 1)
  }

  /**
   * The recipient of a reply (bot.py lines 267-268): the text inside the
   * first `<...>` of the From header, otherwise the header stripped.
   */
  function Recipient(from: string): (r: string)
    ensures r == Strip(from) || (r != [] && '\n' !in r && exists i :: InAngles(from, i, r))
  {
    match SearchAngle(from, 0)
    case Some(address) => address
    case None => Strip(from)
  }

  /**
   * The subject of a reply (bot.py line 271): kept when it already starts with
   * "re:" in any case, otherwise prefixed with "Re: ". Either way the result
   * starts with "re:" in some case and ends with the original subject.
   */
  function ReplySubject(subject: string): (r: string)
    ensures StartsWith(Lower(r), "re:")
    ensures EndsWith(r, subject)
    ensures StartsWith(Lower(subject), "re:") ==> r == subject
    ensures !StartsWith(Lower(subject), "re:") ==> r == "Re: " + subject
  {
    if StartsWith(Lower(subject), "re:") then subject else "Re: " + subject
  }
}
