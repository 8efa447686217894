/**
 * Properties of the command reading in module Commands: how typical
 * commands resolve, and how the local tests relate to each other.
 */
module CommandFacts {
  import opened Text
  import opened Options
  import opened NumberWords
  import opened Commands

  /** No "read" followed by whitespace starts at or after `p`. */
  predicate NoReadFrom(s: string, p: nat) {
    forall i :: p <= i <= |s| ==> LiteralThenSpace(s, i, "read").None?
  }

  lemma {:induction false} SearchesFindNothing(s: string, p: nat)
    requires NoReadFrom(s, p)
    ensures SearchReadDigits(s, p).None? && SearchReadWord(s, p).None?
    decreases |s| + 1 - p
  {
    if p <= |s| {
      SearchesFindNothing(s, p + 1);
    }
  }

  lemma LiteralThenSpaceIs(s: string, i: nat, lit: string, j: nat)
    requires i + |lit| < j <= |s| && s[i..i + |lit|] == lit
    requires forall k :: i + |lit| <= k < j ==> IsSpace(s[k])
    requires j == |s| || !IsSpace(s[j])
    ensures LiteralThenSpace(s, i, lit) == Some(j)
  {
    assert s[i..][..|lit|] == s[i..i + |lit|];
    RunEndIs(s, i + |lit|, IsSpace, j);
  }

  lemma LiteralThenSpaceFails(s: string, i: nat, lit: string)
    requires i + |lit| <= |s| && s[i..i + |lit|] == lit
    requires i + |lit| == |s| || !IsSpace(s[i + |lit|])
    ensures LiteralThenSpace(s, i, lit).None?
  {
    assert s[i..][..|lit|] == s[i..i + |lit|];
  }

  lemma ReadDigitsAtParts(s: string, q: nat, q1: nat, q2: nat, d: string)
    requires LiteralThenSpace(s, 0, "read") == Some(q)
    requires LiteralThenSpace(s, q, "email") == Some(q1)
    requires LiteralThenSpace(s, q1, "number") == Some(q2)
    requires DigitsAt(s, q2) == Some(d)
    ensures EmailNumber(s) == Some(ParseDec(d))
  {
    assert ReadDigitsAt(s, 0) == Some(d);
    assert SearchReadDigits(s, 0) == Some(d);
  }

  lemma ReadWordAtParts(s: string, q: nat, q1: nat, w: string)
    requires LiteralThenSpace(s, 0, "read") == Some(q)
    requires LiteralThenSpace(s, q, "email") == Some(q1)
    requires LiteralThenSpace(s, q1, "number").None?
    requires DigitsAt(s, q1).None?
    requires WordAt(s, q1) == Some(w)
    requires NoReadFrom(s, 1)
    ensures EmailNumber(s) == WordToNumber(w)
  {
    assert ReadDigitsAt(s, 0).None?;
    assert ReadWordAt(s, 0) == Some(w);
    SearchesFindNothing(s, 1);
    assert SearchReadDigits(s, 0).None?;
    assert SearchReadWord(s, 0) == Some(w);
  }

  lemma ReadEmailNumberPrefix(d: string)
    requires IsDigitString(d)
    ensures LiteralThenSpace("read email number " + d, 0, "read") == Some(5)
    ensures LiteralThenSpace("read email number " + d, 5, "email") == Some(11)
  {
    var s := "read email number " + d;
    assert s[0..4] == "read" && s[4] == ' ' && s[5] == 'e';
    LiteralThenSpaceIs(s, 0, "read", 5);
    assert s[5..10] == "email" && s[10] == ' ' && s[11] == 'n';
    LiteralThenSpaceIs(s, 5, "email", 11);
  }

  lemma ReadEmailNumberRest(d: string)
    requires IsDigitString(d)
    ensures LiteralThenSpace("read email number " + d, 11, "number") == Some(18)
    ensures DigitsAt("read email number " + d, 18) == Some(d)
  {
    var s := "read email number " + d;
    assert s[11..17] == "number" && s[17] == ' ';
    assert forall k :: 18 <= k < |s| ==> s[k] == d[k - 18];
    LiteralThenSpaceIs(s, 11, "number", 18);
    RunEndIs(s, 18, IsDigit, |s|);
    assert s[18..|s|] == d;
  }

  /** "read email number N" resolves to N for every N. */
  lemma ReadEmailNumberDigits(n: nat)
    ensures EmailNumber("read email number " + Dec(n)) == Some(n)
  {
    var d := Dec(n);
    ReadEmailNumberPrefix(d);
    ReadEmailNumberRest(d);
    ReadDigitsAtParts("read email number " + d, 5, 11, 18, d);
    ParseDecOfDec(n);
  }

  predicate AllLetters(w: string) {
    forall i :: 0 <= i < |w| ==> IsLetter(w[i])
  }

  lemma ReadEmailWordPrefix(w: string)
    requires |w| > 0 && AllLetters(w)
    ensures LiteralThenSpace("read email " + w, 0, "read") == Some(5)
    ensures LiteralThenSpace("read email " + w, 5, "email") == Some(11)
  {
    var s := "read email " + w;
    assert s[0..4] == "read" && s[4] == ' ' && s[5] == 'e';
    LiteralThenSpaceIs(s, 0, "read", 5);
    assert s[5..10] == "email" && s[10] == ' ' && s[11] == w[0];
    LiteralThenSpaceIs(s, 5, "email", 11);
  }

  lemma ReadEmailWordRest(w: string)
    requires |w| > 0 && AllLetters(w)
    ensures LiteralThenSpace("read email " + w, 11, "number").None?
    ensures DigitsAt("read email " + w, 11).None?
    ensures WordAt("read email " + w, 11) == Some(w)
  {
    var s := "read email " + w;
    assert forall k :: 11 <= k < |s| ==> s[k] == w[k - 11];
    if 17 <= |s| && s[11..17] == "number" {
      assert 17 == |s| || IsLetter(s[17]);
      LiteralThenSpaceFails(s, 11, "number");
    } else {
      assert !StartsWith(s[11..], "number") by {
        if 17 <= |s| { assert s[11..][..6] == s[11..17]; }
      }
    }
    assert RunEnd(s, 11, IsDigit) == 11 by { assert !IsDigit(s[11]); }
    RunEndIs(s, 11, IsWordChar, |s|);
    assert s[11..|s|] == w;
  }

  lemma ReadEmailWordNoOtherRead(w: string)
    requires |w| > 0 && AllLetters(w)
    ensures NoReadFrom("read email " + w, 1)
  {
    var s := "read email " + w;
    forall i | 1 <= i <= |s| ensures LiteralThenSpace(s, i, "read").None? {
      if i < 7 {
        assert s[i] != 'r';
        assert |s[i..]| >= 4 ==> s[i..][..4][0] == s[i];
      } else {
        assert i + 4 < |s| ==> s[i + 4] == w[i + 4 - 11] && !IsSpace(s[i + 4]);
      }
    }
  }

  /** "read email W", for a word W of letters, resolves to `_word_to_number(W)`. */
  lemma ReadEmailWord(w: string)
    requires |w| > 0 && AllLetters(w)
    ensures EmailNumber("read email " + w) == WordToNumber(w)
  {
    ReadEmailWordPrefix(w);
    ReadEmailWordRest(w);
    ReadEmailWordNoOtherRead(w);
    ReadWordAtParts("read email " + w, 5, 11, w);
  }

  predicate LowerLetters(w: string) {
    |w| > 0 && forall i :: 0 <= i < |w| ==> 'a' <= w[i] <= 'z'
  }

  lemma NumberWordsAreWords(k: nat)
    requires k < 10
    ensures LowerLetters(Cardinals[k]) && LowerLetters(Ordinals[k])
  {
  }

  /** A lower-case number word, after "read email ", selects its number. */
  lemma LowerWordAgrees(w: string, n: nat)
    requires LowerLetters(w) && 1 <= n <= 10
    requires w == Cardinals[n - 1] || w == Ordinals[n - 1]
    ensures EmailNumber("read email " + w) == Some(n)
  {
    assert AllLetters(w);
    ReadEmailWord(w);
    LowerOfLowerCase(w);
    WordToNumberExactly(w, n);
  }

  lemma CardinalAgrees(n: nat)
    requires 1 <= n <= 10
    ensures EmailNumber("read email " + Cardinals[n - 1]) == Some(n)
  {
    NumberWordsAreWords(n - 1);
    LowerWordAgrees(Cardinals[n - 1], n);
  }

  lemma OrdinalAgrees(n: nat)
    requires 1 <= n <= 10
    ensures EmailNumber("read email " + Ordinals[n - 1]) == Some(n)
  {
    NumberWordsAreWords(n - 1);
    LowerWordAgrees(Ordinals[n - 1], n);
  }

  /**
   * A digit and its number word select the same email: "read email number N"
   * and "read email <word for N>" both resolve to N.
   */
  lemma DigitAndWordAgree(n: nat)
    requires 1 <= n <= 10
    ensures EmailNumber("read email number " + Dec(n)) == Some(n)
    ensures EmailNumber("read email " + Cardinals[n - 1]) == Some(n)
    ensures EmailNumber("read email " + Ordinals[n - 1]) == Some(n)
  {
    ReadEmailNumberDigits(n);
    CardinalAgrees(n);
    OrdinalAgrees(n);
  }

  /** Every command that says "send reply" also passes the draft test. */
  lemma SendReplyIsDraftRequest(command: string)
    requires Contains(command, "send reply")
    ensures IsDraftRequest(command) && IsSendRequest(command)
  {
    assert "send reply" == "send " + "reply";
    ContainsTail(command, "send ", "reply");
  }

  /** "cancel the draft" and "cancel the reply" pass the draft test as well as the cancel test. */
  lemma CancelDraftIsDraftRequest(command: string)
    requires Contains(command, "cancel the draft") || Contains(command, "cancel the reply")
    ensures IsDraftRequest(command) && IsCancelRequest(command)
  {
    if Contains(command, "cancel the draft") {
      assert "cancel the draft" == "cancel the " + "draft" == "cancel" + " the draft";
      ContainsTail(command, "cancel the ", "draft");
      ContainsHead(command, "cancel", " the draft");
    } else {
      assert "cancel the reply" == "cancel the " + "reply" == "cancel" + " the reply";
      ContainsTail(command, "cancel the ", "reply");
      ContainsHead(command, "cancel", " the reply");
    }
  }

  lemma {:induction false} SearchHintSkips(s: string, p: nat, q: nat)
    requires p <= q <= |s| + 1
    requires forall j :: p <= j < q ==> HintAt(s, j).None?
    ensures SearchHint(s, p) == SearchHint(s, q)
    decreases q - p
  {
    if p < q {
      SearchHintSkips(s, p + 1, q);
    }
  }

  lemma NoKeywordAt(s: string, p: nat)
    requires p + 1 < |s| && !KeywordStart(s[p], s[p + 1])
    ensures HintAt(s, p).None?
  {
  }

  lemma SayingPrefixSkipped(x: string)
    ensures SearchHint("draft a reply saying " + x, 0) == SearchHint("draft a reply saying " + x, 14)
  {
    var s := "draft a reply saying " + x;
    var pre := "draft a reply ";
    assert s[..15] == pre + ['s'];
    forall j | 0 <= j < 14 ensures HintAt(s, j).None? {
      assert s[j] == pre[j] && s[j + 1] == (pre + ['s'])[j + 1];
      NoKeywordAt(s, j);
    }
    SearchHintSkips(s, 0, 14);
  }

  lemma SayingHintAt(x: string)
    requires x != [] && '\n' !in x && !IsSpace(x[0])
    ensures HintAt("draft a reply saying " + x, 14) == Some(x)
  {
    var s := "draft a reply saying " + x;
    assert s[14..][..6] == "saying";
    assert KeywordEnd(s, 14) == Some(20);
    assert s[20] == ' ' && s[21] == x[0];
    RunEndIs(s, 20, IsSpace, 21);
    assert forall k :: 21 <= k < |s| ==> s[k] == x[k - 21];
    RunEndIs(s, 21, c => c != '\n', |s|);
    assert s[21..|s|] == x;
  }

  /** The words after "saying" in "draft a reply saying ..." are the hint. */
  lemma ReplyHintAfterSaying(x: string)
    requires x != [] && '\n' !in x && !IsSpace(x[0])
    ensures ReplyHint("draft a reply saying " + x) == Some(x)
  {
    SayingPrefixSkipped(x);
    SayingHintAt(x);
  }

  lemma {:induction false} CloseFromFinds(s: string, start: nat, k: nat, close: nat)
    requires start < k <= close < |s| && s[close] == '>'
    requires forall j :: start <= j < close ==> s[j] != '>' && s[j] != '\n'
    ensures CloseFrom(s, start, k) == Some(s[start..close])
    decreases close - k
  {
    if k < close {
      CloseFromFinds(s, start, k + 1, close);
    }
  }

  lemma {:induction false} SearchAngleSkips(s: string, p: nat, q: nat)
    requires p <= q <= |s|
    requires forall j :: p <= j < q ==> s[j] != '<'
    ensures SearchAngle(s, p) == SearchAngle(s, q)
    decreases q - p
  {
    if p < q {
      SearchAngleSkips(s, p + 1, q);
    }
  }

  /** "Name <address>" yields the address. */
  lemma RecipientInAngles(name: string, address: string, rest: string)
    requires '<' !in name
    requires address != [] && '>' !in address && '\n' !in address
    ensures Recipient(name + "<" + address + ">" + rest) == address
  {
    var s := name + "<" + address + ">" + rest;
    var p := |name|;
    var close := p + 1 + |address|;
    assert forall j :: 0 <= j < p ==> s[j] == name[j];
    assert forall j :: p + 1 <= j < close ==> s[j] == address[j - p - 1];
    SearchAngleSkips(s, 0, p);
    CloseFromFinds(s, p + 1, p + 2, close);
    assert s[p + 1..close] == address;
  }

  /** A header with no `<` is used stripped. */
  lemma RecipientWithoutAngles(from: string)
    requires '<' !in from
    ensures Recipient(from) == Strip(from)
  {
    SearchAngleSkips(from, 0, |from|);
  }

  /** Deriving a reply subject twice gives the same as deriving it once. */
  lemma ReplySubjectIdempotent(subject: string)
    ensures ReplySubject(ReplySubject(subject)) == ReplySubject(subject)
  {
  }
}
