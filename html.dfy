/**
 * `EmailBot._strip_html` (telegram_bot/bot.py): tags become spaces, entities
 * are decoded, whitespace runs collapse to one space, the ends are stripped
 * and the text is cut to 800 characters.
 */
module Html {
  import opened Text

  /** The length to which `_strip_html` cuts its result. */
  const MaxBodyLength: nat := 800

  predicate NotClose(c: char) {
    c != '>'
  }

  /** No match of the pattern `<[^>]+>` anywhere in `s`. */
  predicate NoTag(s: string) {
    forall i :: 0 <= i < |s| && s[i] == '<' ==> (i + 1 < |s| && s[i + 1] == '>') || '>' !in s[i + 1..]
  }

  /** No two whitespace characters next to each other. */
  predicate NoDoubleSpace(s: string) {
    forall i :: 0 <= i < |s| - 1 ==> !(IsSpace(s[i]) && IsSpace(s[i + 1]))
  }

  /** Every whitespace character is a plain space. */
  predicate OnlyPlainSpaces(s: string) {
    forall i :: 0 <= i < |s| && IsSpace(s[i]) ==> s[i] == ' '
  }

  /**
   * `re.sub(r'<[^>]+>', ' ', s)`: scanning left to right, a `<` followed by at
   * least one character other than `>` and then a `>` is replaced, with
   * everything up to that `>`, by a single space.
   */
  function RemoveTags(s: string): (r: string)
    ensures |r| <= |s|
    ensures forall i :: 0 <= i < |r| ==> r[i] == ' ' || r[i] in s
    ensures s != [] && s[0] != '<' ==> r != [] && r[0] == s[0]
    decreases |s|
  {
    if s == [] then []
    else
      var k := RunEnd(s, 1, NotClose);
      if s[0] == '<' && 1 < k < |s| then
        var rest := RemoveTags(s[k + 1..]);
        assert forall i :: 0 <= i < |rest| ==> rest[i] == ' ' || rest[i] in s by {
          forall i | 0 <= i < |rest| && rest[i] != ' '
            ensures rest[i] in s
          {
            var c := rest[i];
            assert c in s[k + 1..];
            var j :| 0 <= j < |s[k + 1..]| && s[k + 1..][j] == c;
            assert s[k + 1 + j] == c;
          }
        }
        [' '] + rest
      else
        var rest := RemoveTags(s[1..]);
        assert forall i :: 0 <= i < |rest| ==> rest[i] == ' ' || rest[i] in s by {
          forall i | 0 <= i < |rest| && rest[i] != ' '
            ensures rest[i] in s
          {
            var c := rest[i];
            assert c in s[1..];
            var j :| 0 <= j < |s[1..]| && s[1..][j] == c;
            assert s[1 + j] == c;
          }
        }
        [s[0]] + rest
  }

  lemma NoTagCons(c: char, t: string)
    requires c != '<' && NoTag(t)
    ensures NoTag([c] + t)
  {
    var r := [c] + t;
    forall i | 0 <= i < |r| && r[i] == '<'
      ensures (i + 1 < |r| && r[i + 1] == '>') || '>' !in r[i + 1..]
    {
      assert r[i + 1..] == t[i..];
    }
  }

  /** After the substitution no tag is left: the substitution is complete. */
  lemma {:induction false} RemoveTagsLeavesNoTag(s: string)
    ensures NoTag(RemoveTags(s))
    decreases |s|
  {
    if s != [] {
      var k := RunEnd(s, 1, NotClose);
      if s[0] == '<' && 1 < k < |s| {
        RemoveTagsLeavesNoTag(s[k + 1..]);
        NoTagCons(' ', RemoveTags(s[k + 1..]));
      } else {
        var t := s[1..];
        var rest := RemoveTags(t);
        RemoveTagsLeavesNoTag(t);
        if s[0] == '<' {
          var r := [s[0]] + rest;
          assert r == RemoveTags(s);
          forall i | 0 <= i < |r| && r[i] == '<'
            ensures (i + 1 < |r| && r[i + 1] == '>') || '>' !in r[i + 1..]
          {
            if i == 0 {
              if k < |s| {
                assert k == 1 && s[1] == '>';
                assert rest[0] == '>';
              } else {
                assert '>' !in t by {
                  forall j | 0 <= j < |t| ensures t[j] != '>' {
                    assert NotClose(s[j + 1]);
                  }
                }
                assert '>' !in rest;
              }
            } else {
              assert r[i + 1..] == rest[i..];
            }
          }
        } else {
          NoTagCons(s[0], rest);
        }
      }
    }
  }

  /** Text without a `<` has no tag to remove. */
  lemma {:induction false} RemoveTagsWithoutAngle(s: string)
    requires '<' !in s
    ensures RemoveTags(s) == s
    decreases |s|
  {
    if s != [] {
      assert '<' !in s[1..];
      RemoveTagsWithoutAngle(s[1..]);
    }
  }

  /** A tag `<t>` becomes one space; the text before it, which holds no `<`, is kept. */
  lemma RemoveTagsReplacesTag(x: string, t: string, y: string)
    requires '<' !in x && t != [] && '>' !in t
    ensures RemoveTags(x + "<" + t + ">" + y) == x + " " + RemoveTags(y)
  {
    var tag := "<" + t + ">" + y;
    var rest := RemoveTags(y);
    calc {
      RemoveTags(x + "<" + t + ">" + y);
      { assert x + "<" + t + ">" + y == x + tag; }
      RemoveTags(x + tag);
      { RemoveTagsKeepsPrefix(x, tag); }
      x + RemoveTags(tag);
      { RemoveTagsAtTag(t, y); }
      x + (" " + rest);
      x + " " + rest;
    }
  }

  /** Text without `<` in front of `z` is kept as it is. */
  lemma {:induction false} RemoveTagsKeepsPrefix(x: string, z: string)
    requires '<' !in x
    ensures RemoveTags(x + z) == x + RemoveTags(z)
    decreases |x|
  {
    if x == [] {
      assert x + z == z;
    } else {
      assert x + z == [x[0]] + (x[1..] + z);
      assert '<' !in x[1..];
      RemoveTagsKeepsPrefix(x[1..], z);
      RemoveTagsCons(x[0], x[1..] + z);
      assert x == [x[0]] + x[1..];
    }
  }

  /** `<[^>]+>` needs a character between the brackets, so an empty `<>` is kept. */
  lemma RemoveTagsKeepsEmptyBrackets(x: string, y: string)
    requires '<' !in x
    ensures RemoveTags(x + "<>" + y) == x + "<>" + RemoveTags(y)
  {
    calc {
      RemoveTags(x + "<>" + y);
      { assert x + "<>" + y == x + ("<>" + y); }
      RemoveTags(x + ("<>" + y));
      { RemoveTagsKeepsPrefix(x, "<>" + y); }
      x + RemoveTags("<>" + y);
      { RemoveTagsAtEmptyBrackets(y); }
      x + ("<>" + RemoveTags(y));
      x + "<>" + RemoveTags(y);
    }
  }

  lemma RemoveTagsAtEmptyBrackets(y: string)
    ensures RemoveTags("<>" + y) == "<>" + RemoveTags(y)
  {
    var s := "<>" + y;
    calc {
      RemoveTags(s);
      { assert s[0] == '<' && s[1] == '>'; RunEndIs(s, 1, NotClose, 1); RemoveTagsKeepsAngle(s); }
      [s[0]] + RemoveTags(s[1..]);
      { assert s[0] == '<' && s[1..] == [s[1]] + y && s[1] == '>'; RemoveTagsCons('>', y); }
      "<" + (">" + RemoveTags(y));
      "<>" + RemoveTags(y);
    }
  }

  /** A `<` that does not open a tag is kept. */
  lemma RemoveTagsKeepsAngle(s: string)
    requires s != [] && !(s[0] == '<' && 1 < RunEnd(s, 1, NotClose) < |s|)
    ensures RemoveTags(s) == [s[0]] + RemoveTags(s[1..])
  {
  }

  lemma RemoveTagsAtTag(t: string, y: string)
    requires t != [] && '>' !in t
    ensures RemoveTags("<" + t + ">" + y) == " " + RemoveTags(y)
  {
    var s := "<" + t + ">" + y;
    assert forall k :: 1 <= k < 1 + |t| ==> s[k] == t[k - 1];
    RunEndIs(s, 1, NotClose, 1 + |t|);
    assert s[|t| + 2..] == y;
  }

  lemma RemoveTagsCons(c: char, rest: string)
    requires c != '<'
    ensures RemoveTags([c] + rest) == [c] + RemoveTags(rest)
  {
    assert ([c] + rest)[1..] == rest;
  }

  /** Without a `>` nothing can close a tag, so every `<` and the text are kept. */
  lemma {:induction false} RemoveTagsWithoutClose(s: string)
    requires '>' !in s
    ensures RemoveTags(s) == s
    decreases |s|
  {
    if s != [] {
      RunEndIs(s, 1, NotClose, |s|);
      assert '>' !in s[1..];
      RemoveTagsWithoutClose(s[1..]);
    }
  }

  /** `re.sub(r'\s+', ' ', s)`: each maximal run of whitespace becomes one space. */
  function CollapseSpaces(s: string): (r: string)
    ensures |r| <= |s|
    ensures (r == []) == (s == [])
    ensures r != [] ==> (IsSpace(r[0]) <==> IsSpace(s[0]))
    ensures NoDoubleSpace(r) && OnlyPlainSpaces(r)
    decreases |s|
  {
    if s == [] then []
    else if IsSpace(s[0]) then
      var j := RunEnd(s, 0, IsSpace);
      [' '] + CollapseSpaces(s[j..])
    else
      [s[0]] + CollapseSpaces(s[1..])
  }

  /** Collapsing whitespace keeps the text a reader sees: every other character, in order. */
  lemma {:induction false} CollapseSpacesKeepsText(s: string)
    ensures NonSpace(CollapseSpaces(s)) == NonSpace(s)
    decreases |s|
  {
    if s != [] {
      if IsSpace(s[0]) {
        var j := RunEnd(s, 0, IsSpace);
        assert j > 0;
        CollapseSpacesKeepsText(s[j..]);
        assert s == s[..j] + s[j..];
        NonSpaceAppend(s[..j], s[j..]);
        NonSpaceOfSpaces(s[..j]);
        NonSpaceAppend([' '], CollapseSpaces(s[j..]));
      } else {
        CollapseSpacesKeepsText(s[1..]);
        NonSpaceAppend([s[0]], CollapseSpaces(s[1..]));
      }
    }
  }

  /**
   * A run of whitespace between two pieces of text becomes exactly one space,
   * and each piece is collapsed on its own.
   */
  lemma {:induction false} CollapseSpacesRun(x: string, w: string, y: string)
    requires x == [] || !IsSpace(x[|x| - 1])
    requires w != [] && forall i :: 0 <= i < |w| ==> IsSpace(w[i])
    requires y == [] || !IsSpace(y[0])
    ensures CollapseSpaces(x + w + y) == CollapseSpaces(x) + " " + CollapseSpaces(y)
    decreases |x|
  {
    if x == [] {
      assert x + w + y == w + y;
      CollapseSpacesAtRun(w, y);
    } else {
      var front, rest := CollapseSpacesFront(x, w, y);
      CollapseSpacesRun(rest, w, y);
      SpaceJoin(CollapseSpaces(x), front, CollapseSpaces(rest), CollapseSpaces(y), CollapseSpaces(x + w + y));
    }
  }

  lemma SpaceJoin(whole: string, front: string, a: string, b: string, joined: string)
    requires whole == front + a && joined == front + (a + " " + b)
    ensures joined == whole + " " + b
  {
  }

  lemma CollapseSpacesAtRun(w: string, y: string)
    requires w != [] && forall i :: 0 <= i < |w| ==> IsSpace(w[i])
    requires y == [] || !IsSpace(y[0])
    ensures CollapseSpaces(w + y) == " " + CollapseSpaces(y)
  {
    var s := w + y;
    assert forall k :: 0 <= k < |w| ==> IsSpace(s[k]);
    assert |w| == |s| || !IsSpace(s[|w|]);
    RunEndIs(s, 0, IsSpace, |w|);
    assert s[|w|..] == y;
  }

  /**
   * The first step of the collapse on `x + w + y`, where `x` ends in a visible
   * character, consumes a part of `x` only: a leading run of whitespace or one
   * visible character, leaving `rest`.
   */
  lemma CollapseSpacesFront(x: string, w: string, y: string) returns (front: string, rest: string)
    requires x != [] && !IsSpace(x[|x| - 1])
    ensures |rest| < |x| && (rest == [] || !IsSpace(rest[|rest| - 1]))
    ensures CollapseSpaces(x) == front + CollapseSpaces(rest)
    ensures CollapseSpaces(x + w + y) == front + CollapseSpaces(rest + w + y)
  {
    var s := x + w + y;
    assert s[0] == x[0];
    var j := 1;
    if IsSpace(x[0]) {
      j := RunEnd(x, 0, IsSpace);
      assert forall k :: 0 <= k < j ==> IsSpace(s[k]);
      assert j < |x|;
      assert !IsSpace(s[j]);
      RunEndIs(s, 0, IsSpace, j);
      front := " ";
    } else {
      front := [x[0]];
    }
    rest := x[j..];
    assert s[j..] == rest + w + y;
  }

  /** Text whose only whitespace is single plain spaces is unchanged by the collapse. */
  lemma {:induction false} CollapseSpacesUnchanged(s: string)
    requires NoDoubleSpace(s) && OnlyPlainSpaces(s)
    ensures CollapseSpaces(s) == s
    decreases |s|
  {
    if s != [] {
      assert NoDoubleSpace(s[1..]) && OnlyPlainSpaces(s[1..]) by {
        forall i | 0 <= i < |s[1..]| - 1 ensures !(IsSpace(s[1..][i]) && IsSpace(s[1..][i + 1])) {
          assert s[1..][i] == s[i + 1];
        }
      }
      if IsSpace(s[0]) {
        assert RunEnd(s, 0, IsSpace) == 1;
      }
      CollapseSpacesUnchanged(s[1..]);
    }
  }

  lemma SliceKeepsSpacing(s: string, a: nat, b: nat)
    requires a <= b <= |s|
    requires NoDoubleSpace(s) && OnlyPlainSpaces(s)
    ensures NoDoubleSpace(s[a..b]) && OnlyPlainSpaces(s[a..b])
  {
    var t := s[a..b];
    forall i | 0 <= i < |t| - 1 ensures !(IsSpace(t[i]) && IsSpace(t[i + 1])) {
      assert t[i] == s[a + i] && t[i + 1] == s[a + i + 1];
    }
    forall i | 0 <= i < |t| && IsSpace(t[i]) ensures t[i] == ' ' {
      assert t[i] == s[a + i];
    }
  }

  /** What `_strip_html` makes of a non-empty text before cutting it to 800 characters. */
  function Cleaned(unescape: string -> string, text: string): string {
    Strip(CollapseSpaces(unescape(RemoveTags(text))))
  }

  /**
   * `_strip_html(text)`. An empty text is returned as it is; any other text
   * comes back at most 800 characters long, starting with no whitespace and
   * with no two whitespace characters in a row, every one a plain space.
   * What a reader sees of the text with its tags removed and its entities
   * decoded is kept, in order: all of it when the cleaned text fits in 800
   * characters, otherwise a beginning of it. `unescape` stands for
   * `html.unescape`, about which nothing is assumed.
   */
  function StripHtml(unescape: string -> string, text: string): (r: string)
    ensures text == "" ==> r == text
    ensures |r| <= MaxBodyLength
    ensures r == [] || !IsSpace(r[0])
    ensures NoDoubleSpace(r) && OnlyPlainSpaces(r)
    ensures text != "" ==> StartsWith(NonSpace(unescape(RemoveTags(text))), NonSpace(r))
    ensures text != "" && |Cleaned(unescape, text)| <= MaxBodyLength ==>
      NonSpace(r) == NonSpace(unescape(RemoveTags(text)))
    ensures text != "" ==> StartsWith(Cleaned(unescape, text), r)
    ensures text != "" ==> |r| == Min(|Cleaned(unescape, text)|, MaxBodyLength)
  {
    if text == "" then text
    else
      CleanedIsClean(unescape, text);
      CutToMax(Cleaned(unescape, text))
  }

  /** The cleaned text is single-spaced, starts with no whitespace, and keeps what a reader sees. */
  lemma CleanedIsClean(unescape: string -> string, text: string)
    ensures var clean := Cleaned(unescape, text);
      && (clean == [] || !IsSpace(clean[0]))
      && NoDoubleSpace(clean) && OnlyPlainSpaces(clean)
      && NonSpace(clean) == NonSpace(unescape(RemoveTags(text)))
  {
    var decoded := unescape(RemoveTags(text));
    var collapsed := CollapseSpaces(decoded);
    var clean := Strip(collapsed);
    var left := StripLeft(collapsed);
    SliceKeepsSpacing(collapsed, |collapsed| - |left|, |collapsed|);
    SliceKeepsSpacing(left, 0, |clean|);
    CollapseSpacesKeepsText(decoded);
    NonSpaceOfStrip(collapsed);
  }

  /** `clean[:800]`: a beginning of the text, all of it when it fits. */
  function CutToMax(clean: string): (r: string)
    requires clean == [] || !IsSpace(clean[0])
    requires NoDoubleSpace(clean) && OnlyPlainSpaces(clean)
    ensures |r| <= MaxBodyLength
    ensures r == [] || !IsSpace(r[0])
    ensures NoDoubleSpace(r) && OnlyPlainSpaces(r)
    ensures StartsWith(NonSpace(clean), NonSpace(r))
    ensures |clean| <= MaxBodyLength ==> r == clean
    ensures StartsWith(clean, r) && |r| == Min(|clean|, MaxBodyLength)
  {
    if |clean| <= MaxBodyLength then clean
    else
      SliceKeepsSpacing(clean, 0, MaxBodyLength);
      NonSpaceOfPrefix(clean, MaxBodyLength);
      clean[..MaxBodyLength]
  }

  /**
   * Plain text that is already clean (no `<`, nothing for `unescape` to
   * decode, single plain spaces, no whitespace at the ends, within 800
   * characters) comes back unchanged.
   */
  lemma {:induction false} StripHtmlKeepsCleanText(unescape: string -> string, text: string)
    requires '<' !in text && unescape(text) == text
    requires NoDoubleSpace(text) && OnlyPlainSpaces(text)
    requires text == [] || (!IsSpace(text[0]) && !IsSpace(text[|text| - 1]))
    requires |text| <= MaxBodyLength
    ensures StripHtml(unescape, text) == text
  {
    if text != "" {
      RemoveTagsWithoutAngle(text);
      CollapseSpacesUnchanged(text);
      StripUnchanged(text);
    }
  }
}
