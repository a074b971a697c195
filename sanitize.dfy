/** The HTML sanitisation the contact route applies to a message before it is
    embedded in the HTML body of the outbound email: three global replaces, in
    this order, of `<` by `&lt;`, of `>` by `&gt;` and of a newline by `<br>`.
    The ampersand is not escaped. */
module Sanitize {
  import opened JsValues

  /** `s.replace(/c/g, rep)`: every occurrence of the character `c` replaced by `rep`. */
  function ReplaceAll(s: string, c: char, rep: string): (r: string)
    ensures c !in rep ==> c !in r
    ensures |r| >= |s| - Count(c, s)
  {
    if s == [] then []
    else (if s[0] == c then rep else [s[0]]) + ReplaceAll(s[1..], c, rep)
  }

  /** The number of occurrences of `c` in `s`. */
  function Count(c: char, s: string): nat {
    if s == [] then 0 else (if s[0] == c then 1 else 0) + Count(c, s[1..])
  }

  /** The replace chain of the contact route. */
  function SanitizeMessage(s: string): (r: string)
    ensures '\n' !in r
  {
    ReplaceAll(ReplaceAll(ReplaceAll(s, '<', "&lt;"), '>', "&gt;"), '\n', "<br>")
  }

  // ---------------------------------------------------------------------------
  // Reference definition: escaping one character at a time.

  function EscapeChar(x: char): string {
    if x == '<' then "&lt;"
    else if x == '>' then "&gt;"
    else if x == '\n' then "<br>"
    else [x]
  }

  function EscapeEach(s: string): string {
    if s == [] then [] else EscapeChar(s[0]) + EscapeEach(s[1..])
  }

  predicate IsSpecial(x: char) {
    x == '<' || x == '>' || x == '\n'
  }

  // ---------------------------------------------------------------------------
  // Lemmas about ReplaceAll and Count.

  lemma {:induction false} ReplaceAllAppend(a: string, b: string, c: char, rep: string)
    ensures ReplaceAll(a + b, c, rep) == ReplaceAll(a, c, rep) + ReplaceAll(b, c, rep)
  {
    if a == [] {
      assert a + b == b;
    } else {
      assert (a + b)[0] == a[0];
      assert (a + b)[1..] == a[1..] + b;
      ReplaceAllAppend(a[1..], b, c, rep);
    }
  }

  lemma {:induction false} ReplaceAllAbsent(s: string, c: char, rep: string)
    requires c !in s
    ensures ReplaceAll(s, c, rep) == s
  {
    if s != [] {
      assert s == [s[0]] + s[1..];
      ReplaceAllAbsent(s[1..], c, rep);
    }
  }

  lemma {:induction false} CountAppend(c: char, a: string, b: string)
    ensures Count(c, a + b) == Count(c, a) + Count(c, b)
  {
    if a == [] {
      assert a + b == b;
    } else {
      assert (a + b)[0] == a[0];
      assert (a + b)[1..] == a[1..] + b;
      CountAppend(c, a[1..], b);
    }
  }

  lemma {:induction false} CountZero(c: char, s: string)
    ensures Count(c, s) == 0 <==> c !in s
  {
    if s != [] {
      assert s == [s[0]] + s[1..];
      CountZero(c, s[1..]);
    }
  }

  // ---------------------------------------------------------------------------
  // The replace chain is the per-character escape.

  lemma ReplaceAllOne(x: char, c: char, rep: string)
    ensures ReplaceAll([x], c, rep) == if x == c then rep else [x]
  {
    assert [x][1..] == [];
  }

  /** One character through the three passes. */
  lemma SanitizeOneChar(x: char)
    ensures SanitizeMessage([x]) == EscapeChar(x)
  {
    var r1 := ReplaceAll([x], '<', "&lt;");
    ReplaceAllOne(x, '<', "&lt;");
    var r2 := ReplaceAll(r1, '>', "&gt;");
    if x == '<' {
      ReplaceAllAbsent(r1, '>', "&gt;");
      ReplaceAllAbsent(r2, '\n', "<br>");
    } else {
      ReplaceAllOne(x, '>', "&gt;");
      if x == '>' {
        ReplaceAllAbsent(r2, '\n', "<br>");
      } else {
        ReplaceAllOne(x, '\n', "<br>");
      }
    }
  }

  /** Sanitisation distributes over concatenation. */
  lemma SanitizeAppend(a: string, b: string)
    ensures SanitizeMessage(a + b) == SanitizeMessage(a) + SanitizeMessage(b)
  {
    var a1, b1 := ReplaceAll(a, '<', "&lt;"), ReplaceAll(b, '<', "&lt;");
    ReplaceAllAppend(a, b, '<', "&lt;");
    var a2, b2 := ReplaceAll(a1, '>', "&gt;"), ReplaceAll(b1, '>', "&gt;");
    ReplaceAllAppend(a1, b1, '>', "&gt;");
    ReplaceAllAppend(a2, b2, '\n', "<br>");
  }

  /** The replace chain escapes each character on its own: every `<`, `>` and
      newline becomes its replacement and every other character stays. */
  lemma {:induction false} SanitizeIsPerChar(s: string)
    ensures SanitizeMessage(s) == EscapeEach(s)
  {
    if s != [] {
      assert s == [s[0]] + s[1..];
      SanitizeAppend([s[0]], s[1..]);
      SanitizeOneChar(s[0]);
      SanitizeIsPerChar(s[1..]);
    }
  }

  lemma {:induction false} EscapeEachAppend(a: string, b: string)
    ensures EscapeEach(a + b) == EscapeEach(a) + EscapeEach(b)
  {
    if a == [] {
      assert a + b == b;
    } else {
      assert (a + b)[0] == a[0];
      assert (a + b)[1..] == a[1..] + b;
      EscapeEachAppend(a[1..], b);
    }
  }

  lemma {:induction false} EscapeEachPlain(s: string)
    requires forall k :: 0 <= k < |s| ==> !IsSpecial(s[k])
    ensures EscapeEach(s) == s
  {
    if s != [] {
      assert s == [s[0]] + s[1..];
      EscapeEachPlain(s[1..]);
    }
  }

  // ---------------------------------------------------------------------------
  // What the output contains.

  lemma EscapeCharCounts(x: char)
    ensures Count('<', EscapeChar(x)) == (if x == '\n' then 1 else 0)
    ensures Count('>', EscapeChar(x)) == (if x == '\n' then 1 else 0)
    ensures Count('\n', EscapeChar(x)) == 0
    ensures |EscapeChar(x)| == if IsSpecial(x) then 4 else 1
  {
    var e := EscapeChar(x);
    if IsSpecial(x) {
      assert e == [e[0]] + [e[1]] + [e[2]] + [e[3]];
      CountAppend('<', [e[0]] + [e[1]] + [e[2]], [e[3]]);
      CountAppend('<', [e[0]] + [e[1]], [e[2]]);
      CountAppend('<', [e[0]], [e[1]]);
      CountAppend('>', [e[0]] + [e[1]] + [e[2]], [e[3]]);
      CountAppend('>', [e[0]] + [e[1]], [e[2]]);
      CountAppend('>', [e[0]], [e[1]]);
      CountAppend('\n', [e[0]] + [e[1]] + [e[2]], [e[3]]);
      CountAppend('\n', [e[0]] + [e[1]], [e[2]]);
      CountAppend('\n', [e[0]], [e[1]]);
    }
  }

  function Specials(s: string): nat {
    Count('<', s) + Count('>', s) + Count('\n', s)
  }

  /** Each newline of the input yields exactly one `<` and one `>` in the output,
      no newline survives, and each special character grows the text by three. */
  lemma {:induction false} EscapeEachCounts(s: string)
    ensures Count('<', EscapeEach(s)) == Count('\n', s)
    ensures Count('>', EscapeEach(s)) == Count('\n', s)
    ensures Count('\n', EscapeEach(s)) == 0
    ensures |EscapeEach(s)| == |s| + 3 * Specials(s)
  {
    if s != [] {
      var e, t := EscapeChar(s[0]), EscapeEach(s[1..]);
      EscapeCharCounts(s[0]);
      EscapeEachCounts(s[1..]);
      CountAppend('<', e, t);
      CountAppend('>', e, t);
      CountAppend('\n', e, t);
    }
  }

  lemma NoSpecialsIsPlain(s: string)
    requires Specials(s) == 0
    ensures forall k :: 0 <= k < |s| ==> !IsSpecial(s[k])
  {
    CountZero('<', s);
    CountZero('>', s);
    CountZero('\n', s);
  }

  /** Sanitising a sanitised message changes it again exactly when the original
      held a newline: the `<br>` it produced is escaped the second time. A `<`
      or `>` alone is not enough, since `&lt;` and `&gt;` hold no character the
      chain replaces. */
  lemma SanitizeTwiceIff(s: string)
    ensures SanitizeMessage(SanitizeMessage(s)) == SanitizeMessage(s) <==> '\n' !in s
  {
    var t := SanitizeMessage(s);
    SanitizeIsPerChar(s);
    SanitizeIsPerChar(t);
    EscapeEachCounts(s);
    EscapeEachCounts(t);
    CountZero('\n', s);
    if '\n' !in s {
      assert Specials(t) == 0;
      NoSpecialsIsPlain(t);
      EscapeEachPlain(t);
    } else {
      assert Specials(t) > 0;
      assert |EscapeEach(t)| > |t|;
    }
  }

  lemma EscapedLessThan()
    ensures EscapeEach("&lt;") == "&lt;" && EscapeEach("<") == "&lt;"
  {
    EscapeEachPlain("&lt;");
    assert EscapeEach("<") == EscapeChar('<') + EscapeEach([]);
  }

  /** Because `&` is left alone, a message that already spells the entity is
      indistinguishable, once sanitised, from one holding the character:
      sanitisation is not injective. */
  lemma SanitizeNotInjective(a: string, b: string)
    ensures a + "&lt;" + b != a + "<" + b
    ensures SanitizeMessage(a + "&lt;" + b) == SanitizeMessage(a + "<" + b)
  {
    assert |a + "&lt;" + b| != |a + "<" + b|;
    SanitizeAppend(a + "&lt;", b);
    SanitizeAppend(a, "&lt;");
    SanitizeAppend(a + "<", b);
    SanitizeAppend(a, "<");
    SanitizeIsPerChar("&lt;");
    SanitizeIsPerChar("<");
    EscapedLessThan();
  }

  lemma EscapedScriptTag(tag: string)
    requires tag == "<script>"
    ensures EscapeEach(tag) == "&lt;script&gt;"
  {
    var lt, word, gt := tag[..1], tag[1..7], tag[7..];
    assert tag == lt + word + gt;
    EscapeEachAppend(lt + word, gt);
    EscapeEachAppend(lt, word);
    EscapeEachPlain(word);
    assert EscapeEach(lt) == EscapeChar('<') + EscapeEach([]);
    assert EscapeEach(gt) == EscapeChar('>') + EscapeEach([]);
  }

  /** A script tag anywhere in a message reaches the HTML body only in escaped
      form. */
  lemma SanitizeScriptTag(a: string, b: string)
    ensures SanitizeMessage(a + "<script>" + b) == SanitizeMessage(a) + "&lt;script&gt;" + SanitizeMessage(b)
  {
    var tag := "<script>";
    EscapedScriptTag(tag);
    SanitizeIsPerChar(tag);
    SanitizeAppend(a + tag, b);
    SanitizeAppend(a, tag);
  }

  // ---------------------------------------------------------------------------
  // Every angle bracket in the output belongs to a `<br>`.

  const Break: string := "<br>"

  predicate BracketsInBreaks(r: string) {
    forall i :: 0 <= i < |r| ==>
      (r[i] == '<' ==> OccursAt(r, Break, i)) && (r[i] == '>' ==> OccursAt(r, Break, i - 3))
  }

  lemma OccursInConcat(x: string, y: string, sub: string, i: int)
    ensures OccursAt(x, sub, i) ==> OccursAt(x + y, sub, i)
    ensures OccursAt(y, sub, i) ==> OccursAt(x + y, sub, |x| + i)
  {
    if OccursAt(x, sub, i) {
      assert (x + y)[i..i + |sub|] == x[i..i + |sub|];
    }
    if OccursAt(y, sub, i) {
      assert (x + y)[|x| + i..|x| + i + |sub|] == y[i..i + |sub|];
    }
  }

  lemma BreaksConcat(x: string, y: string)
    requires BracketsInBreaks(x) && BracketsInBreaks(y)
    ensures BracketsInBreaks(x + y)
  {
    var r := x + y;
    forall i | 0 <= i < |r|
      ensures (r[i] == '<' ==> OccursAt(r, Break, i)) && (r[i] == '>' ==> OccursAt(r, Break, i - 3))
    {
      if i < |x| {
        assert r[i] == x[i];
        OccursInConcat(x, y, Break, i);
        OccursInConcat(x, y, Break, i - 3);
      } else {
        var j := i - |x|;
        assert r[i] == y[j];
        OccursInConcat(x, y, Break, j);
        OccursInConcat(x, y, Break, j - 3);
      }
    }
  }

  lemma EscapeCharBrackets(x: char)
    ensures BracketsInBreaks(EscapeChar(x))
  {
    var e := EscapeChar(x);
    if x == '\n' {
      assert e[0..4] == Break;
    }
  }

  lemma {:induction false} EscapeEachBrackets(s: string)
    ensures BracketsInBreaks(EscapeEach(s))
  {
    if s != [] {
      EscapeCharBrackets(s[0]);
      EscapeEachBrackets(s[1..]);
      BreaksConcat(EscapeChar(s[0]), EscapeEach(s[1..]));
    }
  }

  /** No markup can be formed from the message: every `<` of the sanitised text
      starts a `<br>` and every `>` ends one, and there are exactly as many of
      them as there were newlines. */
  lemma SanitizeOnlyBreakTags(s: string)
    ensures BracketsInBreaks(SanitizeMessage(s))
    ensures Count('<', SanitizeMessage(s)) == Count('\n', s)
    ensures Count('>', SanitizeMessage(s)) == Count('\n', s)
  {
    SanitizeIsPerChar(s);
    EscapeEachBrackets(s);
    EscapeEachCounts(s);
  }
}
