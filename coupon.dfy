/**
 * Coupon-code extraction and validation (test.py:174-186).
 *
 * The text of the coupon element is stripped of surrounding whitespace, cut at
 * the first single space character (`split(' ')[0]`, which does NOT split at tabs
 * or newlines), and the leading token is accepted only when it is longer than five
 * characters and made of alphanumerics and hyphens.
 *
 * Python's `str.isspace` and `str.isalnum` are Unicode-aware; this model uses
 * their ASCII parts (see IsSpace and IsAlnum).
 */
module Coupon {
  import opened Wrappers

  /** Why a text was not accepted as a coupon code. */
  datatype ExtractError =
    | EmptyText                   // the element contained no text once stripped
    | NotACoupon(text: string)    // the stripped text whose first token failed the pattern

  /** The ASCII characters for which Python's `str.isspace` holds:
      tab, line feed, vertical tab, form feed, carriage return, the four
      information separators 0x1C-0x1F, and the space. */
  predicate IsSpace(c: char) {
    ('\t' <= c <= '\r') || ('\U{1C}' <= c <= '\U{1F}') || c == ' '
  }

  /** ASCII letters and digits (the ASCII part of Python's `str.isalnum`). */
  predicate IsAlnum(c: char) {
    ('a' <= c <= 'z') || ('A' <= c <= 'Z') || ('0' <= c <= '9')
  }

  /** A character allowed in a coupon code: `c.isalnum() or c == '-'`. */
  predicate IsCouponChar(c: char) {
    IsAlnum(c) || c == '-'
  }

  predicate AllSpace(s: string) {
    forall i :: 0 <= i < |s| ==> IsSpace(s[i])
  }

  /** The acceptance rule of test.py:178. */
  predicate LooksLikeCoupon(token: string) {
    |token| > 5 && forall i :: 0 <= i < |token| ==> IsCouponChar(token[i])
  }

  /** Leading whitespace removed: the longest suffix of `s` not starting with whitespace. */
  function StripLeft(s: string): (r: string)
    ensures |r| <= |s| && r == s[|s| - |r|..]
    ensures AllSpace(s[..|s| - |r|])
    ensures r == [] || !IsSpace(r[0])
  {
    if |s| > 0 && IsSpace(s[0]) then
      var r := StripLeft(s[1..]);
      SpaceThenSpaces(s, s[1..], r);
      r
    else s
  }

  /** A whitespace character followed by whitespace. */
  lemma SpaceThenSpaces(s: string, tail: string, r: string)
    requires s != [] && tail == s[1..] && IsSpace(s[0])
    requires |r| <= |tail| && AllSpace(tail[..|tail| - |r|])
    ensures AllSpace(s[..|s| - |r|])
  {
    assert s[..|s| - |r|] == [s[0]] + tail[..|tail| - |r|];
  }

  /** Trailing whitespace removed: the longest prefix of `s` not ending in whitespace. */
  function StripRight(s: string): (r: string)
    ensures |r| <= |s| && r == s[..|r|]
    ensures AllSpace(s[|r|..])
    ensures r == [] || !IsSpace(r[|r| - 1])
  {
    if |s| > 0 && IsSpace(s[|s| - 1]) then
      var r := StripRight(s[..|s| - 1]);
      SpacesThenSpace(s, s[..|s| - 1], r);
      r
    else s
  }

  /** Whitespace followed by a whitespace character. */
  lemma SpacesThenSpace(s: string, init: string, r: string)
    requires s != [] && init == s[..|s| - 1] && IsSpace(s[|s| - 1])
    requires |r| <= |init| && AllSpace(init[|r|..])
    ensures AllSpace(s[|r|..])
  {
    assert s[|r|..] == init[|r|..] + [s[|s| - 1]];
  }

  /** Python's `s.strip()`. */
  function Strip(s: string): (r: string)
    ensures r == [] <==> AllSpace(s)
    ensures r != [] ==> !IsSpace(r[0]) && !IsSpace(r[|r| - 1])
    ensures |r| <= |s|
  {
    StripRight(StripLeft(s))
  }

  /** `r` is `s[k..k + |r|]` and only whitespace surrounds it in `s`. */
  predicate Middle(s: string, k: int, r: string) {
    0 <= k && k + |r| <= |s| && r == s[k..k + |r|] && AllSpace(s[..k]) && AllSpace(s[k + |r|..])
  }

  /** `s.strip()` is the middle of `s`: only whitespace is cut on either side. */
  lemma StripMiddle(s: string)
    ensures Middle(s, |s| - |StripLeft(s)|, Strip(s))
  {
    StripParts(s, StripLeft(s), Strip(s));
  }

  /** The right strip of the left strip is the middle of the text. */
  lemma StripParts(s: string, left: string, r: string)
    requires |left| <= |s| && left == s[|s| - |left|..] && AllSpace(s[..|s| - |left|])
    requires |r| <= |left| && r == left[..|r|] && AllSpace(left[|r|..])
    ensures Middle(s, |s| - |left|, r)
  {
    var k := |s| - |left|;
    assert s[k..k + |r|] == left[..|r|];
    assert s[k + |r|..] == left[|r|..];
  }

  /** `s.split(' ')[0]`: everything before the first space character. */
  function FirstToken(s: string): (r: string)
    ensures |r| <= |s| && r == s[..|r|]
    ensures ' ' !in r
    ensures |r| < |s| ==> s[|r|] == ' '
  {
    if s == [] || s[0] == ' ' then [] else [s[0]] + FirstToken(s[1..])
  }

  /** test.py:174-186: the coupon code carried by the element's text, or why there is none. */
  function Extract(text: string): (r: Result<string, ExtractError>)
    ensures r == Err(EmptyText) <==> AllSpace(text)
    ensures r.Ok? ==> LooksLikeCoupon(r.value) && r.value <= Strip(text)
    ensures r.Err? && r.error.NotACoupon? ==> r.error.text == Strip(text) != []
  {
    var stripped := Strip(text);
    if stripped == [] then Err(EmptyText)
    else
      var token := FirstToken(stripped);
      if LooksLikeCoupon(token) then Ok(token) else Err(NotACoupon(stripped))
  }

  // ---------------------------------------------------------------------------
  // Properties of stripping and cutting
  // ---------------------------------------------------------------------------

  /** Text that already has no surrounding whitespace is left as it is. */
  lemma StripOfTrimmed(t: string)
    requires t == [] || (!IsSpace(t[0]) && !IsSpace(t[|t| - 1]))
    ensures Strip(t) == t
  {
  }

  /** Stripping is idempotent. */
  lemma StripIdempotent(s: string)
    ensures Strip(Strip(s)) == Strip(s)
  {
    StripOfTrimmed(Strip(s));
  }

  /** Whitespace after a part that ends in a non-space character never eats into that part. */
  lemma {:induction false} StripRightAfter(u: string, v: string)
    requires u != [] && !IsSpace(u[|u| - 1])
    ensures StripRight(u + v) == u + StripRight(v)
    decreases |v|
  {
    if |v| > 0 && IsSpace(v[|v| - 1]) {
      assert (u + v)[..|u + v| - 1] == u + v[..|v| - 1];
      StripRightAfter(u, v[..|v| - 1]);
    } else {
      assert v == [] ==> u + v == u;
    }
  }

  /** The first token of `a + b` runs on through `b` when `a` holds no space. */
  lemma {:induction false} FirstTokenAfter(a: string, b: string)
    requires ' ' !in a
    ensures FirstToken(a + b) == a + FirstToken(b)
    decreases |a|
  {
    if a == [] {
      assert a + b == b;
    } else {
      var tail := a[1..];
      assert a + b == [a[0]] + (tail + b);
      FirstTokenCons(a[0], tail + b);
      assert ' ' !in tail by {
        forall c | c in tail ensures c != ' ' { assert c in a; }
      }
      FirstTokenAfter(tail, b);
      assert [a[0]] + (tail + FirstToken(b)) == a + FirstToken(b) by {
        assert a == [a[0]] + tail;
      }
    }
  }

  /** A character other than the space starts the first token. */
  lemma FirstTokenCons(c: char, t: string)
    requires c != ' '
    ensures FirstToken([c] + t) == [c] + FirstToken(t)
  {
    assert ([c] + t)[1..] == t;
  }

  /** A token free of whitespace followed by a space and anything at all: the token is
      what gets validated, and it alone decides acceptance. */
  lemma TokenThenSpace(token: string, rest: string)
    requires token != [] && forall i :: 0 <= i < |token| ==> !IsSpace(token[i])
    ensures Strip(token + " " + rest) == token + StripRight(" " + rest)
    ensures Extract(token + " " + rest) ==
              if LooksLikeCoupon(token) then Ok(token) else Err(NotACoupon(token + StripRight(" " + rest)))
  {
    var text := token + " " + rest;
    assert StripLeft(text) == text by { assert text[0] == token[0]; }
    assert text == token + (" " + rest);
    StripRightAfter(token, " " + rest);
    var tail := StripRight(" " + rest);
    assert Strip(text) == token + tail;
    assert ' ' !in token by {
      forall i | 0 <= i < |token| ensures token[i] != ' ' { assert !IsSpace(token[i]); }
    }
    FirstTokenAfter(token, tail);
    assert FirstToken(tail) == [] by {
      if tail != [] { assert tail[0] == ' '; }
    }
    assert token + [] == token;
    assert FirstToken(Strip(text)) == token;
  }

  /** A coupon code followed by a space and anything at all is extracted as that code. */
  lemma CodeThenSpace(code: string, rest: string)
    requires LooksLikeCoupon(code)
    ensures Extract(code + " " + rest) == Ok(code)
  {
    forall i | 0 <= i < |code| ensures !IsSpace(code[i]) { assert IsCouponChar(code[i]); }
    TokenThenSpace(code, rest);
  }

  /** A coupon code on its own is extracted as itself. */
  lemma CodeAlone(code: string)
    requires LooksLikeCoupon(code)
    ensures Extract(code) == Ok(code)
  {
    assert !IsSpace(code[|code| - 1]) && !IsSpace(code[0]);
    StripOfTrimmed(code);
    assert ' ' !in code by {
      forall i | 0 <= i < |code| ensures code[i] != ' ' { assert IsCouponChar(code[i]); }
    }
    FirstTokenAfter(code, []);
    assert code + [] == code;
  }

  /** Only the space character separates the code: a tab after a valid code (with more
      text behind it) stays inside the first token, and the text is rejected. */
  lemma CodeThenTab(code: string, rest: string)
    requires LooksLikeCoupon(code)
    requires rest != [] && !IsSpace(rest[|rest| - 1])
    ensures Extract(code + "\t" + rest) == Err(NotACoupon(code + "\t" + rest))
  {
    var head := code + "\t";
    var text := head + rest;
    assert text[0] == code[0] && IsCouponChar(code[0]);
    assert text[|text| - 1] == rest[|rest| - 1];
    StripOfTrimmed(text);
    NoSpaceBeforeTab(code);
    FirstTokenAfter(head, rest);
    TabRefused(code, FirstToken(rest));
  }

  /** A token with a tab in it is refused. */
  lemma TabRefused(code: string, more: string)
    ensures !LooksLikeCoupon(code + "\t" + more)
  {
    var token := code + "\t" + more;
    assert token[|code|] == '\t';
    BadCharRefused(token, |code|);
  }

  /** A token with a character other than alphanumerics and hyphens is refused. */
  lemma BadCharRefused(token: string, i: nat)
    requires i < |token| && !IsCouponChar(token[i])
    ensures !LooksLikeCoupon(token)
  {
  }

  lemma NoSpaceBeforeTab(code: string)
    requires LooksLikeCoupon(code)
    ensures ' ' !in code + "\t"
  {
    forall i | 0 <= i < |code| ensures code[i] != ' ' {
      assert IsCouponChar(code[i]);
    }
    assert (code + "\t")[|code|] == '\t';
  }

  /** The accepted example of the coupon rule. */
  lemma AcceptedExample()
    ensures Extract("ABC-12345 x") == Ok("ABC-12345")
  {
    assert "ABC-12345 x" == "ABC-12345" + " " + "x";
    CodeThenSpace("ABC-12345", "x");
  }

  /** A token of four characters is too short. */
  lemma ShortExample()
    ensures Extract("AB-1 x") == Err(NotACoupon("AB-1 x"))
  {
    assert StripRight(" x") == " x";
    assert "AB-1 x" == "AB-1" + " " + "x";
    TokenThenSpace("AB-1", "x");
  }

  /** Characters other than alphanumerics and hyphens reject the token. */
  lemma BadCharExample()
    ensures Extract("ABCDE!@# x") == Err(NotACoupon("ABCDE!@# x"))
  {
    assert StripRight(" x") == " x";
    assert "ABCDE!@# x" == "ABCDE!@#" + " " + "x";
    assert !IsCouponChar("ABCDE!@#"[5]);
    TokenThenSpace("ABCDE!@#", "x");
  }

  /** An accepted code is one token of more than five characters, with no
      whitespace in it; in particular it is a single line. */
  lemma ExtractedIsOneToken(text: string)
    ensures Extract(text).Ok? ==>
              |Extract(text).value| > 5 && forall c :: c in Extract(text).value ==> !IsSpace(c)
  {
    var r := Extract(text);
    if r.Ok? {
      CouponHasNoSpace(r.value);
    }
  }

  /** Coupon characters are never whitespace. */
  lemma CouponHasNoSpace(code: string)
    requires LooksLikeCoupon(code)
    ensures forall c :: c in code ==> !IsSpace(c)
  {
    forall c | c in code ensures !IsSpace(c) {
      var k :| 0 <= k < |code| && code[k] == c;
      assert IsCouponChar(code[k]);
    }
  }

  // ---------------------------------------------------------------------------
  // The rule for every text
  // ---------------------------------------------------------------------------

  /** `c` sits in `text` after leading whitespace only, and is followed by
      nothing but whitespace or by a space character: where `strip()` and
      `split(' ')[0]` cut it out. */
  predicate IsSplit(text: string, k: int, c: string) {
    0 <= k && k + |c| <= |text| && AllSpace(text[..k]) && text[k..k + |c|] == c
    && (AllSpace(text[k + |c|..]) || text[k + |c|] == ' ')
  }

  /** Whitespace, a token free of whitespace, then nothing but whitespace or a
      space and anything: the token alone decides. It is returned when it
      passes the pattern; otherwise the stripped text is refused. */
  lemma ExtractAround(pre: string, token: string, post: string)
    requires AllSpace(pre) && token != [] && forall i :: 0 <= i < |token| ==> !IsSpace(token[i])
    requires AllSpace(post) || (post != [] && post[0] == ' ')
    ensures Extract(pre + token + post) ==
              if LooksLikeCoupon(token) then Ok(token) else Err(NotACoupon(token + StripRight(post)))
  {
    var tail := StripRight(post);
    StripAround(pre, token, post);
    assert ' ' !in token by {
      forall i | 0 <= i < |token| ensures token[i] != ' ' { assert !IsSpace(token[i]); }
    }
    assert tail == [] || tail[0] == ' ' by {
      if tail != [] && !AllSpace(post) { assert tail[0] == post[0]; }
    }
    TokenFirst(token, tail);
  }

  /** `strip()` of whitespace, a token and the rest keeps the token and the rest's left side. */
  lemma StripAround(pre: string, token: string, post: string)
    requires AllSpace(pre) && token != [] && !IsSpace(token[0]) && !IsSpace(token[|token| - 1])
    ensures Strip(pre + token + post) == token + StripRight(post)
  {
    assert pre + token + post == pre + (token + post);
    assert (token + post)[0] == token[0];
    StripLeftAfterSpaces(pre, token + post);
    StripRightAfter(token, post);
  }

  /** A token free of spaces, then nothing or a space: the first token is the token. */
  lemma TokenFirst(token: string, tail: string)
    requires ' ' !in token && (tail == [] || tail[0] == ' ')
    ensures FirstToken(token + tail) == token
  {
    FirstTokenAfter(token, tail);
    assert token + [] == token;
  }

  /** Leading whitespace before a part that starts with a non-space character is all stripped. */
  lemma {:induction false} StripLeftAfterSpaces(pre: string, rest: string)
    requires AllSpace(pre) && rest != [] && !IsSpace(rest[0])
    ensures StripLeft(pre + rest) == rest
    decreases |pre|
  {
    if pre == [] {
      assert pre + rest == rest;
    } else {
      assert (pre + rest)[0] == pre[0];
      assert (pre + rest)[1..] == pre[1..] + rest;
      StripLeftAfterSpaces(pre[1..], rest);
    }
  }

  /** test.py:174-180 for every text: a code comes out exactly when it passes
      the pattern and is cut out of the text by `strip()` and `split(' ')[0]`. */
  lemma ExtractAccepts(text: string, c: string)
    ensures Extract(text) == Ok(c) <==> LooksLikeCoupon(c) && exists k :: IsSplit(text, k, c)
  {
    if Extract(text) == Ok(c) {
      TokenIsSplit(text);
    }
    if LooksLikeCoupon(c) && exists k :: IsSplit(text, k, c) {
      var k :| IsSplit(text, k, c);
      SplitAccepted(text, k, c);
    }
  }

  /** The first token of a non-blank text's stripped form is cut out right after
      the leading whitespace. */
  lemma TokenIsSplit(text: string)
    requires Strip(text) != []
    ensures IsSplit(text, |text| - |StripLeft(text)|, FirstToken(Strip(text)))
  {
    StripMiddle(text);
    TokenOfMiddle(text, |text| - |StripLeft(text)|, Strip(text), FirstToken(Strip(text)));
  }

  /** The part of a middle before its first space is split out of the text. */
  lemma TokenOfMiddle(text: string, k: int, middle: string, c: string)
    requires Middle(text, k, middle)
    requires |c| <= |middle| && c == middle[..|c|] && (|c| < |middle| ==> middle[|c|] == ' ')
    ensures IsSplit(text, k, c)
  {
    assert text[k..k + |c|] == middle[..|c|];
    if |c| < |middle| {
      assert text[k + |c|] == middle[|c|];
    } else {
      assert text[k + |c|..] == text[k + |middle|..];
    }
  }

  /** A coupon cut out of the text this way is accepted. */
  lemma SplitAccepted(text: string, k: int, c: string)
    requires LooksLikeCoupon(c) && IsSplit(text, k, c)
    ensures Extract(text) == Ok(c)
  {
    var pre, post := text[..k], text[k + |c|..];
    assert text == pre + c + post;
    CouponHasNoSpace(c);
    forall i | 0 <= i < |c| ensures !IsSpace(c[i]) { assert c[i] in c; }
    ExtractAround(pre, c, post);
  }

  /** A token of at most five characters is refused. */
  lemma ShortRefused(token: string)
    requires |token| <= 5
    ensures !LooksLikeCoupon(token)
  {
  }
}
