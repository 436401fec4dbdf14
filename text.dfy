/**
 * The Ruby and ActiveSupport string operations the core relies on, over strings of
 * Unicode code points: `blank?`, `strip`, `downcase`, `Integer#to_s`, prefix and
 * substring tests, and character filtering (`gsub` with a negated character class).
 */
module Text {
  import opened Wrappers

  /** A character of `[[:space:]]` (Unicode White_Space), the class `String#blank?` tests. */
  predicate IsUnicodeSpace(c: char)
  {
    c == ' ' || ('\t' <= c <= '\r') || c == '\U{0085}' || c == '\U{00A0}' || c == '\U{1680}'
    || ('\U{2000}' <= c <= '\U{200A}') || c == '\U{2028}' || c == '\U{2029}' || c == '\U{202F}'
    || c == '\U{205F}' || c == '\U{3000}'
  }

  /** `Object#blank?` for a value that is nil or a String. */
  predicate IsBlank(s: Option<string>)
  {
    s.None? || forall i :: 0 <= i < |s.value| ==> IsUnicodeSpace(s.value[i])
  }

  /** A character `String#strip` removes: NUL, tab, line feed, vertical tab, form feed, carriage return, space. */
  predicate IsStripSpace(c: char)
  {
    c == '\0' || ('\t' <= c <= '\r') || c == ' '
  }

  /** A character of the regular-expression class `\s`: space, tab, line feed, vertical tab, form feed, carriage return. */
  predicate IsRegexSpace(c: char)
  {
    ('\t' <= c <= '\r') || c == ' '
  }

  predicate IsAsciiDigit(c: char)
  {
    '0' <= c <= '9'
  }

  predicate IsAsciiLetter(c: char)
  {
    ('A' <= c <= 'Z') || ('a' <= c <= 'z')
  }

  /** A character of the class `[0-9A-Za-z]`. */
  predicate IsAsciiAlnum(c: char)
  {
    IsAsciiDigit(c) || IsAsciiLetter(c)
  }

  /** Removes leading strip-spaces. */
  function TrimLeft(s: string): (r: string)
    ensures |r| <= |s|
    ensures r == [] || !IsStripSpace(r[0])
  {
    if s != [] && IsStripSpace(s[0]) then TrimLeft(s[1..]) else s
  }

  /** Removes trailing strip-spaces. */
  function TrimRight(s: string): (r: string)
    ensures |r| <= |s| && (r != [] ==> r[0] == s[0])
    ensures r == [] || !IsStripSpace(r[|r| - 1])
  {
    if s != [] && IsStripSpace(s[|s| - 1]) then TrimRight(s[..|s| - 1]) else s
  }

  /** `String#strip`. */
  function Strip(s: string): (r: string)
    ensures |r| <= |s|
    ensures r == [] || (!IsStripSpace(r[0]) && !IsStripSpace(r[|r| - 1]))
  {
    TrimRight(TrimLeft(s))
  }

  /** A string with no strip-space at either end is its own `strip`. */
  lemma StripOfTrimmed(s: string)
    requires s == [] || (!IsStripSpace(s[0]) && !IsStripSpace(s[|s| - 1]))
    ensures Strip(s) == s
  {
  }

  /** No two spaces are adjacent. */
  ghost predicate SingleSpaced(s: string)
  {
    forall i, j :: 0 <= i < j < |s| && j == i + 1 ==> s[i] != ' ' || s[j] != ' '
  }

  /** Removes leading `\s` characters. */
  function SkipRegexSpaces(s: string): (r: string)
    ensures |r| <= |s|
    ensures r == [] || !IsRegexSpace(r[0])
  {
    if s != [] && IsRegexSpace(s[0]) then SkipRegexSpaces(s[1..]) else s
  }

  /** `gsub(/\s+/, " ")`: every maximal run of `\s` characters becomes a single space. */
  function Collapse(s: string): (r: string)
    ensures |r| <= |s| && (r == [] <==> s == [])
    ensures s != [] ==> (r[0] == ' ' <==> IsRegexSpace(s[0]))
    decreases |s|
  {
    if s == [] then []
    else if IsRegexSpace(s[0]) then [' '] + Collapse(SkipRegexSpaces(s[1..]))
    else [s[0]] + Collapse(s[1..])
  }

  /** After collapsing, the only `\s` character left is the space, and no two spaces are adjacent. */
  lemma {:induction false} CollapseSpaces(s: string)
    ensures forall i :: 0 <= i < |Collapse(s)| && IsRegexSpace(Collapse(s)[i]) ==> Collapse(s)[i] == ' '
    ensures SingleSpaced(Collapse(s))
    decreases |s|
  {
    if s != [] {
      var t := if IsRegexSpace(s[0]) then SkipRegexSpaces(s[1..]) else s[1..];
      CollapseSpaces(t);
      var r := Collapse(s);
      var c := Collapse(t);
      assert r == [r[0]] + c;
      assert forall i :: 1 <= i < |r| ==> r[i] == c[i - 1];
      forall i, j | 0 <= i < j < |r| && j == i + 1
        ensures r[i] != ' ' || r[j] != ' '
      {
        if i == 0 {
          assert r[1] == c[0];
        } else {
          assert r[i] == c[i - 1] && r[j] == c[j - 1];
        }
      }
    }
  }

  /** Text in which every `\s` character is a single space between non-spaces has nothing to collapse. */
  lemma {:induction false} CollapseClean(s: string)
    requires forall i :: 0 <= i < |s| && IsRegexSpace(s[i]) ==> s[i] == ' '
    requires SingleSpaced(s)
    ensures Collapse(s) == s
  {
    if s != [] {
      if IsRegexSpace(s[0]) {
        if |s| > 1 {
          assert s[0] == ' ' ==> s[1] != ' ';
        }
        assert s[1..] == [] || !IsRegexSpace(s[1]);
        assert SkipRegexSpaces(s[1..]) == s[1..];
      }
      assert forall i, j :: 0 <= i < j < |s| - 1 && j == i + 1 ==> s[1..][i] == s[i + 1] && s[1..][j] == s[j + 1];
      CollapseClean(s[1..]);
    }
  }

  /** `String#downcase` on one character; only A-Z are mapped. */
  function DowncaseChar(c: char): (d: char)
    ensures IsStripSpace(d) <==> IsStripSpace(c)
    ensures !('A' <= d <= 'Z')
  {
    if 'A' <= c <= 'Z' then (c as int + 32) as char else c
  }

  /** `String#downcase`, restricted to the ASCII letters. */
  function Downcase(s: string): (r: string)
    ensures |r| == |s|
    ensures forall i :: 0 <= i < |s| ==> r[i] == DowncaseChar(s[i])
  {
    seq(|s|, i requires 0 <= i < |s| => DowncaseChar(s[i]))
  }

  lemma {:induction false} DowncaseTrimLeft(s: string)
    ensures Downcase(TrimLeft(s)) == TrimLeft(Downcase(s))
  {
    if s != [] && IsStripSpace(s[0]) {
      assert Downcase(s)[1..] == Downcase(s[1..]);
      DowncaseTrimLeft(s[1..]);
    }
  }

  lemma {:induction false} DowncaseTrimRight(s: string)
    ensures Downcase(TrimRight(s)) == TrimRight(Downcase(s))
  {
    if s != [] && IsStripSpace(s[|s| - 1]) {
      assert Downcase(s)[..|s| - 1] == Downcase(s[..|s| - 1]);
      DowncaseTrimRight(s[..|s| - 1]);
    }
  }

  /**
   * Downcasing and stripping commute: an address and its case variant, each with any
   * surrounding whitespace, normalise to the same text.
   */
  lemma DowncaseStripCommute(s: string)
    ensures Downcase(Strip(s)) == Strip(Downcase(s))
  {
    DowncaseTrimRight(TrimLeft(s));
    DowncaseTrimLeft(s);
  }

  /** Surrounding strip-spaces do not change what `strip` returns. */
  lemma {:induction false} StripIgnoresPadding(pre: string, s: string, post: string)
    requires forall i :: 0 <= i < |pre| ==> IsStripSpace(pre[i])
    requires forall i :: 0 <= i < |post| ==> IsStripSpace(post[i])
    ensures Strip(pre + s + post) == Strip(s)
  {
    TrimLeftPadding(pre, s + post);
    assert pre + s + post == pre + (s + post);
    TrimRightPadding(TrimLeft(s + post), post, s);
  }

  lemma {:induction false} TrimLeftPadding(pre: string, s: string)
    requires forall i :: 0 <= i < |pre| ==> IsStripSpace(pre[i])
    ensures TrimLeft(pre + s) == TrimLeft(s)
  {
    if pre != [] {
      assert (pre + s)[0] == pre[0] && IsStripSpace(pre[0]);
      assert (pre + s)[1..] == pre[1..] + s;
      assert TrimLeft(pre + s) == TrimLeft(pre[1..] + s);
      TrimLeftPadding(pre[1..], s);
    } else {
      assert pre + s == s;
    }
  }

  lemma {:induction false} TrimLeftSuffix(s: string, post: string)
    requires forall i :: 0 <= i < |post| ==> IsStripSpace(post[i])
    ensures TrimLeft(s) != [] ==> TrimLeft(s + post) == TrimLeft(s) + post
    ensures TrimLeft(s) == [] ==> TrimLeft(s + post) == []
  {
    if s == [] {
      assert s + post == post;
      TrimLeftAllSpaces(post);
    } else if IsStripSpace(s[0]) {
      assert (s + post)[1..] == s[1..] + post;
      TrimLeftSuffix(s[1..], post);
    }
  }

  lemma {:induction false} TrimRightPadding(t: string, post: string, s: string)
    requires t == TrimLeft(s + post)
    requires forall i :: 0 <= i < |post| ==> IsStripSpace(post[i])
    ensures TrimRight(t) == TrimRight(TrimLeft(s))
  {
    TrimLeftSuffix(s, post);
    if TrimLeft(s) != [] {
      TrimRightSuffix(TrimLeft(s), post);
    }
  }

  lemma {:induction false} TrimLeftAllSpaces(s: string)
    requires forall i :: 0 <= i < |s| ==> IsStripSpace(s[i])
    ensures TrimLeft(s) == []
  {
    if s != [] {
      TrimLeftAllSpaces(s[1..]);
    }
  }

  lemma {:induction false} TrimRightSuffix(s: string, post: string)
    requires forall i :: 0 <= i < |post| ==> IsStripSpace(post[i])
    ensures TrimRight(s + post) == TrimRight(s)
  {
    if post != [] {
      assert (s + post)[..|s + post| - 1] == s + post[..|post| - 1];
      TrimRightSuffix(s, post[..|post| - 1]);
    } else {
      assert s + post == s;
    }
  }

  /** `a.start_with?(prefix)`. */
  predicate StartsWith(s: string, prefix: string)
  {
    |prefix| <= |s| && s[..|prefix|] == prefix
  }

  /** `a.end_with?(suffix)`. */
  predicate EndsWith(s: string, suffix: string)
  {
    |suffix| <= |s| && s[|s| - |suffix|..] == suffix
  }

  /** `sub` occurs in `s` starting at index `i`. */
  predicate OccursAt(s: string, sub: string, i: int)
  {
    0 <= i <= |s| - |sub| && s[i..i + |sub|] == sub
  }

  /** A suffix of a suffix is a suffix. */
  lemma EndsWithTrans(s: string, t: string, u: string)
    requires EndsWith(s, t) && EndsWith(t, u)
    ensures EndsWith(s, u)
  {
    assert s[|s| - |u|..] == s[|s| - |t|..][|t| - |u|..];
  }

  /** `s.include?(sub)` on strings. */
  predicate Contains(s: string, sub: string)
  {
    exists i :: 0 <= i <= |s| && OccursAt(s, sub, i)
  }

  lemma ContainsPrefix(s: string, t: string)
    ensures Contains(s + t, s)
  {
    assert OccursAt(s + t, s, 0);
  }

  lemma ContainsSuffix(s: string, t: string)
    ensures Contains(s + t, t)
  {
    assert OccursAt(s + t, t, |s|);
  }

  /** A suffix occurs in the string. */
  lemma EndsWithContains(s: string, sub: string)
    requires EndsWith(s, sub)
    ensures Contains(s, sub)
  {
    assert OccursAt(s, sub, |s| - |sub|);
  }

  lemma ContainsExtend(s: string, sub: string, pre: string, post: string)
    requires Contains(s, sub)
    ensures Contains(pre + s + post, sub)
  {
    var i :| 0 <= i <= |s| && OccursAt(s, sub, i);
    assert (pre + s + post)[|pre| + i..|pre| + i + |sub|] == s[i..i + |sub|];
    assert OccursAt(pre + s + post, sub, |pre| + i);
  }

  /** The characters of `s` that satisfy `keep`, in order (`gsub` of the complement class with ""). */
  function Keep(s: string, keep: char -> bool): (r: string)
    ensures |r| <= |s|
    ensures forall i :: 0 <= i < |r| ==> keep(r[i])
  {
    if s == [] then [] else (if keep(s[0]) then [s[0]] else []) + Keep(s[1..], keep)
  }

  /** Filtering a string whose every character is kept returns it unchanged. */
  lemma {:induction false} KeepAll(s: string, keep: char -> bool)
    requires forall i :: 0 <= i < |s| ==> keep(s[i])
    ensures Keep(s, keep) == s
  {
    if s != [] {
      KeepAll(s[1..], keep);
    }
  }

  /** Filtering twice is filtering once. */
  lemma KeepIdempotent(s: string, keep: char -> bool)
    ensures Keep(Keep(s, keep), keep) == Keep(s, keep)
  {
    KeepAll(Keep(s, keep), keep);
  }

  /** Filtering distributes over concatenation. */
  lemma {:induction false} KeepConcat(s: string, t: string, keep: char -> bool)
    ensures Keep(s + t, keep) == Keep(s, keep) + Keep(t, keep)
  {
    if s != [] {
      assert (s + t)[1..] == s[1..] + t;
      KeepConcat(s[1..], t, keep);
    } else {
      assert s + t == t;
    }
  }

  /** Unkept characters between two runs of kept ones disappear, and the runs join up. */
  lemma KeepDropsMiddle(head: string, sep: string, tail: string, keep: char -> bool)
    requires forall i :: 0 <= i < |head| ==> keep(head[i])
    requires forall i :: 0 <= i < |sep| ==> !keep(sep[i])
    requires forall i :: 0 <= i < |tail| ==> keep(tail[i])
    ensures Keep(head + sep + tail, keep) == head + tail
  {
    assert Keep(head + sep, keep) == head by {
      KeepConcat(head, sep, keep);
      KeepAll(head, keep);
      KeepNone(sep, keep);
      assert head + [] == head;
    }
    assert Keep(tail, keep) == tail by {
      KeepAll(tail, keep);
    }
    KeepConcat(head + sep, tail, keep);
  }

  /** A string none of whose characters is kept filters to the empty string. */
  lemma {:induction false} KeepNone(s: string, keep: char -> bool)
    requires forall i :: 0 <= i < |s| ==> !keep(s[i])
    ensures Keep(s, keep) == []
  {
    if s != [] {
      KeepNone(s[1..], keep);
    }
  }

  /** Every kept character of `s` survives filtering. */
  lemma {:induction false} KeepRetains(s: string, keep: char -> bool, i: nat)
    requires i < |s| && keep(s[i])
    ensures s[i] in Keep(s, keep)
  {
    if i > 0 {
      KeepRetains(s[1..], keep, i - 1);
    }
  }

  function DigitChar(d: nat): (c: char)
    requires d < 10
    ensures IsAsciiDigit(c)
  {
    "0123456789"[d]
  }

  function DigitValue(c: char): (d: nat)
    requires IsAsciiDigit(c)
    ensures d < 10
  {
    c as int - '0' as int
  }

  /** `Integer#to_s` for a natural number: decimal digits without leading zeros. */
  function NatToString(n: nat): (r: string)
    ensures 1 <= |r|
    ensures forall i :: 0 <= i < |r| ==> IsAsciiDigit(r[i])
    ensures r[0] == '0' ==> n == 0
  {
    if n < 10 then [DigitChar(n)] else NatToString(n / 10) + [DigitChar(n % 10)]
  }

  /** `Integer#to_s`: a minus sign before the digits of a negative number. */
  function IntToString(i: int): (r: string)
    ensures 1 <= |r|
  {
    if i < 0 then "-" + NatToString(-i) else NatToString(i)
  }

  predicate IsDigits(s: string)
  {
    forall i :: 0 <= i < |s| ==> IsAsciiDigit(s[i])
  }

  /** The number a string of decimal digits denotes (an independent reading of `Integer#to_s`). */
  function DigitsValue(s: string): nat
    requires IsDigits(s)
  {
    if s == [] then 0 else DigitsValue(s[..|s| - 1]) * 10 + DigitValue(s[|s| - 1])
  }

  lemma {:induction false} NatToStringRoundTrip(n: nat)
    ensures DigitsValue(NatToString(n)) == n
  {
    if n >= 10 {
      var r := NatToString(n);
      assert r[..|r| - 1] == NatToString(n / 10);
      NatToStringRoundTrip(n / 10);
    }
  }

  /** An optional minus sign followed by decimal digits. */
  predicate IsIntText(s: string)
  {
    if s != [] && s[0] == '-' then IsDigits(s[1..]) else IsDigits(s)
  }

  /** The integer an optionally signed decimal text denotes (`String#to_i` on such text). */
  function IntValue(s: string): int
    requires IsIntText(s)
  {
    if s != [] && s[0] == '-' then 0 - DigitsValue(s[1..]) else DigitsValue(s)
  }

  /** Reading back what `Integer#to_s` wrote gives the integer. */
  lemma IntToStringRoundTrip(i: int)
    ensures IsIntText(IntToString(i)) && IntValue(IntToString(i)) == i
  {
    if i < 0 {
      SignedRoundTrip(-i);
      assert IntToString(i) == "-" + NatToString(-i);
    } else {
      UnsignedRoundTrip(i);
      assert IntToString(i) == NatToString(i);
    }
  }

  /** A minus sign before the digits of `n` reads back as `-n`. */
  lemma SignedRoundTrip(n: nat)
    ensures IsIntText("-" + NatToString(n)) && IntValue("-" + NatToString(n)) == -(n as int)
  {
    var d := NatToString(n);
    var r := "-" + d;
    assert r[0] == '-' && r[1..] == d;
    NatToStringRoundTrip(n);
  }

  /** The digits of `n`, unsigned, read back as `n`. */
  lemma UnsignedRoundTrip(n: nat)
    ensures IsIntText(NatToString(n)) && IntValue(NatToString(n)) == n
  {
    var d := NatToString(n);
    assert IsAsciiDigit(d[0]) && d[0] != '-';
    NatToStringRoundTrip(n);
  }


  /** Distinct integers render differently, so a rendered status code names exactly one status. */
  lemma IntToStringInjective(a: int, b: int)
    requires IntToString(a) == IntToString(b)
    ensures a == b
  {
    IntToStringRoundTrip(a);
    IntToStringRoundTrip(b);
  }

  /** ActiveSupport `truncate(n)`: text longer than `n` keeps its first `n - 3` characters followed by "...". */
  function Truncate(s: string, n: nat): (r: string)
    requires n >= 3
    ensures |s| <= n ==> r == s
    ensures |s| > n ==> |r| == n && r[..n - 3] == s[..n - 3] && r[n - 3..] == "..."
  {
    if |s| <= n then s else s[..n - 3] + "..."
  }

  /** `Array#join(sep)` of strings. */
  function Join(parts: seq<string>, sep: string): (r: string)
    ensures parts == [] ==> r == []
    ensures |parts| == 1 ==> r == parts[0]
  {
    if parts == [] then []
    else if |parts| == 1 then parts[0]
    else parts[0] + sep + Join(parts[1..], sep)
  }

  /** No character of `s` is a quote or a line feed (what `.` in a lazy quoted group may cross). */
  predicate QuoteFree(s: string)
  {
    forall i :: 0 <= i < |s| ==> s[i] != '\'' && s[i] != '\n'
  }

  /** The position of the closing quote of a quoted group starting at `t`: the first quote, unless a line feed comes first. */
  function CloseQuote(t: string): (k: Option<nat>)
    ensures k.Some? ==> k.value < |t| && t[k.value] == '\'' && QuoteFree(t[..k.value])
    ensures k.None? ==> forall j :: 0 <= j < |t| && t[j] == '\'' ==> !QuoteFree(t[..j])
  {
    if t == [] || t[0] == '\n' then None
    else if t[0] == '\'' then Some(0)
    else
      var k := CloseQuote(t[1..]);
      if k.None? then
        forall j | 0 <= j < |t| && t[j] == '\''
          ensures !QuoteFree(t[..j])
        {
          assert j >= 1 && t[1..][j - 1] == '\'';
          var i :| 0 <= i < j - 1 && (t[1..][..j - 1][i] == '\'' || t[1..][..j - 1][i] == '\n');
          assert t[..j][i + 1] == t[1..][..j - 1][i];
        }
        None
      else
        assert t[..k.value + 1] == [t[0]] + t[1..][..k.value];
        Some(k.value + 1)
  }

  /** `s.match(/'(.*?)'/)&.captures&.first`: the text between the first pair of quotes on one line. */
  function FirstQuoted(s: string): (r: Option<string>)
    ensures r.Some? ==> QuoteFree(r.value) && Contains(s, "'" + r.value + "'")
  {
    if s == [] then None
    else if s[0] == '\'' && CloseQuote(s[1..]).Some? then
      var k := CloseQuote(s[1..]).value;
      assert s[1..][..k] == s[1..k + 1];
      assert s[..k + 2] == "'" + s[1..k + 1] + "'";
      assert OccursAt(s, "'" + s[1..k + 1] + "'", 0);
      Some(s[1..k + 1])
    else
      var rest := FirstQuoted(s[1..]);
      if rest.Some? then
        ContainsExtend(s[1..], "'" + rest.value + "'", [s[0]], []);
        assert [s[0]] + s[1..] + [] == s;
        rest
      else rest
  }

  /** The first quoted group is the one after any quote-free prefix. */
  lemma {:induction false} FirstQuotedFinds(pre: string, t: string, post: string)
    requires forall i :: 0 <= i < |pre| ==> pre[i] != '\''
    requires QuoteFree(t)
    ensures FirstQuoted(pre + "'" + t + "'" + post) == Some(t)
  {
    var s := pre + "'" + t + "'" + post;
    if pre == [] {
      assert s[1..] == t + "'" + post;
      CloseQuoteFinds(t, post);
      assert s[1..|t| + 1] == t;
    } else {
      assert s[1..] == pre[1..] + "'" + t + "'" + post;
      FirstQuotedFinds(pre[1..], t, post);
    }
  }

  /** Inside a quoted group, the closing quote is the first quote. */
  lemma {:induction false} CloseQuoteFinds(t: string, post: string)
    requires QuoteFree(t)
    ensures CloseQuote(t + "'" + post) == Some(|t|)
  {
    if t != [] {
      assert (t + "'" + post)[1..] == t[1..] + "'" + post;
      CloseQuoteFinds(t[1..], post);
    }
  }
}
