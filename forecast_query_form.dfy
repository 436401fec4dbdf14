/**
 * `ForecastQueryForm`: the address a user typed, normalised by the `address=` setter
 * (strip, collapse whitespace, truncate to 255 characters, drop disallowed characters)
 * and validated for presence.
 */
module QueryForms {
  import opened Wrappers
  import opened Text
  import opened JsonValue
  import opened Runtime
  import opened RubyJson

  /** The longest address the form keeps before filtering. */
  const MaxLength: nat := 255

  /** A character of the class `[0-9a-zA-Z\s,.-]`, which the setter keeps. */
  predicate IsAddressChar(c: char)
  {
    IsAsciiAlnum(c) || IsRegexSpace(c) || c == ',' || c == '.' || c == '-'
  }

  /** A letter, a digit, the space, ',', '.' or '-': what a normalised address is made of. */
  predicate IsCleanChar(c: char)
  {
    IsAsciiAlnum(c) || c == ' ' || c == ',' || c == '.' || c == '-'
  }

  /** The normalisation `address=` applies to the text of the assigned value. */
  function Normalize(s: string): (r: string)
    ensures |r| <= MaxLength
    ensures forall i :: 0 <= i < |r| ==> IsAddressChar(r[i])
  {
    Keep(Truncate(Collapse(Strip(s)), MaxLength), IsAddressChar)
  }

  class ForecastQueryForm {
    /** `@address`: nil until the setter runs. */
    var address: Option<string>

    /** `ForecastQueryForm.new` without attributes. */
    constructor()
      ensures address.None?
    {
      address := None;
    }

    /** `address=`: stores the normalisation of `value.to_s`. */
    method SetAddress(value: Json, rt: Foreign)
      modifies this
      ensures address == Some(Normalize(RubyJson.ToS(value, rt)))
    {
      address := Some(Normalize(RubyJson.ToS(value, rt)));
    }

    /** `valid?`: the presence validation on the address. */
    predicate IsValid()
      reads this
    {
      !IsBlank(address)
    }
  }

  /** The form built with a nil address stores "" and fails validation. */
  method NilAddressInvalid(rt: Foreign) returns (form: ForecastQueryForm)
    ensures form.address == Some("") && !form.IsValid()
  {
    form := new ForecastQueryForm();
    form.SetAddress(JNull, rt);
  }

  /** Only letters, digits, spaces, ',', '.' and '-' remain: every `\s` was collapsed to a space before filtering. */
  lemma {:induction false} NormalizedCharacters(s: string)
    ensures forall i :: 0 <= i < |Normalize(s)| ==>
              IsCleanChar(Normalize(s)[i])
  {
    var c := Collapse(Strip(s));
    CollapseSpaces(Strip(s));
    var t := Truncate(c, MaxLength);
    assert forall i :: 0 <= i < |t| && IsRegexSpace(t[i]) ==> t[i] == ' ' by {
      forall i | 0 <= i < |t|
        ensures IsRegexSpace(t[i]) ==> t[i] == ' '
      {
        if |c| > MaxLength && i >= MaxLength - 3 {
          assert t[i] == "..."[i - (MaxLength - 3)];
        } else {
          assert t[i] == c[i];
        }
      }
    }
    KeepFromRegexSpaceFree(t);
  }

  /** Filtering text whose only `\s` character is the space leaves only the listed characters. */
  lemma {:induction false} KeepFromRegexSpaceFree(t: string)
    requires forall i :: 0 <= i < |t| && IsRegexSpace(t[i]) ==> t[i] == ' '
    ensures forall i :: 0 <= i < |Keep(t, IsAddressChar)| ==>
              IsCleanChar(Keep(t, IsAddressChar)[i])
  {
    if t != [] {
      KeepFromRegexSpaceFree(t[1..]);
      var r := Keep(t, IsAddressChar);
      var rest := Keep(t[1..], IsAddressChar);
      assert r == (if IsAddressChar(t[0]) then [t[0]] else []) + rest;
    }
  }

  /** Text that is already clean (allowed characters, single inner spaces, nothing to strip, at most 255 long) is kept as is. */
  lemma CleanAddressUnchanged(s: string)
    requires |s| <= MaxLength
    requires forall i :: 0 <= i < |s| ==> IsCleanChar(s[i])
    requires SingleSpaced(s)
    requires s == [] || (s[0] != ' ' && s[|s| - 1] != ' ')
    ensures Normalize(s) == s
  {
    CleanStepsUnchanged(s);
    NormalizeFixed(s);
  }

  /** Text short enough to escape truncation, left alone by each step, is left alone by the whole normalisation. */
  lemma NormalizeFixed(s: string)
    requires |s| <= MaxLength
    requires Collapse(Strip(s)) == s && Keep(s, IsAddressChar) == s
    ensures Normalize(s) == s
  {
    var t := Collapse(Strip(s));
    var u := Truncate(t, MaxLength);
    assert u == s;
    assert Keep(u, IsAddressChar) == s;
  }

  /** Stripping, collapsing and filtering each leave a clean address as it is. */
  lemma CleanStepsUnchanged(s: string)
    requires forall i :: 0 <= i < |s| ==> IsCleanChar(s[i])
    requires SingleSpaced(s)
    requires s == [] || (s[0] != ' ' && s[|s| - 1] != ' ')
    ensures Collapse(Strip(s)) == s && Keep(s, IsAddressChar) == s
  {
    CleanCharacters(s);
    assert Strip(s) == s by { StripOfTrimmed(s); }
    assert Collapse(s) == s by { CollapseClean(s); }
    KeepAll(s, IsAddressChar);
  }

  /** The characters of a clean address are kept by the filter, and its only whitespace is the plain space. */
  lemma CleanCharacters(s: string)
    requires forall i :: 0 <= i < |s| ==> IsCleanChar(s[i])
    ensures forall i :: 0 <= i < |s| ==> IsAddressChar(s[i])
    ensures forall i :: 0 <= i < |s| && IsRegexSpace(s[i]) ==> s[i] == ' '
    ensures forall i :: 0 <= i < |s| && s[i] != ' ' ==> !IsStripSpace(s[i])
  {
    forall i | 0 <= i < |s|
      ensures IsAddressChar(s[i]) && (IsRegexSpace(s[i]) ==> s[i] == ' ') && (s[i] != ' ' ==> !IsStripSpace(s[i]))
    {
      assert IsAsciiAlnum(s[i]) || s[i] == ' ' || s[i] == ',' || s[i] == '.' || s[i] == '-';
    }
  }

  /** Surrounding whitespace is removed: padding a clean address changes nothing. */
  lemma PaddedAddress(pre: string, s: string, post: string)
    requires forall i :: 0 <= i < |pre| ==> IsStripSpace(pre[i])
    requires forall i :: 0 <= i < |post| ==> IsStripSpace(post[i])
    requires |s| <= MaxLength
    requires forall i :: 0 <= i < |s| ==> IsCleanChar(s[i])
    requires SingleSpaced(s)
    requires s == [] || (s[0] != ' ' && s[|s| - 1] != ' ')
    ensures Normalize(pre + s + post) == s
  {
    StripIgnoresPadding(pre, s, post);
    SameStripSameNormal(pre + s + post, s);
    CleanAddressUnchanged(s);
  }

  /** Normalisation truncates and filters whatever stripping and collapsing leave. */
  lemma NormalizeStages(s: string, collapsed: string)
    requires Collapse(Strip(s)) == collapsed
    ensures Normalize(s) == Keep(Truncate(collapsed, MaxLength), IsAddressChar)
  {
  }

  /** Normalisation starts with `strip`: texts that strip alike normalise alike. */
  lemma SameStripSameNormal(x: string, y: string)
    requires Strip(x) == Strip(y)
    ensures Normalize(x) == Normalize(y)
  {
    var t := Collapse(Strip(x));
    assert t == Collapse(Strip(y));
    var u := Truncate(t, MaxLength);
    assert Keep(u, IsAddressChar) == Normalize(y);
  }

  /** Letters and digits alone are left alone by stripping and collapsing. */
  lemma AlnumUntouched(s: string)
    requires forall i :: 0 <= i < |s| ==> IsAsciiAlnum(s[i])
    ensures Collapse(Strip(s)) == s
  {
    StripOfTrimmed(s);
    CollapseClean(s);
  }

  /** A long run of letters and digits is cut to 252 characters followed by "...", 255 in all. */
  lemma LongAddress(s: string)
    requires |s| > MaxLength
    requires forall i :: 0 <= i < |s| ==> IsAsciiAlnum(s[i])
    ensures Normalize(s) == s[..MaxLength - 3] + "..."
    ensures |Normalize(s)| == MaxLength
  {
    AlnumUntouched(s);
    NormalizeStages(s, s);
    var head, dots := s[..MaxLength - 3], "...";
    assert Truncate(s, MaxLength) == head + dots;
    assert forall i :: 0 <= i < |head| ==> IsAddressChar(head[i]) by {
      assert forall i :: 0 <= i < |head| ==> head[i] == s[i];
    }
    KeepAll(head, IsAddressChar);
    EllipsisKept(dots);
    KeepConcat(head, dots, IsAddressChar);
  }

  /** The "..." that truncation appends survives the filter. */
  lemma EllipsisKept(dots: string)
    requires dots == "..."
    ensures Keep(dots, IsAddressChar) == dots
  {
    assert forall i :: 0 <= i < |dots| ==> dots[i] == '.';
    KeepAll(dots, IsAddressChar);
  }

  /** Characters are dropped after stripping, so dropping a trailing run of punctuation can leave a trailing space. */
  lemma TrailingPunctuationLeavesSpace(s: string, junk: string)
    requires |s| + 1 + |junk| <= MaxLength
    requires forall i :: 0 <= i < |s| ==> IsCleanChar(s[i])
    requires SingleSpaced(s)
    requires s != [] && s[0] != ' ' && s[|s| - 1] != ' '
    requires junk != [] && forall i :: 0 <= i < |junk| ==> !IsAddressChar(junk[i]) && !IsStripSpace(junk[i])
    ensures Normalize(s + " " + junk) == s + " "
  {
    var head := s + " ";
    var a := head + junk;
    assert Collapse(Strip(a)) == a by {
      PunctuatedUntouched(s, junk);
    }
    assert Truncate(a, MaxLength) == a;
    assert Keep(a, IsAddressChar) == head by {
      KeepConcat(head, junk, IsAddressChar);
      forall i | 0 <= i < |head|
        ensures IsAddressChar(head[i])
      {
        if i < |s| { assert head[i] == s[i]; }
      }
      KeepAll(head, IsAddressChar);
      KeepNone(junk, IsAddressChar);
    }
  }

  /** A clean address, a space and characters that are neither kept nor stripped pass stripping and collapsing unchanged. */
  lemma PunctuatedUntouched(s: string, junk: string)
    requires forall i :: 0 <= i < |s| ==> IsCleanChar(s[i])
    requires SingleSpaced(s)
    requires s != [] && s[0] != ' ' && s[|s| - 1] != ' '
    requires junk != [] && forall i :: 0 <= i < |junk| ==> !IsAddressChar(junk[i]) && !IsStripSpace(junk[i])
    ensures Collapse(Strip(s + " " + junk)) == s + " " + junk
  {
    var a := s + " " + junk;
    assert Strip(a) == a by {
      assert a[0] == s[0] && a[|a| - 1] == junk[|junk| - 1];
      StripOfTrimmed(a);
    }
    assert Collapse(a) == a by {
      SpacedJoin(s, junk);
      CollapseClean(a);
    }
  }

  /** Joining a clean address and punctuation with one space keeps every `\s` a single space. */
  lemma SpacedJoin(s: string, junk: string)
    requires forall i :: 0 <= i < |s| ==> IsCleanChar(s[i])
    requires SingleSpaced(s)
    requires s != [] && s[|s| - 1] != ' '
    requires junk != [] && forall i :: 0 <= i < |junk| ==> !IsAddressChar(junk[i])
    ensures forall i :: 0 <= i < |s + " " + junk| && IsRegexSpace((s + " " + junk)[i]) ==> (s + " " + junk)[i] == ' '
    ensures SingleSpaced(s + " " + junk)
  {
    var a := s + " " + junk;
    forall i | 0 <= i < |a|
      ensures IsRegexSpace(a[i]) ==> a[i] == ' '
    {
      if i < |s| { assert a[i] == s[i]; } else if i > |s| { assert a[i] == junk[i - |s| - 1]; }
    }
    forall i, j | 0 <= i < j < |a| && j == i + 1
      ensures a[i] != ' ' || a[j] != ' '
    {
      if i < |s| - 1 {
        assert a[i] == s[i] && a[j] == s[j];
      } else if i == |s| - 1 {
        assert a[i] == s[|s| - 1];
      } else if i == |s| {
        assert a[j] == junk[0];
      } else {
        assert a[i] == junk[i - |s| - 1];
      }
    }
  }
}
