/**
 * Character and string helpers shared by the JavaScript and Python models:
 * whitespace trimming (each language's own whitespace set), ASCII case
 * mapping, substring search, joining and splitting.
 */
module Text {

  /** The characters JavaScript's `String.prototype.trim` removes: WhiteSpace and LineTerminator. */
  predicate IsJsSpace(c: char) {
    c == '\t' || c == '\n' || c == '\U{000B}' || c == '\U{000C}' || c == '\r' || c == ' '
    || c == '\U{00A0}' || c == '\U{1680}' || ('\U{2000}' <= c <= '\U{200A}')
    || c == '\U{2028}' || c == '\U{2029}' || c == '\U{202F}' || c == '\U{205F}'
    || c == '\U{3000}' || c == '\U{FEFF}'
  }

  /** The characters Python's `str.strip()` removes (those for which `str.isspace` holds). */
  predicate IsPySpace(c: char) {
    c == '\t' || c == '\n' || c == '\U{000B}' || c == '\U{000C}' || c == '\r'
    || ('\U{001C}' <= c <= '\U{001F}') || c == ' ' || c == '\U{0085}' || c == '\U{00A0}'
    || c == '\U{1680}' || ('\U{2000}' <= c <= '\U{200A}') || c == '\U{2028}'
    || c == '\U{2029}' || c == '\U{202F}' || c == '\U{205F}' || c == '\U{3000}'
  }

  /** Every character of `s` satisfies `space`. */
  predicate AllSpace(s: string, space: char -> bool) {
    forall i :: 0 <= i < |s| ==> space(s[i])
  }

  function TrimStart(s: string, space: char -> bool): (r: string)
    ensures |r| <= |s| && r == s[|s| - |r|..]
    ensures r == [] || !space(r[0])
    ensures AllSpace(s[..|s| - |r|], space)
  {
    if |s| > 0 && space(s[0]) then TrimStart(s[1..], space) else s
  }

  function TrimEnd(s: string, space: char -> bool): (r: string)
    ensures |r| <= |s| && r == s[..|r|]
    ensures r == [] || !space(r[|r| - 1])
    ensures AllSpace(s[|r|..], space)
  {
    if |s| > 0 && space(s[|s| - 1]) then TrimEnd(s[..|s| - 1], space) else s
  }

  /** `r` is a contiguous piece of `s` with only `space` characters around it. */
  predicate TrimmedSlice(r: string, s: string, space: char -> bool) {
    exists k :: 0 <= k <= |s| - |r| && r == s[k..k + |r|]
                && AllSpace(s[..k], space) && AllSpace(s[k + |r|..], space)
  }

  /** Removes leading and trailing characters of the given whitespace set. */
  function Trim(s: string, space: char -> bool): (r: string)
    ensures |r| <= |s|
    ensures r == [] || (!space(r[0]) && !space(r[|r| - 1]))
    ensures TrimmedSlice(r, s, space)
  {
    TrimIsSlice(s, space);
    TrimEnd(TrimStart(s, space), space)
  }

  lemma TrimIsSlice(s: string, space: char -> bool)
    ensures TrimmedSlice(TrimEnd(TrimStart(s, space), space), s, space)
  {
    var front := TrimStart(s, space);
    var r := TrimEnd(front, space);
    var k := |s| - |front|;
    assert front == s[k..];
    assert r == s[k..k + |r|];
    assert s[k + |r|..] == front[|r|..];
    SliceWitness(r, s, space, k);
  }

  lemma SliceWitness(r: string, s: string, space: char -> bool, k: nat)
    requires k <= |s| - |r| && r == s[k..k + |r|]
    requires AllSpace(s[..k], space) && AllSpace(s[k + |r|..], space)
    ensures TrimmedSlice(r, s, space)
  {
  }

  /** Trimming keeps any property every character of the input has. */
  lemma TrimKeeps(s: string, space: char -> bool, p: char -> bool)
    requires forall i :: 0 <= i < |s| ==> p(s[i])
    ensures forall i :: 0 <= i < |Trim(s, space)| ==> p(Trim(s, space)[i])
  {
    var front := TrimStart(s, space);
    var r := TrimEnd(front, space);
    var skipped := |s| - |front|;
    forall i | 0 <= i < |r|
      ensures p(r[i])
    {
      assert r[i] == front[i] == s[skipped + i];
    }
  }

  /** A string trims to nothing exactly when it is made of whitespace only. */
  lemma {:induction false} TrimEmptyIffAllSpace(s: string, space: char -> bool)
    ensures Trim(s, space) == [] <==> AllSpace(s, space)
  {
    var t := TrimStart(s, space);
    if !AllSpace(s, space) {
      var i :| 0 <= i < |s| && !space(s[i]);
      var j := i - (|s| - |t|);
      assert 0 <= j < |t| && t[j] == s[i] by {
        if i < |s| - |t| {
          assert false;
        }
      }
      assert t[|TrimEnd(t, space)|..] != [] ==> j < |TrimEnd(t, space)| by {
        var r := TrimEnd(t, space);
        if j >= |r| {
          assert false;
        }
      }
    }
  }

  function LowerChar(c: char): char {
    if 'A' <= c <= 'Z' then (c as int + 32) as char else c
  }

  function UpperChar(c: char): char {
    if 'a' <= c <= 'z' then (c as int - 32) as char else c
  }

  /** `toLowerCase` / `lower()`, restricted to the ASCII letters. */
  function Lower(s: string): (r: string)
    ensures |r| == |s|
    ensures forall i :: 0 <= i < |s| ==> r[i] == LowerChar(s[i])
  {
    seq(|s|, i requires 0 <= i < |s| => LowerChar(s[i]))
  }

  /** Lower-casing leaves every whitespace character where it is. */
  lemma LowerKeepsSpace(s: string, space: char -> bool)
    requires forall c :: space(c) ==> !('A' <= c <= 'Z')
    requires AllSpace(s, space)
    ensures AllSpace(Lower(s), space)
  {
  }

  /**
   * Lower-casing neither makes nor unmakes whitespace, for any whitespace set
   * that holds no ASCII letter.
   */
  lemma LowerSpaceIff(s: string, space: char -> bool)
    requires forall c :: space(c) ==> !('A' <= c <= 'Z') && !('a' <= c <= 'z')
    ensures AllSpace(Lower(s), space) <==> AllSpace(s, space)
  {
    var lowered := Lower(s);
    forall i | 0 <= i < |s|
      ensures space(lowered[i]) <==> space(s[i])
    {
      if 'A' <= s[i] <= 'Z' {
        assert 'a' <= lowered[i] <= 'z';
      }
    }
  }

  /** `text.includes(pat)` / `pat in text`: `pat` occurs in `text` as a contiguous run. */
  function Contains(text: string, pat: string): (r: bool)
    ensures pat == [] ==> r
    ensures r ==> |pat| <= |text|
    decreases |text|
  {
    if pat <= text then true
    else if |text| <= |pat| then false
    else Contains(text[1..], pat)
  }

  /** An occurrence at a known position is found. */
  lemma {:induction false} ContainsAt(text: string, pat: string, i: nat)
    requires i + |pat| <= |text| && text[i..i + |pat|] == pat
    ensures Contains(text, pat)
    decreases i
  {
    if i == 0 {
      assert pat == text[..|pat|];
    } else if pat <= text {
    } else {
      assert text[1..][i - 1..i - 1 + |pat|] == text[i..i + |pat|];
      ContainsAt(text[1..], pat, i - 1);
    }
  }

  /** A found pattern occurs at some position: the converse of `ContainsAt`. */
  lemma {:induction false} ContainsWhere(text: string, pat: string) returns (i: nat)
    requires Contains(text, pat)
    ensures i + |pat| <= |text| && text[i..i + |pat|] == pat
    decreases |text|
  {
    if pat <= text {
      i := 0;
    } else {
      var j := ContainsWhere(text[1..], pat);
      assert text[1..][j..j + |pat|] == text[j + 1..j + 1 + |pat|];
      i := j + 1;
    }
  }

  /** A found pattern has every one of its characters in the text. */
  lemma {:induction false} ContainsChars(text: string, pat: string, j: nat)
    requires Contains(text, pat) && j < |pat|
    ensures pat[j] in text
    decreases |text|
  {
    if pat <= text {
      assert text[j] == pat[j];
    } else {
      ContainsChars(text[1..], pat, j);
      assert pat[j] in text[1..];
    }
  }

  /** A non-empty pattern never occurs in a text made only of characters it does not start with. */
  lemma NotContainedWhenFirstCharMissing(text: string, pat: string)
    requires |pat| > 0 && pat[0] !in text
    ensures !Contains(text, pat)
  {
    if Contains(text, pat) {
      ContainsChars(text, pat, 0);
    }
  }

  /** A lower-case pattern written in the text is found in the text's lower-cased form. */
  lemma FoundAfterLowering(text: string, pat: string, i: nat)
    requires i + |pat| <= |text| && text[i..i + |pat|] == pat
    requires forall j :: 0 <= j < |pat| ==> LowerChar(pat[j]) == pat[j]
    ensures Contains(Lower(text), pat)
  {
    var lowered := Lower(text);
    assert lowered[i..i + |pat|] == pat by {
      forall j | 0 <= j < |pat|
        ensures lowered[i + j] == pat[j]
      {
        assert text[i + j] == pat[j];
      }
    }
    ContainsAt(lowered, pat, i);
  }

  /** A pattern with a character the text lacks never occurs in it. */
  lemma NotContainedWhenCharMissing(text: string, pat: string, j: nat)
    requires j < |pat| && pat[j] !in text
    ensures !Contains(text, pat)
  {
    if Contains(text, pat) {
      ContainsChars(text, pat, j);
    }
  }

  /** `parts.join(sep)`. */
  function Join(parts: seq<string>, sep: string): (r: string)
    ensures parts == [] ==> r == []
    ensures |parts| == 1 ==> r == parts[0]
  {
    if parts == [] then []
    else if |parts| == 1 then parts[0]
    else parts[0] + sep + Join(parts[1..], sep)
  }

  /** Joining one more part appends the separator and that part. */
  lemma {:induction false} JoinSnoc(parts: seq<string>, sep: string)
    requires |parts| >= 2
    ensures Join(parts, sep) == Join(parts[..|parts| - 1], sep) + sep + parts[|parts| - 1]
    decreases |parts|
  {
    if |parts| > 2 {
      JoinSnoc(parts[1..], sep);
      assert parts[1..][..|parts| - 2] == parts[..|parts| - 1][1..];
    }
  }

  /** Every part occurs in the joined string. */
  lemma {:induction false} JoinHasPart(parts: seq<string>, sep: string, k: nat)
    requires k < |parts|
    ensures Contains(Join(parts, sep), parts[k])
    decreases |parts|
  {
    var joined := Join(parts, sep);
    if |parts| == 1 {
      ContainsAt(joined, parts[0], 0);
    } else if k == 0 {
      assert joined[0..|parts[0]|] == parts[0];
      ContainsAt(joined, parts[0], 0);
    } else {
      var rest := Join(parts[1..], sep);
      JoinHasPart(parts[1..], sep, k - 1);
      var j := ContainsWhere(rest, parts[k]);
      var offset := |parts[0]| + |sep|;
      assert joined == parts[0] + sep + rest;
      assert joined[offset + j..offset + j + |parts[k]|] == rest[j..j + |parts[k]|];
      ContainsAt(joined, parts[k], offset + j);
    }
  }

  lemma JoinHasParts(parts: seq<string>, sep: string)
    ensures forall k :: 0 <= k < |parts| ==> Contains(Join(parts, sep), parts[k])
  {
    forall k | 0 <= k < |parts|
      ensures Contains(Join(parts, sep), parts[k])
    {
      JoinHasPart(parts, sep, k);
    }
  }

  /** The first field of `s.split(sep)`: everything before the first `sep`, or all of `s`. */
  function BeforeFirst(s: string, sep: char): (r: string)
    ensures r <= s
    ensures sep !in r
    ensures |r| < |s| ==> s[|r|] == sep
  {
    if s == [] || s[0] == sep then [] else [s[0]] + BeforeFirst(s[1..], sep)
  }
}
