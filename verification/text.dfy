/** The string operations the classifiers and text fallbacks use:
    lower-casing, substring search (Python's `kw in text`) and `" ".join`. */
module Text {

  /** ASCII lower-casing of one character. */
  function LowerChar(c: char): char {
    if 'A' <= c <= 'Z' then (c as int + 32) as char else c
  }

  /** Python's `str.lower()`, restricted to ASCII letters. */
  function ToLower(s: string): (r: string)
    ensures |r| == |s|
    ensures forall i :: 0 <= i < |s| ==> r[i] == LowerChar(s[i])
  {
    seq(|s|, i requires 0 <= i < |s| => LowerChar(s[i]))
  }

  predicate IsPrefix(p: string, s: string) {
    |p| <= |s| && s[..|p|] == p
  }

  /** Python's `kw in text`: `kw` occurs as a contiguous substring. */
  predicate Contains(text: string, kw: string)
    decreases |text|
  {
    IsPrefix(kw, text) || (|text| > 0 && Contains(text[1..], kw))
  }

  /** `any(kw in text for kw in kws)`. */
  predicate ContainsAny(text: string, kws: seq<string>) {
    exists i :: 0 <= i < |kws| && Contains(text, kws[i])
  }

  /** An occurrence of `kw` at position `i` is found by `Contains`. */
  lemma {:induction false} ContainsAt(text: string, kw: string, i: nat)
    requires i + |kw| <= |text| && text[i..i + |kw|] == kw
    ensures Contains(text, kw)
    decreases i
  {
    if i == 0 {
      assert text[..|kw|] == text[0..|kw|];
    } else {
      assert text[1..][i - 1..i - 1 + |kw|] == text[i..i + |kw|];
      ContainsAt(text[1..], kw, i - 1);
    }
  }

  /** `sep.join(parts)`. */
  function Join(parts: seq<string>, sep: string): string {
    if parts == [] then ""
    else if |parts| == 1 then parts[0]
    else parts[0] + sep + Join(parts[1..], sep)
  }
}
