/** The few Python string operations the core relies on. */
module Text {

  /** The characters Python's `str.isspace()` accepts; `str.strip()` removes exactly these. */
  predicate IsSpace(c: char) {
    || c == ' '
    || ('\t' <= c <= '\r')
    || ('\U{1c}' <= c <= '\U{1f}')
    || c == '\U{85}' || c == '\U{a0}' || c == '\U{1680}'
    || ('\U{2000}' <= c <= '\U{200a}')
    || c == '\U{2028}' || c == '\U{2029}' || c == '\U{202f}' || c == '\U{205f}' || c == '\U{3000}'
  }

  /** Number of characters at the front of `s` that `drop` accepts. */
  function Leading(s: string, drop: char -> bool): (n: nat)
    ensures n <= |s|
    ensures forall i :: 0 <= i < n ==> drop(s[i])
    ensures n < |s| ==> !drop(s[n])
  {
    if s == [] || !drop(s[0]) then 0 else 1 + Leading(s[1..], drop)
  }

  /** Number of characters at the back of `s` that `drop` accepts. */
  function Trailing(s: string, drop: char -> bool): (n: nat)
    ensures n <= |s|
    ensures forall i :: |s| - n <= i < |s| ==> drop(s[i])
    ensures n < |s| ==> !drop(s[|s| - n - 1])
  {
    if s == [] || !drop(s[|s| - 1]) then 0 else 1 + Trailing(s[..|s| - 1], drop)
  }

  /** The slice of `s` left once the characters `drop` accepts are removed from both ends. */
  function StripBy(s: string, drop: char -> bool): string {
    var t := s[Leading(s, drop)..];
    t[..|t| - Trailing(t, drop)]
  }

  /** The stripped slice is empty exactly when every character is dropped. */
  lemma StripByEmpty(s: string, drop: char -> bool)
    ensures StripBy(s, drop) == [] <==> forall i :: 0 <= i < |s| ==> drop(s[i])
  {
    var lead := Leading(s, drop);
    var t := s[lead..];
    if t != [] {
      assert t[0] == s[lead];
    }
  }

  /** The stripped slice sits in `s` right after the leading dropped characters. */
  lemma StripBySlice(s: string, drop: char -> bool)
    ensures var r := StripBy(s, drop);
      && Leading(s, drop) + |r| <= |s|
      && r == s[Leading(s, drop)..Leading(s, drop) + |r|]
  {
    var lead := Leading(s, drop);
    var t := s[lead..];
    var n := |t| - Trailing(t, drop);
    assert t[..n] == s[lead..lead + n];
  }

  /** Everything in `s` after the stripped slice is dropped. */
  lemma StripByRest(s: string, drop: char -> bool)
    ensures forall i :: Leading(s, drop) + |StripBy(s, drop)| <= i < |s| ==> drop(s[i])
  {
    var lead := Leading(s, drop);
    var t := s[lead..];
    assert forall i :: lead <= i < |s| ==> s[i] == t[i - lead];
  }

  /** The stripped slice neither starts nor ends with a dropped character. */
  lemma StripByEnds(s: string, drop: char -> bool)
    ensures var r := StripBy(s, drop);
      r != [] ==> !drop(r[0]) && !drop(r[|r| - 1])
  {
    var lead := Leading(s, drop);
    var t := s[lead..];
    if StripBy(s, drop) != [] {
      assert StripBy(s, drop)[0] == t[0] == s[lead];
    }
  }

  /**
   * `str.strip()`: whitespace removed from both ends. The result is the slice
   * of `s` that starts after its leading whitespace; every character outside
   * that slice is whitespace, and the slice neither starts nor ends with any.
   */
  function Strip(s: string): (r: string)
    ensures Leading(s, IsSpace) + |r| <= |s| && r == s[Leading(s, IsSpace)..Leading(s, IsSpace) + |r|]
    ensures forall i :: 0 <= i < |s| && !(Leading(s, IsSpace) <= i < Leading(s, IsSpace) + |r|) ==> IsSpace(s[i])
    ensures r == [] <==> forall i :: 0 <= i < |s| ==> IsSpace(s[i])
    ensures r != [] ==> !IsSpace(r[0]) && !IsSpace(r[|r| - 1])
  {
    StripByEmpty(s, IsSpace);
    StripByEnds(s, IsSpace);
    StripBySlice(s, IsSpace);
    StripByRest(s, IsSpace);
    StripBy(s, IsSpace)
  }

  /** Stripping twice is stripping once. */
  lemma StripIdempotent(s: string)
    ensures Strip(Strip(s)) == Strip(s)
  {
    var r := Strip(s);
    assert Leading(r, IsSpace) == 0;
    assert Trailing(r, IsSpace) == 0;
    assert r[0..][..|r|] == r;
  }

  function LowerAscii(c: char): char {
    if 'A' <= c <= 'Z' then (c as int + 32) as char else c
  }

  /**
   * `str.lower()` restricted to ASCII folding. It is exact for the test below:
   * no other character lower-cases into one of the characters of "https://".
   */
  function Lower(s: string): (r: string)
    ensures |r| == |s|
    ensures forall i :: 0 <= i < |s| ==> r[i] == LowerAscii(s[i])
  {
    seq(|s|, i requires 0 <= i < |s| => LowerAscii(s[i]))
  }

  predicate StartsWith(s: string, prefix: string) {
    |prefix| <= |s| && s[..|prefix|] == prefix
  }

  predicate EndsWith(s: string, suffix: string) {
    |suffix| <= |s| && s[|s| - |suffix|..] == suffix
  }

  /** `text.lower().startswith("https://")`, the only URL check the front ends make. */
  predicate IsHttpsUrl(text: string) {
    StartsWith(Lower(text), "https://")
  }

  /** The check ignores letter case: each of the eight characters may be either case. */
  lemma IsHttpsUrlCaseInsensitive(text: string)
    ensures IsHttpsUrl(text) <==>
      |text| >= 8 && forall i :: 0 <= i < 8 ==> text[i] == "https://"[i] || text[i] == "HTTPS://"[i]
  {
    if |text| >= 8 {
      var low := Lower(text);
      if IsHttpsUrl(text) {
        forall i | 0 <= i < 8 ensures text[i] == "https://"[i] || text[i] == "HTTPS://"[i] {
          assert low[..8][i] == "https://"[i];
        }
      }
      if forall i :: 0 <= i < 8 ==> text[i] == "https://"[i] || text[i] == "HTTPS://"[i] {
        assert low[..8] == "https://";
      }
    }
  }
}
