/** The handful of Python `str` built-ins the runtime relies on: `strip()`,
    `rstrip(chars)`, `startswith` and `endswith`, over `seq<char>`. */
module PyText {

  /** `str.isspace()` for a single character: the characters `str.strip()`
      with no argument removes. */
  predicate IsSpace(c: char) {
    || c == ' '
    || ('\t' <= c <= '\r')            // \t \n \x0b \x0c \r
    || ('\U{1c}' <= c <= '\U{1f}')    // file, group, record and unit separators
    || c == '\U{85}' || c == '\U{a0}' || c == '\U{1680}'
    || ('\U{2000}' <= c <= '\U{200a}')
    || c == '\U{2028}' || c == '\U{2029}' || c == '\U{202f}' || c == '\U{205f}' || c == '\U{3000}'
  }

  predicate IsSlash(c: char) {
    c == '/'
  }

  /** Removes the longest prefix whose characters all satisfy `drop`. */
  function LTrim(s: string, drop: char -> bool): (r: string)
    ensures |r| <= |s| && r == s[|s| - |r|..]
    ensures r == [] || !drop(r[0])
    ensures forall i :: 0 <= i < |s| - |r| ==> drop(s[i])
  {
    if |s| > 0 && drop(s[0]) then
      var r := LTrim(s[1..], drop);
      assert s[1..][|s| - 1 - |r|..] == s[|s| - |r|..];
      assert forall i :: 1 <= i < |s| - |r| ==> s[i] == s[1..][i - 1];
      r
    else
      s
  }

  /** Removes the longest suffix whose characters all satisfy `drop`
      (`str.rstrip(chars)` when `drop` is membership in `chars`). */
  function RTrim(s: string, drop: char -> bool): (r: string)
    ensures |r| <= |s| && r == s[..|r|]
    ensures r == [] || !drop(r[|r| - 1])
    ensures forall i :: |r| <= i < |s| ==> drop(s[i])
  {
    if |s| > 0 && drop(s[|s| - 1]) then RTrim(s[..|s| - 1], drop) else s
  }

  /** `str.strip()`: leading and trailing whitespace removed. The result is blank
      exactly when every character of the input is whitespace. */
  function Strip(s: string): (r: string)
    ensures |r| <= |s|
    ensures r == [] || (!IsSpace(r[0]) && !IsSpace(r[|r| - 1]))
    ensures r == [] <==> forall i :: 0 <= i < |s| ==> IsSpace(s[i])
  {
    var l := LTrim(s, IsSpace);
    var r := RTrim(l, IsSpace);
    if r == [] then
      r
    else
      var k := |s| - |l| + |r| - 1;
      assert r[0] == l[0] && r[|r| - 1] == l[|r| - 1] == s[k];
      r
  }

  predicate StartsWith(s: string, prefix: string) {
    |prefix| <= |s| && s[..|prefix|] == prefix
  }

  predicate EndsWith(s: string, suffix: string) {
    |suffix| <= |s| && s[|s| - |suffix|..] == suffix
  }

  /** Trimming a string that already has no droppable character at its end
      changes nothing. */
  lemma RTrimKeeps(s: string, drop: char -> bool)
    requires s == [] || !drop(s[|s| - 1])
    ensures RTrim(s, drop) == s
  {
  }

  lemma LTrimKeeps(s: string, drop: char -> bool)
    requires s == [] || !drop(s[0])
    ensures LTrim(s, drop) == s
  {
  }

  /** What `strip()` keeps: the infix of `s` that starts after its leading
      whitespace, with only whitespace before and after it. Together with the
      end characters of `Strip`'s contract this determines the result. */
  lemma {:induction false} StripIsInfix(s: string)
    ensures |s| - |LTrim(s, IsSpace)| + |Strip(s)| <= |s|
    ensures var i := |s| - |LTrim(s, IsSpace)|; Strip(s) == s[i..i + |Strip(s)|]
    ensures forall k :: 0 <= k < |s| - |LTrim(s, IsSpace)| ==> IsSpace(s[k])
    ensures forall k :: |s| - |LTrim(s, IsSpace)| + |Strip(s)| <= k < |s| ==> IsSpace(s[k])
  {
    var l := LTrim(s, IsSpace);
    var r := RTrim(l, IsSpace);
    assert Strip(s) == r;
    InfixOfSuffix(s, l, r, IsSpace);
  }

  /** A prefix `r` of a suffix `l` of `s` is the infix of `s` at `|s| - |l|`,
      and what follows it in `s` is what follows it in `l`. */
  lemma InfixOfSuffix(s: string, l: string, r: string, drop: char -> bool)
    requires |l| <= |s| && l == s[|s| - |l|..]
    requires |r| <= |l| && r == l[..|r|]
    requires forall k :: |r| <= k < |l| ==> drop(l[k])
    ensures var i := |s| - |l|; r == s[i..i + |r|]
    ensures var i := |s| - |l|; forall k :: i + |r| <= k < |s| ==> drop(s[k])
  {
    var i := |s| - |l|;
    forall k | i + |r| <= k < |s|
      ensures drop(s[k])
    {
      assert s[k] == l[k - i];
    }
  }

  /** `strip()` is idempotent. */
  lemma StripIdempotent(s: string)
    ensures Strip(Strip(s)) == Strip(s)
  {
    var t := Strip(s);
    LTrimKeeps(t, IsSpace);
    RTrimKeeps(t, IsSpace);
  }
}
