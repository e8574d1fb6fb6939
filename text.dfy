/** Python's `str.strip()` with no argument, used on captured process output (tools/weather.py, discord/discord_bot.py). */
module Text {

  /** The characters for which Python's `str.isspace()` holds. */
  predicate IsSpace(c: char) {
    || '\t' <= c <= '\r'
    || '\U{1C}' <= c <= '\U{1F}'
    || c == ' '
    || c == '\U{85}'
    || c == '\U{A0}'
    || c == '\U{1680}'
    || '\U{2000}' <= c <= '\U{200A}'
    || c == '\U{2028}'
    || c == '\U{2029}'
    || c == '\U{202F}'
    || c == '\U{205F}'
    || c == '\U{3000}'
  }

  predicate AllSpace(s: string) {
    forall k :: 0 <= k < |s| ==> IsSpace(s[k])
  }

  /** Drops leading whitespace: the result is the suffix of `s` that starts at its first non-space character. */
  function TrimStart(s: string): (r: string)
    ensures |r| <= |s| && r == s[|s| - |r|..]
    ensures forall k :: 0 <= k < |s| - |r| ==> IsSpace(s[k])
    ensures r != [] ==> !IsSpace(r[0])
  {
    if |s| > 0 && IsSpace(s[0]) then
      var r := TrimStart(s[1..]);
      assert forall k :: 1 <= k < |s| - |r| ==> s[k] == s[1..][k - 1];
      r
    else s
  }

  /** Drops trailing whitespace: the result is the prefix of `s` that ends at its last non-space character. */
  function TrimEnd(s: string): (r: string)
    ensures |r| <= |s| && r == s[..|r|]
    ensures forall k :: |r| <= k < |s| ==> IsSpace(s[k])
    ensures r != [] ==> !IsSpace(r[|r| - 1])
  {
    if |s| > 0 && IsSpace(s[|s| - 1]) then
      var r := TrimEnd(s[..|s| - 1]);
      assert forall k :: |r| <= k < |s| - 1 ==> s[k] == s[..|s| - 1][k];
      r
    else s
  }

  /** `s.strip()`: no longer than `s`, and neither beginning nor ending with whitespace. */
  function Strip(s: string): (r: string)
    ensures |r| <= |s|
    ensures r != [] ==> !IsSpace(r[0]) && !IsSpace(r[|r| - 1])
  {
    var t := TrimStart(s);
    var r := TrimEnd(t);
    assert r != [] ==> r[0] == t[0];
    r
  }

  /** Where the stripped text begins and ends inside `s`. */
  function StripFrom(s: string): nat {
    |s| - |TrimStart(s)|
  }

  function StripTo(s: string): nat {
    StripFrom(s) + |Strip(s)|
  }

  /** `s.strip()` is the slice of `s` between `StripFrom(s)` and `StripTo(s)`. */
  lemma StripIsSlice(s: string)
    ensures StripFrom(s) <= StripTo(s) <= |s| && Strip(s) == s[StripFrom(s)..StripTo(s)]
  {
    var t := TrimStart(s);
    var i, j := StripFrom(s), StripTo(s);
    assert t == s[i..];
    assert t[..j - i] == s[i..j];
  }

  /** Everything `strip()` cuts off before the kept text is whitespace. */
  lemma StripCutsLeadingSpace(s: string)
    ensures forall k :: 0 <= k < StripFrom(s) ==> IsSpace(s[k])
  {
  }

  /** Everything `strip()` cuts off after the kept text is whitespace. */
  lemma StripCutsTrailingSpace(s: string)
    ensures forall k :: StripTo(s) <= k < |s| ==> IsSpace(s[k])
  {
    var t := TrimStart(s);
    var i := |s| - |t|;
    var r := TrimEnd(t);
    assert StripTo(s) == i + |r|;
    forall k | i + |r| <= k < |s| ensures IsSpace(s[k]) {
      assert IsSpace(t[k - i]);
      assert t[k - i] == s[i..][k - i];
    }
  }

  /** Stripping twice is stripping once. */
  lemma StripIdempotent(s: string)
    ensures Strip(Strip(s)) == Strip(s)
  {
    var r := Strip(s);
    if r != [] {
      assert TrimStart(r) == r;
      assert TrimEnd(r) == r;
    }
  }

  lemma TrimStartEmptyIffAllSpace(s: string)
    ensures TrimStart(s) == [] <==> AllSpace(s)
  {
    var r := TrimStart(s);
    if r != [] {
      assert r[0] == s[|s| - |r|];
    }
  }

  lemma TrimEndEmptyIffAllSpace(s: string)
    ensures TrimEnd(s) == [] <==> AllSpace(s)
  {
    var r := TrimEnd(s);
    if r != [] {
      assert r[|r| - 1] == s[|r| - 1];
    }
  }

  /** The stripped text is empty exactly when the whole input is whitespace. */
  lemma StripEmptyIffAllSpace(s: string)
    ensures Strip(s) == [] <==> AllSpace(s)
  {
    var t := TrimStart(s);
    TrimEndEmptyIffAllSpace(t);
    TrimStartEmptyIffAllSpace(s);
    TrimStartEmptyIffAllSpace(t);
  }
}
