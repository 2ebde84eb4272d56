/**
  `get_random_string`: a string of the requested length whose characters are
  drawn from an alphabet by a secure random source. The random source is an
  oracle: `draws[i]` is the index that `SystemRandom.choice` picks on its i-th
  call.
 */
module Crypto {
  import opened Values

  const DefaultLength := 12
  /** "abc...z" + "ABC...Z" + "012...9", in that order. */
  const DefaultAllowedChars := AsciiRun('a', 26) + AsciiRun('A', 26) + AsciiRun('0', 10)

  /** The `n` consecutive ASCII characters starting at `first`. */
  function AsciiRun(first: char, n: nat): (s: string)
    requires first as int + n <= 0x80
    ensures |s| == n
    ensures forall k :: 0 <= k < n ==> s[k] as int == first as int + k
  {
    seq(n, k requires 0 <= k < n => (first as int + k) as char)
  }

  predicate IsAsciiLetterOrDigit(c: char) {
    'a' <= c <= 'z' || 'A' <= c <= 'Z' || '0' <= c <= '9'
  }

  /** The characters the first `n` draws pick, in order. */
  function Picks(n: nat, allowed: string, draws: seq<nat>): (s: string)
    requires n <= |draws|
    requires forall i :: 0 <= i < |draws| ==> draws[i] < |allowed|
    ensures |s| == n
    ensures forall k :: 0 <= k < n ==> s[k] == allowed[draws[k]]
  {
    if n == 0 then "" else Picks(n - 1, allowed, draws) + [allowed[draws[n - 1]]]
  }

  /**
    `get_random_string(length, allowed_chars)`. A length of zero or less gives
    the empty string without drawing; drawing from an empty alphabet raises
    IndexError.
   */
  function RandomString(length: int, allowed: string, draws: seq<nat>): (r: Result<string>)
    requires length <= |draws|
    requires allowed != "" ==> forall i :: 0 <= i < |draws| ==> draws[i] < |allowed|
    ensures r.Err? <==> 0 < length && allowed == ""
    ensures r.Err? ==> r.error == IndexError
    ensures r.Ok? ==> |r.value| == (if length < 0 then 0 else length)
    ensures r.Ok? ==> forall k :: 0 <= k < |r.value| ==> r.value[k] in allowed
  {
    if length <= 0 then Ok("")
    else if allowed == "" then Err(IndexError)
    else Ok(Picks(length, allowed, draws))
  }

  /** Each character is the one the matching draw selected. */
  lemma {:induction false} RandomStringFollowsDraws(length: nat, allowed: string, draws: seq<nat>, k: nat)
    requires 0 < length <= |draws| && allowed != ""
    requires forall i :: 0 <= i < |draws| ==> draws[i] < |allowed|
    requires k < length
    ensures RandomString(length, allowed, draws).Ok?
    ensures RandomString(length, allowed, draws).value[k] == allowed[draws[k]]
  {
  }

  /** The default alphabet is exactly the 62 ASCII letters and digits. */
  lemma DefaultAlphabet()
    ensures |DefaultAllowedChars| == 62
    ensures forall c :: c in DefaultAllowedChars <==> IsAsciiLetterOrDigit(c)
  {
    var lower, upper, digits := AsciiRun('a', 26), AsciiRun('A', 26), AsciiRun('0', 10);
    assert DefaultAllowedChars == lower + upper + digits;
    forall c | IsAsciiLetterOrDigit(c) ensures c in DefaultAllowedChars {
      if 'a' <= c <= 'z' {
        assert lower[c as int - 'a' as int] == c;
      } else if 'A' <= c <= 'Z' {
        assert upper[c as int - 'A' as int] == c;
      } else {
        assert digits[c as int - '0' as int] == c;
      }
    }
  }

  /** With the default arguments the result has 12 letters and digits. */
  lemma DefaultRandomString(draws: seq<nat>)
    requires DefaultLength <= |draws|
    requires forall i :: 0 <= i < |draws| ==> draws[i] < 62
    ensures RandomString(DefaultLength, DefaultAllowedChars, draws).Ok?
    ensures |RandomString(DefaultLength, DefaultAllowedChars, draws).value| == 12
    ensures forall k :: 0 <= k < 12 ==>
      IsAsciiLetterOrDigit(RandomString(DefaultLength, DefaultAllowedChars, draws).value[k])
  {
    DefaultAlphabet();
  }
}
