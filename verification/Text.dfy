/** The little string matching the reporter and the Appium launcher rely on. */
module Text {

  predicate StartsWith(s: string, prefix: string) {
    |prefix| <= |s| && s[..|prefix|] == prefix
  }

  function LowerChar(c: char): char {
    if 'A' <= c <= 'Z' then c + 32 as char else c
  }

  function Lower(s: string): (r: string)
    ensures |r| == |s|
  {
    seq(|s|, i requires 0 <= i < |s| => LowerChar(s[i]))
  }

  /** `word`, which is in lower case, stands at position `i` of `s` in any mix of cases. */
  predicate StandsAt(s: string, word: string, i: nat) {
    i + |word| <= |s| && Lower(s[i..i + |word|]) == word
  }

  /** A case-insensitive test for a literal word. */
  predicate Mentions(s: string, word: string) {
    exists i :: 0 <= i <= |s| && StandsAt(s, word, i)
  }

  // ----- The same, letter by letter

  /** `c` is `l`, or the capital of the small letter `l`. */
  predicate IsEither(c: char, l: char) {
    c == l || ('a' <= l <= 'z' && c as int == l as int - 32)
  }

  /** `s` has the letters of `word` from position `i` on, each of them small or capital. */
  predicate Spells(s: string, word: string, i: nat) {
    i + |word| <= |s| && forall k :: 0 <= k < |word| ==> IsEither(s[i + k], word[k])
  }

  predicate HasCapitals(word: string) {
    exists k :: 0 <= k < |word| && 'A' <= word[k] <= 'Z'
  }

  lemma StandsAtExactly(s: string, word: string, i: nat)
    requires !HasCapitals(word)
    ensures StandsAt(s, word, i) <==> Spells(s, word, i)
  {
    if i + |word| <= |s| {
      var lower := Lower(s[i..i + |word|]);
      assert forall k :: 0 <= k < |word| ==> lower[k] == LowerChar(s[i + k]);
      assert forall k :: 0 <= k < |word| ==> (LowerChar(s[i + k]) == word[k] <==> IsEither(s[i + k], word[k]));
    }
  }

  /** A word without capitals is mentioned exactly where its letters stand in a row, whatever their case. */
  lemma MentionsExactly(s: string, word: string)
    requires !HasCapitals(word)
    ensures Mentions(s, word) <==> exists i: nat :: Spells(s, word, i)
  {
    hide StandsAt, Spells;
    if Mentions(s, word) {
      var i :| 0 <= i <= |s| && StandsAt(s, word, i);
      StandsAtExactly(s, word, i);
    }
    if i: nat :| Spells(s, word, i) {
      StandsAtExactly(s, word, i);
      assert i <= |s| by { SpelledInside(s, word, i); }
    }
  }

  lemma SpelledInside(s: string, word: string, i: nat)
    requires Spells(s, word, i)
    ensures i + |word| <= |s|
  {
  }

  // ----- Numbers

  predicate AllDigits(s: string) {
    forall i :: 0 <= i < |s| ==> '0' <= s[i] <= '9'
  }

  function Decimal(n: nat): (s: string)
    ensures s != "" && AllDigits(s)
  {
    var last := ['0' + (n % 10) as char];
    if n < 10 then last else Decimal(n / 10) + last
  }

  function ParseDigits(s: string): nat
    requires AllDigits(s)
  {
    if s == "" then 0 else 10 * ParseDigits(s[..|s| - 1]) + (s[|s| - 1] - '0') as nat
  }

  lemma {:induction false} ParseOfDecimal(n: nat)
    ensures ParseDigits(Decimal(n)) == n
  {
    var s := Decimal(n);
    if n >= 10 {
      ParseOfDecimal(n / 10);
      assert s[..|s| - 1] == Decimal(n / 10);
    } else {
      assert s[..|s| - 1] == "";
    }
    assert (s[|s| - 1] - '0') as nat == n % 10;
  }

  function Zeros(z: nat): string {
    seq(z, _ => '0')
  }

  /** Zeros in front do not count. */
  lemma {:induction false} ParseAfterZeros(z: nat, s: string)
    requires AllDigits(s)
    ensures AllDigits(Zeros(z) + s) && ParseDigits(Zeros(z) + s) == ParseDigits(s)
    decreases |s|, z
  {
    var all := Zeros(z) + s;
    if s != "" {
      ParseAfterZeros(z, s[..|s| - 1]);
      assert all[..|all| - 1] == Zeros(z) + s[..|s| - 1];
    } else if z > 0 {
      ParseAfterZeros(z - 1, s);
      assert all[..|all| - 1] == Zeros(z - 1) + s;
    }
  }

  /** A number is written without leading zeros. */
  lemma {:induction false} DecimalHasNoZerosInFront(n: nat)
    ensures if n == 0 then Decimal(n) == "0" else Decimal(n)[0] != '0'
  {
    if n >= 10 {
      DecimalHasNoZerosInFront(n / 10);
    }
  }
}
