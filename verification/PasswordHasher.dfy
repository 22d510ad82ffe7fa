/** The stored form of a PBKDF2 password hash and its verification. */
module PasswordHasher {
  import opened Wrappers
  import opened Text

  const ALGORITHM := "pbkdf2_sha256"

  /** PBKDF2-HMAC-SHA256; None when the library raises (an iteration count it rejects). */
  type Derivation = (string, seq<byte>, int) -> Option<seq<byte>>

  /** What a call to `verify` does. */
  datatype Verdict = Answer(matches: bool) | Raises

  function Format(iterations: int, salt: seq<byte>, digest: seq<byte>): string {
    ALGORITHM + "$" + IntText(iterations) + "$" + ToHex(salt) + "$" + ToHex(digest)
  }

  /** `hash`, with the random salt as a parameter; None when the derivation raises. */
  function Hash(derive: Derivation, plain: string, salt: seq<byte>, iterations: int): Option<string> {
    var digest := derive(plain, salt, iterations);
    if digest.None? then None else Some(Format(iterations, salt, digest.value))
  }

  function Verify(derive: Derivation, plain: string, stored: string): Verdict {
    var parts := Split(stored, '$');
    if |parts| != 4 || parts[0] != ALGORITHM then Answer(false)
    else
      var salt, expected, iterations := FromHex(parts[2]), FromHex(parts[3]), ParseInt(parts[1]);
      if salt.None? || expected.None? || iterations.None? then Raises
      else
        var actual := derive(plain, salt.value, iterations.value);
        if actual.None? then Raises else Answer(actual.value == expected.value)
  }

  lemma LastTwoSplit(salt: string, digest: string)
    requires '$' !in salt && '$' !in digest
    ensures Split(salt + "$" + digest, '$') == [salt, digest]
  {
    SplitField(salt, '$', digest);
    SplitLast(digest, '$');
  }

  lemma LastThreeSplit(count: string, salt: string, digest: string)
    requires '$' !in count && '$' !in salt && '$' !in digest
    ensures Split(count + "$" + (salt + "$" + digest), '$') == [count, salt, digest]
  {
    SplitField(count, '$', salt + "$" + digest);
    LastTwoSplit(salt, digest);
  }

  /** Splitting a printed hash on `$` gives back its four fields. */
  lemma FormatSplits(iterations: int, salt: seq<byte>, digest: seq<byte>)
    ensures Split(Format(iterations, salt, digest), '$') == [ALGORITHM, IntText(iterations), ToHex(salt), ToHex(digest)]
  {
    var count, left, right := IntText(iterations), ToHex(salt), ToHex(digest);
    var rest := count + "$" + (left + "$" + right);
    LastThreeSplit(count, left, right);
    SplitField(ALGORITHM, '$', rest);
    assert Format(iterations, salt, digest) == ALGORITHM + "$" + rest;
  }

  /** The printed fields decode to exactly what was printed, so distinct hashes print differently. */
  lemma FormatInjective(i: int, s: seq<byte>, d: seq<byte>, i': int, s': seq<byte>, d': seq<byte>)
    requires Format(i, s, d) == Format(i', s', d')
    ensures i == i' && s == s' && d == d'
  {
    FormatSplits(i, s, d);
    FormatSplits(i', s', d');
    ParseIntText(i);
    ParseIntText(i');
    HexRoundTrip(s);
    HexRoundTrip(s');
    HexRoundTrip(d);
    HexRoundTrip(d');
  }

  /**
   * A stored hash accepts a password exactly when that password derives the same bytes under
   * the stored salt and count; it raises only when the derivation itself raises.
   */
  lemma VerifyHash(derive: Derivation, p: string, q: string, salt: seq<byte>, iterations: int)
    requires Hash(derive, p, salt, iterations).Some?
    ensures Verify(derive, q, Hash(derive, p, salt, iterations).value)
         == (match derive(q, salt, iterations)
             case None => Raises
             case Some(bytes) => Answer(bytes == derive(p, salt, iterations).value))
  {
    var digest := derive(p, salt, iterations).value;
    FormatSplits(iterations, salt, digest);
    ParseIntText(iterations);
    HexRoundTrip(salt);
    HexRoundTrip(digest);
  }
}
