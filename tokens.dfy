/** `random_token`: a string of random letters from the url-safe base64 alphabet. */
module Tokens {

  /** The n consecutive characters starting at `first`. */
  function CharRange(first: char, n: nat): (r: string)
    requires first as int + n <= 0xD800
    ensures |r| == n
    ensures forall c :: c in r <==> first <= c && (c as int) < first as int + n
  {
    var r := seq(n, i requires 0 <= i < n => (first as int + i) as char);
    forall c | first <= c && (c as int) < first as int + n
      ensures c in r
    {
      assert r[c as int - first as int] == c;
    }
    r
  }

  /** `string.ascii_letters + string.digits + '-_'`, that is
      "abcdefghijklmnopqrstuvwxyzABCDEFGHIJKLMNOPQRSTUVWXYZ0123456789-_" */
  const Alphabet: string := CharRange('a', 26) + CharRange('A', 26) + CharRange('0', 10) + "-_"

  /** A position in the alphabet, that is, one outcome of `random.choice(alphabet)`. */
  type Index = i: int | 0 <= i < 64

  predicate UrlSafe(c: char)
  {
    'a' <= c <= 'z' || 'A' <= c <= 'Z' || '0' <= c <= '9' || c == '-' || c == '_'
  }

  /** `int(math.ceil(bits / 6.0))`, and `range` of a non-positive count is empty. */
  function NumLetters(bits: int): nat
  {
    if bits <= 0 then 0 else (bits + 5) / 6
  }

  /** The token drawn when the i-th call of `random.choice` picks `Alphabet[choose(i)]`. */
  function RandomToken(bits: int, choose: nat -> Index): (token: string)
    ensures bits <= 0 ==> token == []
    ensures bits > 0 ==> 6 * (|token| - 1) < bits <= 6 * |token|
    ensures forall i :: 0 <= i < |token| ==> token[i] in Alphabet
  {
    seq(NumLetters(bits), i requires 0 <= i => Alphabet[choose(i)])
  }

  lemma AlphabetIsUrlSafe()
    ensures |Alphabet| == 64
    ensures forall c :: c in Alphabet <==> UrlSafe(c)
  {
  }

  /** With the default 128 bits a token has 22 letters. */
  lemma DefaultTokenLength(choose: nat -> Index)
    ensures |RandomToken(128, choose)| == 22
  {
  }
}
