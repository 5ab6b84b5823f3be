/** Byte strings, HTTP statuses and the two text helpers the handlers rely on:
    a prefix strip (Go's strings.TrimPrefix) and decimal formatting of an
    int64 (Go's strconv.FormatInt with base 10). */
module Wire {

  newtype byte = x: int | 0 <= x < 256

  /** Go strings and []byte are both plain byte sequences; the model uses one type for both. */
  type Bytes = seq<byte>

  datatype Option<+T> = None | Some(value: T)

  /** The HTTP status codes the handlers answer with. */
  datatype Status = OK | BadRequest | Unauthorized | Conflict | InternalServerError

  /** The bytes of an ASCII literal. */
  function Lit(s: string): Bytes
  {
    seq(|s|, i requires 0 <= i < |s| => (s[i] as int % 256) as byte)
  }

  /** The scheme word both bearer checks put in front of a token. */
  function Bearer(): Bytes { Lit("Bearer ") }

  /** The body http.Error writes: the message and a newline. */
  function ErrorBody(message: string): Bytes { Lit(message + "\n") }

  predicate HasPrefix(s: Bytes, prefix: Bytes)
  {
    |prefix| <= |s| && s[..|prefix|] == prefix
  }

  /** strings.TrimPrefix: drops one leading copy of prefix if s starts with it. */
  function TrimPrefix(s: Bytes, prefix: Bytes): (r: Bytes)
    ensures HasPrefix(s, prefix) ==> prefix + r == s
    ensures !HasPrefix(s, prefix) ==> r == s
  {
    if HasPrefix(s, prefix) then s[|prefix|..] else s
  }

  /** The result of trimming is the given t exactly when s is t with the
      prefix in front, or s is t itself and t does not start with the prefix. */
  lemma TrimPrefixIs(s: Bytes, prefix: Bytes, t: Bytes)
    ensures TrimPrefix(s, prefix) == t <==> s == prefix + t || (s == t && !HasPrefix(t, prefix))
  {
    if s == prefix + t {
      assert s[..|prefix|] == prefix;
    }
  }

  // ---- decimal text (strconv.FormatInt(n, 10)) ----

  const Zero: byte := 48
  const Minus: byte := 45

  predicate IsDigit(b: byte) { Zero <= b < Zero + 10 }

  predicate AllDigits(s: Bytes) { forall i :: 0 <= i < |s| ==> IsDigit(s[i]) }

  /** Base-10 digits of n, most significant first, without leading zeros. */
  function FormatNat(n: nat): (s: Bytes)
    ensures 1 <= |s| && AllDigits(s)
    ensures |s| > 1 ==> s[0] != Zero
  {
    if n < 10 then [Zero + n as byte] else FormatNat(n / 10) + [Zero + (n % 10) as byte]
  }

  /** strconv.FormatInt(n, 10): a minus sign for negative n, then the digits of |n|. */
  function FormatInt(n: int): Bytes
  {
    if n < 0 then [Minus] + FormatNat(-n) else FormatNat(n)
  }

  /** The value of a string of decimal digits. */
  function DigitsValue(s: Bytes): nat
    requires AllDigits(s)
  {
    if s == [] then 0 else 10 * DigitsValue(s[..|s| - 1]) + (s[|s| - 1] - Zero) as nat
  }

  /** Reads back what FormatInt writes: an optional minus sign and at least one digit. */
  function ParseInt(s: Bytes): Option<int>
  {
    if |s| > 1 && s[0] == Minus && AllDigits(s[1..]) then Some(-(DigitsValue(s[1..]) as int))
    else if |s| > 0 && AllDigits(s) then Some(DigitsValue(s))
    else None
  }

  lemma {:induction false} DigitsOfFormatNat(n: nat)
    ensures DigitsValue(FormatNat(n)) == n
  {
    var s := FormatNat(n);
    if n >= 10 {
      DigitsOfFormatNat(n / 10);
      assert s[..|s| - 1] == FormatNat(n / 10);
    }
  }

  /** The decimal text of every integer reads back as that integer. */
  lemma FormatIntRoundTrip(n: int)
    ensures ParseInt(FormatInt(n)) == Some(n)
  {
    if n < 0 {
      var s := FormatInt(n);
      assert s[1..] == FormatNat(-n);
      DigitsOfFormatNat(-n);
    } else {
      DigitsOfFormatNat(n);
    }
  }
}
