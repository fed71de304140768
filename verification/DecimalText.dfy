/** Words travel as decimal text: sprintf "%u" on one side, an 11-byte zeroed buffer
    and atoll on the other. */
module DecimalText {
  import opened Wire

  const BUFFER_SIZE := 11
  const NUL: char := '\0'

  function DigitChar(d: nat): char
    requires d < 10
  {
    '0' + (d as char)
  }

  predicate IsDigit(c: char) {
    '0' <= c <= '9'
  }

  function DigitValue(c: char): nat
    requires IsDigit(c)
  {
    (c as int) - ('0' as int)
  }

  function Print(n: nat): string {
    if n < 10 then [DigitChar(n)] else Print(n / 10) + [DigitChar(n % 10)]
  }

  /** The leading digits of a text, as atoll reads them. */
  function Parse(text: string, soFar: nat): nat {
    if text == [] || !IsDigit(text[0]) then soFar
    else Parse(text[1..], 10 * soFar + DigitValue(text[0]))
  }

  /** What recv leaves in the zeroed buffer. */
  function Received(text: string): string {
    if |text| >= BUFFER_SIZE then text[..BUFFER_SIZE]
    else text + seq(BUFFER_SIZE - |text|, _ => NUL)
  }

  function Pack(w: Word): string {
    Print(w as nat)
  }

  function Unpack(buffer: string): Word {
    (Parse(buffer, 0) % 0x1_0000_0000) as Word
  }

  lemma {:induction false} PrintLength(n: nat, digits: nat, limit: nat)
    requires digits >= 1 && limit == Pow10(digits) && n < limit
    ensures 1 <= |Print(n)| <= digits
    decreases digits
  {
    if n >= 10 {
      PrintLength(n / 10, digits - 1, limit / 10);
    }
  }

  function Pow10(k: nat): nat {
    if k == 0 then 1 else 10 * Pow10(k - 1)
  }

  lemma {:induction false} PrintIsDigits(n: nat)
    ensures forall i :: 0 <= i < |Print(n)| ==> IsDigit(Print(n)[i])
  {
    if n >= 10 {
      PrintIsDigits(n / 10);
    }
  }

  lemma {:induction false} ParseAppends(digits: string, rest: string, soFar: nat)
    requires forall i :: 0 <= i < |digits| ==> IsDigit(digits[i])
    ensures Parse(digits + rest, soFar) == Parse(rest, Parse(digits, soFar))
  {
    if digits == [] {
      assert digits + rest == rest;
    } else {
      assert (digits + rest)[1..] == digits[1..] + rest;
      ParseAppends(digits[1..], rest, 10 * soFar + DigitValue(digits[0]));
    }
  }

  lemma {:induction false} ParsePrinted(n: nat)
    ensures Parse(Print(n), 0) == n
  {
    if n >= 10 {
      PrintIsDigits(n / 10);
      ParseAppends(Print(n / 10), [DigitChar(n % 10)], 0);
      ParsePrinted(n / 10);
      assert [DigitChar(n % 10)][1..] == [];
    }
  }

  lemma WordOfNat(w: Word)
    ensures (w as nat) < 0x1_0000_0000 && (w as nat) as Word == w
  {
  }

  /** Every word survives the trip, and at most ten digits are sent, so the received
      buffer keeps its terminating zero. */
  lemma TextRoundTrip(w: Word)
    ensures |Pack(w)| <= 10 && |Received(Pack(w))| == 11 && NUL in Received(Pack(w))
    ensures Unpack(Received(Pack(w))) == w
  {
    WordOfNat(w);
    NatRoundTrip(w as nat);
  }

  lemma NatRoundTrip(n: nat)
    requires n < 0x1_0000_0000
    ensures |Print(n)| <= 10 && NUL in Received(Print(n)) && Parse(Received(Print(n)), 0) == n
  {
    assert Pow10(10) == 10_000_000_000;
    PrintLength(n, 10, 10_000_000_000);
    PrintIsDigits(n);
    ParsePrinted(n);
    PaddingIsIgnored(Print(n));
  }

  /** The zeros after a short text end the buffer and the number. */
  lemma PaddingIsIgnored(text: string)
    requires |text| < BUFFER_SIZE && forall i :: 0 <= i < |text| ==> IsDigit(text[i])
    ensures NUL in Received(text) && Parse(Received(text), 0) == Parse(text, 0)
  {
    var padding := seq(BUFFER_SIZE - |text|, _ => NUL);
    assert Received(text)[BUFFER_SIZE - 1] == NUL;
    ParseAppends(text, padding, 0);
    assert padding[0] == NUL && !IsDigit(NUL);
  }
}
