/** Merchant identifiers: `f"merchant_{i:04d}"` and the facts that make them unique. */
module Identifiers {

  function DigitChar(d: nat): char
    requires d < 10
  {
    (48 + d) as char
  }

  function DigitValue(c: char): int
  {
    c as int - 48
  }

  /** `f"{n:04d}"` for `n < 10000`: exactly four decimal digits. */
  function Pad4(n: nat): (s: string)
    requires n < 10000
    ensures |s| == 4
  {
    [DigitChar(n / 10 / 10 / 10), DigitChar(n / 10 / 10 % 10), DigitChar(n / 10 % 10), DigitChar(n % 10)]
  }

  /** Reads four decimal digits back as a number. */
  function Unpad4(s: string): int
    requires |s| == 4
  {
    1000 * DigitValue(s[0]) + 100 * DigitValue(s[1]) + 10 * DigitValue(s[2]) + DigitValue(s[3])
  }

  lemma DigitRoundTrip(d: nat)
    requires d < 10
    ensures DigitValue(DigitChar(d)) == d
  {
  }

  lemma PlaceValues(n: nat)
    requires n < 10000
    ensures n == 1000 * (n / 10 / 10 / 10) + 100 * (n / 10 / 10 % 10) + 10 * (n / 10 % 10) + n % 10
  {
    var q1 := n / 10;
    var q2 := q1 / 10;
    assert n == 10 * q1 + n % 10;
    assert q1 == 10 * q2 + q1 % 10;
    assert q2 == 10 * (q2 / 10) + q2 % 10;
  }

  /** Four-digit padding can be read back. */
  lemma Pad4RoundTrip(n: nat)
    requires n < 10000
    ensures Unpad4(Pad4(n)) == n
  {
    var s := Pad4(n);
    DigitRoundTrip(n / 10 / 10 / 10);
    DigitRoundTrip(n / 10 / 10 % 10);
    DigitRoundTrip(n / 10 % 10);
    DigitRoundTrip(n % 10);
    assert DigitValue(s[0]) == n / 10 / 10 / 10;
    assert DigitValue(s[1]) == n / 10 / 10 % 10;
    assert DigitValue(s[2]) == n / 10 % 10;
    assert DigitValue(s[3]) == n % 10;
    PlaceValues(n);
  }

  const MerchantPrefix: string := "merchant_"

  function MerchantId(i: nat): string
    requires i < 10000
  {
    MerchantPrefix + Pad4(i)
  }

  /** Distinct loop indices give distinct merchant identifiers. */
  lemma MerchantIdDistinct(i: nat, j: nat)
    requires i < 10000 && j < 10000 && i != j
    ensures MerchantId(i) != MerchantId(j)
  {
    Pad4RoundTrip(i);
    Pad4RoundTrip(j);
    assert Pad4(i) != Pad4(j);
    assert MerchantId(i)[9..] == Pad4(i);
    assert MerchantId(j)[9..] == Pad4(j);
  }

  /** The identifier made in iteration `i` is not among those of the earlier iterations. */
  lemma MerchantIdFresh(i: nat, ids: seq<string>)
    requires i < 10000 && |ids| == i
    requires forall j | 0 <= j < i :: ids[j] == MerchantId(j)
    ensures MerchantId(i) !in ids
  {
    forall j | 0 <= j < i
      ensures ids[j] != MerchantId(i)
    {
      MerchantIdDistinct(j, i);
    }
  }
}
