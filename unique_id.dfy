/**
 * The store key of a call: the host's numeric call id written in decimal,
 * as `make_unique_id` formats it with "%1%".
 */
module UniqueIds {

  import opened Wrappers

  function DigitChar(d: nat): (c: char)
    requires d < 10
    ensures '0' <= c <= '9'
  {
    (('0' as int) + d) as char
  }

  predicate IsDigit(c: char) {
    '0' <= c <= '9'
  }

  /** Decimal digits of n, most significant first, without leading zeros. */
  function NatToDecimal(n: nat): (r: string)
    ensures |r| >= 1
    ensures forall k :: 0 <= k < |r| ==> IsDigit(r[k])
  {
    if n < 10 then [DigitChar(n)] else NatToDecimal(n / 10) + [DigitChar(n % 10)]
  }

  /** The id string of a call: a minus sign for negative ids, then the digits. */
  function UniqueId(callNum: int): (r: string)
    ensures |r| >= 1 && (r[0] == '-' <==> callNum < 0)
    ensures forall k | (if callNum < 0 then 1 else 0) <= k < |r| :: IsDigit(r[k])
  {
    if callNum < 0 then "-" + NatToDecimal(-callNum) else NatToDecimal(callNum)
  }

  /** The value of a string of decimal digits, most significant first. */
  function DecimalValue(s: string): nat
    requires forall k :: 0 <= k < |s| ==> IsDigit(s[k])
  {
    if s == [] then 0
    else
      assert IsDigit(s[|s| - 1]);
      10 * DecimalValue(s[..|s| - 1]) + ((s[|s| - 1] as int) - ('0' as int))
  }

  /** Reads a call id back from its key; None for a string that is not such a key. */
  function ParseUniqueId(s: string): (r: Option<int>) {
    if |s| >= 2 && s[0] == '-' && (forall k :: 1 <= k < |s| ==> IsDigit(s[k])) then
      Some(0 - DecimalValue(s[1..]) as int)
    else if |s| >= 1 && (forall k :: 0 <= k < |s| ==> IsDigit(s[k])) then
      Some(DecimalValue(s))
    else
      None
  }

  lemma {:induction false} DecimalRoundTrip(n: nat)
    ensures DecimalValue(NatToDecimal(n)) == n
  {
    var s := NatToDecimal(n);
    if n >= 10 {
      assert s[..|s| - 1] == NatToDecimal(n / 10);
      assert s[|s| - 1] == DigitChar(n % 10);
      DecimalRoundTrip(n / 10);
    }
  }

  /** Every key parses back to the call id it was made from. */
  lemma UniqueIdRoundTrip(callNum: int)
    ensures ParseUniqueId(UniqueId(callNum)) == Some(callNum)
  {
    var s := UniqueId(callNum);
    if callNum < 0 {
      assert s[1..] == NatToDecimal(-callNum);
      assert !IsDigit(s[0]);
      DecimalRoundTrip(-callNum);
    } else {
      DecimalRoundTrip(callNum);
    }
  }

  /** Distinct calls get distinct keys, so no two calls share a session. */
  lemma UniqueIdInjective(a: int, b: int)
    requires UniqueId(a) == UniqueId(b)
    ensures a == b
  {
    UniqueIdRoundTrip(a);
    UniqueIdRoundTrip(b);
  }
}
