/** The short labels printed on both receipts: the order number, taken from
    the end of the order's identifier and upper-cased, and, on the customer
    copy, the payment method. */
module Labels {

  function Min(a: int, b: int): int { if a <= b then a else b }

  /** JavaScript's `s.slice(start)` for an integer `start`: a negative start
      counts back from the end, and the start is clamped to `0 .. |s|`. */
  function SliceFrom(s: string, start: int): (r: string)
    ensures start < 0 ==> |r| == Min(|s|, -start)
    ensures 0 <= start ==> |r| == |s| - Min(start, |s|)
    ensures r == s[|s| - |r|..]
  {
    var from := if start < 0 then (if |s| + start < 0 then 0 else |s| + start) else Min(start, |s|);
    s[from..]
  }

  /** `toUpperCase` restricted to ASCII: `a`..`z` become `A`..`Z`, every other
      character is kept. */
  function UpperChar(c: char): (u: char)
    ensures 'a' <= c <= 'z' ==> 'A' <= u <= 'Z' && u as int - 'A' as int == c as int - 'a' as int
    ensures !('a' <= c <= 'z') ==> u == c
  {
    if 'a' <= c <= 'z' then (c as int - 'a' as int + 'A' as int) as char else c
  }

  /** Upper-cases a string character by character. */
  function Upper(s: string): (r: string)
    ensures |r| == |s|
    ensures forall i :: 0 <= i < |r| ==> r[i] == UpperChar(s[i])
    ensures forall i :: 0 <= i < |r| ==> !('a' <= r[i] <= 'z')
  {
    seq(|s|, i requires 0 <= i < |s| => UpperChar(s[i]))
  }

  /** The order-number label `id.slice(-6).toUpperCase()`. */
  function OrderNumber(id: string): (r: string)
    ensures |r| <= 6
    ensures |r| == Min(6, |id|)
    ensures forall i :: 0 <= i < |r| ==> r[i] == UpperChar(id[|id| - |r| + i])
    ensures forall i :: 0 <= i < |r| ==> !('a' <= r[i] <= 'z')
  {
    Upper(SliceFrom(id, -6))
  }

  /** An identifier of at most six characters is printed whole, upper-cased. */
  lemma ShortIdPrintedWhole(id: string)
    requires |id| <= 6
    ensures OrderNumber(id) == Upper(id)
  {
  }

  /** The label depends only on the last six characters of the identifier. */
  lemma OrderNumberOfSuffix(a: string, b: string)
    requires |a| >= 6 && |b| >= 6 && a[|a| - 6..] == b[|b| - 6..]
    ensures OrderNumber(a) == OrderNumber(b)
  {
    var ra, rb := OrderNumber(a), OrderNumber(b);
    forall i | 0 <= i < 6 ensures ra[i] == rb[i] {
      assert a[|a| - 6..][i] == b[|b| - 6..][i];
    }
  }

  /** The payment label `paymentMethod === 'cash' ? 'Contanti' : 'POS'`. */
  function PaymentLabel(paymentMethod: string): (r: string)
    ensures r == "Contanti" <==> paymentMethod == "cash"
    ensures r != "Contanti" ==> r == "POS"
  {
    if paymentMethod == "cash" then "Contanti" else "POS"
  }
}
