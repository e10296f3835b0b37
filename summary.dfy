/** The one-line summary on each order card: every item written as
    `<quantity>x <name>`, the parts joined with `, `. A parser for that line
    shows that, as long as no dish name contains a comma, the line lists
    every item, in order, with its quantity. */
module CardSummary {
  import opened Orders

  function DigitChar(d: int): (c: char)
    requires 0 <= d < 10
    ensures '0' <= c <= '9' && c as int - '0' as int == d
  {
    (d + '0' as int) as char
  }

  predicate IsDigits(s: string) {
    forall i :: 0 <= i < |s| ==> '0' <= s[i] <= '9'
  }

  /** Digits as JavaScript writes a number: at least one, and no leading
      zero unless the number is zero. */
  predicate IsCanonical(s: string) {
    s != [] && IsDigits(s) && (s[0] == '0' ==> |s| == 1)
  }

  /** The decimal digits of `n`, most significant first, without leading zeros. */
  function NatToDecimal(n: nat): (r: string)
    ensures |r| >= 1 && IsDigits(r)
    ensures r[0] == '0' ==> n == 0
    ensures IsCanonical(r)
    decreases n
  {
    if n < 10 then [DigitChar(n)] else NatToDecimal(n / 10) + [DigitChar(n % 10)]
  }

  /** How an integer quantity of magnitude below 2^53 reads inside a
      template literal: an optional minus sign and its decimal digits. */
  function IntToDecimal(n: int): (r: string)
    ensures r != [] && ',' !in r && 'x' !in r
  {
    if n < 0 then "-" + NatToDecimal(-n) else NatToDecimal(n)
  }

  /** The value of a string of decimal digits. */
  function DecimalValue(s: string): nat
    requires IsDigits(s)
    decreases |s|
  {
    if s == [] then 0 else DecimalValue(s[..|s| - 1]) * 10 + (s[|s| - 1] as int - '0' as int)
  }

  /** Reads back what `IntToDecimal` writes, and nothing else: no leading
      zeros and no `-0`. */
  function ParseInt(s: string): Option<int> {
    if |s| >= 2 && s[0] == '-' && IsCanonical(s[1..]) && s[1] != '0' then Some(0 - DecimalValue(s[1..]) as int)
    else if IsCanonical(s) then Some(DecimalValue(s))
    else None
  }

  lemma {:induction false} DecimalRoundTrip(n: nat)
    ensures DecimalValue(NatToDecimal(n)) == n
    decreases n
  {
    if n >= 10 {
      DecimalRoundTrip(n / 10);
      var s := NatToDecimal(n);
      assert s[..|s| - 1] == NatToDecimal(n / 10);
    }
  }

  lemma IntRoundTrip(n: int)
    ensures ParseInt(IntToDecimal(n)) == Some(n)
  {
    var s := IntToDecimal(n);
    if n < 0 {
      var d := NatToDecimal(-n);
      DecimalRoundTrip(-n);
      assert s == "-" + d && s[1..] == d;
      assert IsCanonical(d) && d[0] != '0';
    } else {
      DecimalRoundTrip(n);
      assert s == NatToDecimal(n) && IsCanonical(s);
      assert s[0] != '-';
    }
  }

  /** Digits whose first digit is not zero have a positive value. */
  lemma {:induction false} LeadingDigitPositive(s: string)
    requires s != [] && IsDigits(s) && s[0] != '0'
    ensures DecimalValue(s) >= 1
    decreases |s|
  {
    if |s| >= 2 {
      LeadingDigitPositive(s[..|s| - 1]);
    }
  }

  /** Canonical digits are what `NatToDecimal` writes for their value. */
  lemma {:induction false} CanonicalDecimal(s: string)
    requires IsCanonical(s)
    ensures NatToDecimal(DecimalValue(s)) == s
    decreases |s|
  {
    if |s| >= 2 {
      var init := s[..|s| - 1];
      var d := s[|s| - 1] as int - '0' as int;
      CanonicalDecimal(init);
      LeadingDigitPositive(init);
      var v := DecimalValue(s);
      assert v == DecimalValue(init) * 10 + d;
      assert v / 10 == DecimalValue(init) && v % 10 == d;
      assert s == init + [DigitChar(d)];
    } else {
      assert s[..0] == [];
      assert DecimalValue(s) == s[0] as int - '0' as int;
    }
  }

  /** The only text the reader accepts for `n` is the text written for `n`:
      with `IntRoundTrip`, the written form of every quantity is unique. */
  lemma ParseIntOnlyWritten(s: string, n: int)
    requires ParseInt(s) == Some(n)
    ensures s == IntToDecimal(n)
  {
    if |s| >= 2 && s[0] == '-' && IsCanonical(s[1..]) && s[1] != '0' {
      LeadingDigitPositive(s[1..]);
      CanonicalDecimal(s[1..]);
      assert s == "-" + s[1..];
    } else {
      CanonicalDecimal(s);
    }
  }

  /** The position of the first `c` in `s`, or `|s|` when there is none. */
  function IndexOf(s: string, c: char): (r: nat)
    ensures r <= |s|
    ensures r < |s| ==> s[r] == c
    ensures forall i :: 0 <= i < r ==> s[i] != c
    decreases |s|
  {
    if s == [] then 0 else if s[0] == c then 0 else 1 + IndexOf(s[1..], c)
  }

  lemma IndexOfAfter(a: string, b: string, c: char)
    requires c !in a
    ensures IndexOf(a + b, c) == |a| + IndexOf(b, c)
  {
    var k := IndexOf(b, c);
    forall i | 0 <= i < |a| ensures (a + b)[i] != c {
      assert (a + b)[i] == a[i];
    }
    forall i | |a| <= i < |a| + k ensures (a + b)[i] != c {
      assert (a + b)[i] == b[i - |a|];
    }
    if k < |b| {
      assert (a + b)[|a| + k] == c;
    }
  }

  /** The total number of characters of some strings. */
  function TotalLength(parts: seq<string>): nat
    decreases |parts|
  {
    if parts == [] then 0 else |parts[0]| + TotalLength(parts[1..])
  }

  /** JavaScript's `parts.join(sep)`: the parts in order, with one `sep`
      between neighbours and none at either end. */
  function Join(sep: string, parts: seq<string>): (r: string)
    ensures parts != [] ==> |parts[0]| <= |r| && r[..|parts[0]|] == parts[0]
    decreases |parts|
  {
    if parts == [] then "" else if |parts| == 1 then parts[0] else parts[0] + sep + Join(sep, parts[1..])
  }

  /** A join is as long as its parts together plus one separator between
      each pair of neighbours. */
  lemma {:induction false} JoinLength(sep: string, parts: seq<string>)
    ensures |Join(sep, parts)| == TotalLength(parts) + (if parts == [] then 0 else |sep| * (|parts| - 1))
    decreases |parts|
  {
    if |parts| >= 2 {
      JoinLength(sep, parts[1..]);
      assert |sep| * (|parts| - 1) == |sep| + |sep| * (|parts| - 2);
    }
  }

  /** `${item.quantity}x ${item.dish.name}` */
  function Entry(item: Item): (r: string)
    ensures |r| >= 3
    ensures ',' in r ==> ',' in item.name
  {
    IntToDecimal(item.quantity) + "x " + item.name
  }

  function Entries(items: seq<Item>): seq<string> {
    seq(|items|, i requires 0 <= i < |items| => Entry(items[i]))
  }

  /** The card's summary line. It is empty exactly when the order has no
      items, and otherwise starts with the first item's entry. */
  function Summary(items: seq<Item>): (r: string)
    ensures r == "" <==> items == []
    ensures items != [] ==> |Entry(items[0])| <= |r| && r[..|Entry(items[0])|] == Entry(items[0])
  {
    var parts := Entries(items);
    assert items != [] ==> parts[0] == Entry(items[0]);
    Join(", ", parts)
  }

  /** Joining two non-empty lists of parts one after the other is joining
      each and putting one separator between them. */
  lemma {:induction false} JoinAppend(sep: string, p: seq<string>, q: seq<string>)
    requires p != [] && q != []
    ensures Join(sep, p + q) == Join(sep, p) + sep + Join(sep, q)
    decreases |p|
  {
    assert (p + q)[0] == p[0];
    if |p| == 1 {
      assert (p + q)[1..] == q;
    } else {
      assert (p + q)[1..] == p[1..] + q;
      JoinAppend(sep, p[1..], q);
      var jt, jq := Join(sep, p[1..]), Join(sep, q);
      assert p[0] + sep + (jt + sep + jq) == (p[0] + sep + jt) + sep + jq;
    }
  }

  /** The summary of two non-empty lists is their summaries joined by `, `:
      items are written in their original order. */
  lemma SummaryAppend(a: seq<Item>, b: seq<Item>)
    requires a != [] && b != []
    ensures Summary(a + b) == Summary(a) + ", " + Summary(b)
  {
    assert Entries(a + b) == Entries(a) + Entries(b);
    JoinAppend(", ", Entries(a), Entries(b));
  }

  /** Reads one `<quantity>x <name>` part. */
  function ParseEntry(e: string): Option<(int, string)> {
    var k := IndexOf(e, 'x');
    if k + 1 < |e| && e[k + 1] == ' ' then
      match ParseInt(e[..k])
      case Some(q) => Some((q, e[k + 2..]))
      case None => None
    else None
  }

  lemma EntryRoundTrip(item: Item)
    ensures ParseEntry(Entry(item)) == Some((item.quantity, item.name))
  {
    var q := IntToDecimal(item.quantity);
    var tail := "x " + item.name;
    var e := Entry(item);
    assert e == q + tail;
    assert IndexOf(tail, 'x') == 0;
    IndexOfAfter(q, tail, 'x');
    IntRoundTrip(item.quantity);
    assert e[..|q|] == q;
    assert e[|q| + 1] == ' ';
    assert e[|q| + 2..] == item.name;
  }

  /** Reads a summary line of at least one part. */
  function ParseEntries(s: string): Option<seq<(int, string)>>
    decreases |s|
  {
    var k := IndexOf(s, ',');
    match ParseEntry(s[..k])
    case None => None
    case Some(e) =>
      if k == |s| then Some([e])
      else if k + 1 < |s| && s[k + 1] == ' ' then
        match ParseEntries(s[k + 2..])
        case Some(rest) => Some([e] + rest)
        case None => None
      else None
  }

  /** Reads a summary line back into quantities and names. */
  function ParseSummary(s: string): Option<seq<(int, string)>> {
    if s == "" then Some([]) else ParseEntries(s)
  }

  /** What the summary line is meant to convey: each item's quantity and name. */
  function QuantitiesAndNames(items: seq<Item>): seq<(int, string)> {
    seq(|items|, i requires 0 <= i < |items| => (items[i].quantity, items[i].name))
  }

  predicate NoCommaInNames(items: seq<Item>) {
    forall i :: 0 <= i < |items| ==> ',' !in items[i].name
  }

  /** The summary of two or more items is the first entry, `, `, and the
      summary of the others. */
  lemma SummaryCons(items: seq<Item>)
    requires |items| >= 2
    ensures Summary(items) == Entry(items[0]) + ", " + Summary(items[1..])
  {
    assert Entries(items)[1..] == Entries(items[1..]);
  }

  /** The summary of one item is its entry. */
  lemma SummaryOne(items: seq<Item>)
    requires |items| == 1
    ensures Summary(items) == Entry(items[0])
  {
    assert Entries(items) == [Entry(items[0])];
  }

  /** A comma-free part alone parses as that part. */
  lemma ParseEntriesLast(e: string, p: (int, string))
    requires ',' !in e && ParseEntry(e) == Some(p)
    ensures ParseEntries(e) == Some([p])
  {
    IndexOfAfter(e, "", ',');
    assert e + "" == e;
    assert IndexOf(e, ',') == |e|;
    assert e[..|e|] == e;
  }

  /** A comma-free part followed by `, ` and a summary parses as that part
      followed by the summary's parts. */
  lemma ParseEntriesCons(e: string, rest: string, p: (int, string), ps: seq<(int, string)>)
    requires ',' !in e && ParseEntry(e) == Some(p)
    requires ParseEntries(rest) == Some(ps)
    ensures ParseEntries(e + ", " + rest) == Some([p] + ps)
  {
    var s := e + ", " + rest;
    assert s == e + (", " + rest);
    IndexOfAfter(e, ", " + rest, ',');
    assert IndexOf(", " + rest, ',') == 0;
    var k := IndexOf(s, ',');
    assert k == |e|;
    assert s[..k] == e;
    assert s[k + 1] == ' ';
    assert s[k + 2..] == rest;
  }

  lemma RoundTripOne(items: seq<Item>)
    requires |items| == 1 && ',' !in items[0].name
    ensures ParseSummary(Summary(items)) == Some(QuantitiesAndNames(items))
  {
    var e := Entry(items[0]);
    var p := (items[0].quantity, items[0].name);
    EntryRoundTrip(items[0]);
    ParseEntriesLast(e, p);
    SummaryOne(items);
    assert QuantitiesAndNames(items) == [p];
  }

  lemma QuantitiesAndNamesCons(items: seq<Item>)
    requires items != []
    ensures QuantitiesAndNames(items) == [(items[0].quantity, items[0].name)] + QuantitiesAndNames(items[1..])
  {
  }

  lemma RoundTripCons(items: seq<Item>)
    requires |items| >= 2 && ',' !in items[0].name
    requires ParseSummary(Summary(items[1..])) == Some(QuantitiesAndNames(items[1..]))
    ensures ParseSummary(Summary(items)) == Some(QuantitiesAndNames(items))
  {
    var rest := items[1..];
    var e := Entry(items[0]);
    var p := (items[0].quantity, items[0].name);
    var ps := QuantitiesAndNames(rest);
    var tail := Summary(rest);
    EntryRoundTrip(items[0]);
    ParseEntriesCons(e, tail, p, ps);
    SummaryCons(items);
    QuantitiesAndNamesCons(items);
  }

  /** When no dish name contains a comma, the summary line can be read back
      into every item's quantity and name, in the original order. */
  lemma {:induction false} SummaryRoundTrip(items: seq<Item>)
    requires NoCommaInNames(items)
    ensures ParseSummary(Summary(items)) == Some(QuantitiesAndNames(items))
    decreases |items|
  {
    if items == [] {
      assert Entries(items) == [];
      assert Summary(items) == "";
      assert QuantitiesAndNames(items) == [];
    } else {
      assert ',' !in items[0].name;
      if |items| == 1 {
        RoundTripOne(items);
      } else {
        var rest := items[1..];
        assert NoCommaInNames(rest) by {
          forall i | 0 <= i < |rest| ensures ',' !in rest[i].name {
            assert rest[i] == items[i + 1];
          }
        }
        SummaryRoundTrip(rest);
        RoundTripCons(items);
      }
    }
  }
}
