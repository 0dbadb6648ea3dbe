/**
 * The text the contract writes into its `winners` attribute: each winner
 * rendered the way Rust's `u32::to_string` renders it, the renderings joined
 * with ", ". Beside each renderer stands a reader, and the lemmas prove that
 * reading gives back exactly what was rendered.
 */
module Text {
  import opened Wrappers

  predicate IsDigit(c: char) {
    '0' <= c <= '9'
  }

  predicate AllDigits(s: string) {
    forall i :: 0 <= i < |s| ==> IsDigit(s[i])
  }

  function DigitChar(d: nat): (c: char)
    requires d < 10
    ensures IsDigit(c) && c as int - '0' as int == d
  {
    ('0' as int + d) as char
  }

  /** Decimal rendering without leading zeros, as `to_string` writes an unsigned integer. */
  function ToDecimal(n: nat): (s: string)
    ensures |s| > 0 && AllDigits(s)
    ensures (s[0] == '0') == (n == 0)
    ensures s[0] == '0' ==> |s| == 1
  {
    if n < 10 then [DigitChar(n)] else ToDecimal(n / 10) + [DigitChar(n % 10)]
  }

  /** The number a string of decimal digits denotes. */
  function DecimalValue(s: string): nat
    requires AllDigits(s)
  {
    if s == [] then 0 else DecimalValue(s[..|s| - 1]) * 10 + (s[|s| - 1] as int - '0' as int)
  }

  lemma {:induction false} DecimalRoundTrip(n: nat)
    ensures DecimalValue(ToDecimal(n)) == n
  {
    if n >= 10 {
      var s := ToDecimal(n);
      assert s[..|s| - 1] == ToDecimal(n / 10);
      DecimalRoundTrip(n / 10);
    }
  }

  /** Two numbers render alike only when they are equal. */
  lemma ToDecimalInjective(a: nat, b: nat)
    ensures ToDecimal(a) == ToDecimal(b) ==> a == b
  {
    DecimalRoundTrip(a);
    DecimalRoundTrip(b);
  }

  /** The combined length of `parts`. */
  function TotalLength(parts: seq<string>): nat
  {
    if parts == [] then 0 else |parts[0]| + TotalLength(parts[1..])
  }

  /**
   * `parts.join(sep)`: the parts in order, `sep` between neighbours. The result
   * starts with the first part and holds exactly one separator fewer than there
   * are parts.
   */
  function Join(parts: seq<string>, sep: string): (s: string)
    ensures |parts| > 0 ==> parts[0] <= s
    ensures |parts| > 0 ==> |s| == TotalLength(parts) + (|parts| - 1) * |sep|
    ensures |parts| == 0 ==> s == ""
  {
    if |parts| == 0 then ""
    else if |parts| == 1 then parts[0]
    else parts[0] + sep + Join(parts[1..], sep)
  }

  /**
   * Joining one more part appends the separator and that part: the
   * left-to-right way `join` builds its result.
   */
  lemma {:induction false} JoinAppend(parts: seq<string>, p: string, sep: string)
    requires parts != []
    ensures Join(parts + [p], sep) == Join(parts, sep) + sep + p
  {
    if |parts| > 1 {
      assert (parts + [p])[1..] == parts[1..] + [p];
      JoinAppend(parts[1..], p, sep);
    }
  }

  /** `ws.iter().map(|&x| x.to_string()).collect::<Vec<String>>()`. */
  function Decimals(ws: seq<nat>): (parts: seq<string>)
    ensures |parts| == |ws|
    ensures forall i :: 0 <= i < |ws| ==> parts[i] == ToDecimal(ws[i])
  {
    if ws == [] then [] else [ToDecimal(ws[0])] + Decimals(ws[1..])
  }

  /**
   * The value of the `winners` attribute. It determines the winners list
   * exactly, order included; the empty list renders as the empty string.
   */
  function WinnersString(ws: seq<nat>): (s: string)
    ensures ParseWinners(s) == Some(ws)
  {
    var s := Join(Decimals(ws), ", ");
    assert ParseWinners(s) == Some(ws) by {
      if ws != [] {
        ParseItemsJoin(ws);
        assert ToDecimal(ws[0]) != "";
      }
    }
    s
  }

  /** How many decimal digits `s` starts with. */
  function LeadingDigits(s: string): (k: nat)
    ensures k <= |s| && AllDigits(s[..k])
    ensures k < |s| ==> !IsDigit(s[k])
  {
    if s == [] || !IsDigit(s[0]) then 0 else 1 + LeadingDigits(s[1..])
  }

  /** Reads a non-empty list written as numbers separated by ", ". */
  function ParseItems(s: string): Option<seq<nat>>
    decreases |s|
  {
    var k := LeadingDigits(s);
    if k == 0 then None
    else if k == |s| then Some([DecimalValue(s)])
    else if k + 2 <= |s| && s[k..k + 2] == ", " then
      match ParseItems(s[k + 2..])
      case None => None
      case Some(rest) => Some([DecimalValue(s[..k])] + rest)
    else None
  }

  /** Reads the value of a `winners` attribute back into the list of winners. */
  function ParseWinners(s: string): Option<seq<nat>>
  {
    if s == "" then Some([]) else ParseItems(s)
  }

  lemma {:induction false} LeadingDigitsOf(d: string, rest: string)
    requires AllDigits(d)
    requires rest == [] || !IsDigit(rest[0])
    ensures LeadingDigits(d + rest) == |d|
  {
    if d != [] {
      assert (d + rest)[1..] == d[1..] + rest;
      LeadingDigitsOf(d[1..], rest);
    }
  }

  lemma {:induction false} ParseItemsJoin(ws: seq<nat>)
    requires ws != []
    ensures ParseItems(Join(Decimals(ws), ", ")) == Some(ws)
  {
    var d := ToDecimal(ws[0]);
    var s := Join(Decimals(ws), ", ");
    DecimalRoundTrip(ws[0]);
    if |ws| == 1 {
      LeadingDigitsOf(d, []);
      assert d + [] == d;
      assert s == d;
      assert ws == [ws[0]];
    } else {
      var tail := Join(Decimals(ws[1..]), ", ");
      assert Decimals(ws)[1..] == Decimals(ws[1..]);
      assert s == d + (", " + tail);
      LeadingDigitsOf(d, ", " + tail);
      assert s[..|d|] == d;
      assert s[|d|..|d| + 2] == ", ";
      assert s[|d| + 2..] == tail;
      ParseItemsJoin(ws[1..]);
      assert [ws[0]] + ws[1..] == ws;
    }
  }
}
