/**
 * The text the client writes into a submission body: Python's `str()` of an
 * integer and `",".join(...)` of such strings, together with the parsers that
 * read them back, so that contracts can say what a body field denotes.
 */
module Decimal {
  import opened Wrappers

  predicate IsDigit(c: char)
  {
    '0' <= c <= '9'
  }

  predicate AllDigits(s: string)
  {
    forall i :: 0 <= i < |s| ==> IsDigit(s[i])
  }

  function DigitChar(d: nat): (c: char)
    requires d < 10
    ensures IsDigit(c) && c as int - '0' as int == d
  {
    ('0' as int + d) as char
  }

  /** `str(n)` for n >= 0: decimal digits, no leading zero except for 0 itself. */
  function NatToString(n: nat): (s: string)
    ensures |s| >= 1 && AllDigits(s)
    ensures s[0] == '0' <==> n == 0
    decreases n
  {
    if n < 10 then [DigitChar(n)] else NatToString(n / 10) + [DigitChar(n % 10)]
  }

  /** The number a string of decimal digits denotes. */
  function DigitsValue(s: string): nat
    requires AllDigits(s)
  {
    if s == [] then 0 else 10 * DigitsValue(s[..|s| - 1]) + (s[|s| - 1] as int - '0' as int)
  }

  /** `str(i)`: a minus sign for negative numbers, then the digits. */
  function IntToString(i: int): (s: string)
    ensures |s| >= 1
    ensures forall k :: 0 <= k < |s| ==> s[k] == '-' || IsDigit(s[k])
  {
    if i < 0 then "-" + NatToString(-i) else NatToString(i)
  }

  /** `int(s)` restricted to what `str` produces: an optional minus sign and at
      least one digit; anything else is rejected. */
  function ParseInt(s: string): Option<int>
  {
    if |s| > 1 && s[0] == '-' && AllDigits(s[1..]) then Some(-(DigitsValue(s[1..]) as int))
    else if |s| > 0 && AllDigits(s) then Some(DigitsValue(s))
    else None
  }

  /** `sep.join(parts)`: the pieces in order, with exactly one separator
      between consecutive pieces when no piece holds one. */
  function Join(parts: seq<string>, sep: char): (s: string)
    ensures parts == [] ==> s == ""
    ensures parts != [] ==> |parts[0]| <= |s| && s[..|parts[0]|] == parts[0]
    ensures parts != [] && (forall i :: 0 <= i < |parts| ==> sep !in parts[i]) ==>
      multiset(s)[sep] == |parts| - 1
  {
    if parts == [] then ""
    else if |parts| == 1 then parts[0]
    else parts[0] + [sep] + Join(parts[1..], sep)
  }

  /** `s.split(sep)`: the pieces between separators; at least one piece. */
  function Split(s: string, sep: char): (parts: seq<string>)
    ensures |parts| >= 1
  {
    if s == [] then [""]
    else
      var rest := Split(s[1..], sep);
      if s[0] == sep then [""] + rest else [[s[0]] + rest[0]] + rest[1..]
  }

  /** The `sub_file_index` text: the integers written with `str`, comma-joined. */
  function JoinInts(xs: seq<int>): string
  {
    Join(seq(|xs|, i requires 0 <= i < |xs| => IntToString(xs[i])), ',')
  }

  function ParseAll(parts: seq<string>): Option<seq<int>>
  {
    if parts == [] then Some([])
    else match (ParseInt(parts[0]), ParseAll(parts[1..]))
      case (Some(x), Some(xs)) => Some([x] + xs)
      case _ => None
  }

  /** Reads a comma-joined list of integers back; the empty text is the empty list. */
  function ParseInts(s: string): Option<seq<int>>
  {
    if s == "" then Some([]) else ParseAll(Split(s, ','))
  }

  lemma {:induction false} NatToStringValue(n: nat)
    ensures DigitsValue(NatToString(n)) == n
    decreases n
  {
    if n >= 10 {
      NatToStringValue(n / 10);
      var s := NatToString(n);
      assert s[..|s| - 1] == NatToString(n / 10);
    }
  }

  /** `int(str(i)) == i`. */
  lemma IntToStringRoundTrip(i: int)
    ensures ParseInt(IntToString(i)) == Some(i)
  {
    if i < 0 {
      NatToStringValue(-i);
      assert IntToString(i)[1..] == NatToString(-i);
    } else {
      NatToStringValue(i);
    }
  }

  lemma {:induction false} SplitNoSep(p: string, sep: char)
    requires sep !in p
    ensures Split(p, sep) == [p]
    decreases p
  {
    if p != [] {
      SplitNoSep(p[1..], sep);
      assert [p[0]] + p[1..] == p;
    }
  }

  lemma {:induction false} SplitAtSep(p: string, t: string, sep: char)
    requires sep !in p
    ensures Split(p + [sep] + t, sep) == [p] + Split(t, sep)
    decreases p
  {
    var s := p + [sep] + t;
    if p == [] {
      assert s[1..] == t;
    } else {
      assert s[1..] == p[1..] + [sep] + t;
      SplitAtSep(p[1..], t, sep);
      assert [p[0]] + p[1..] == p;
    }
  }

  /** Splitting a join gives the pieces back when no piece holds the separator. */
  lemma {:induction false} SplitJoin(parts: seq<string>, sep: char)
    requires parts != []
    requires forall i :: 0 <= i < |parts| ==> sep !in parts[i]
    ensures Split(Join(parts, sep), sep) == parts
    decreases parts
  {
    if |parts| == 1 {
      SplitNoSep(parts[0], sep);
    } else {
      SplitJoin(parts[1..], sep);
      SplitAtSep(parts[0], Join(parts[1..], sep), sep);
      assert [parts[0]] + parts[1..] == parts;
    }
  }

  lemma {:induction false} ParseAllStrings(xs: seq<int>)
    ensures ParseAll(seq(|xs|, i requires 0 <= i < |xs| => IntToString(xs[i]))) == Some(xs)
    decreases xs
  {
    if xs != [] {
      var parts := seq(|xs|, i requires 0 <= i < |xs| => IntToString(xs[i]));
      assert parts[1..] == seq(|xs[1..]|, i requires 0 <= i < |xs[1..]| => IntToString(xs[1..][i]));
      ParseAllStrings(xs[1..]);
      IntToStringRoundTrip(xs[0]);
      assert [xs[0]] + xs[1..] == xs;
    }
  }

  /** The `sub_file_index` text reads back as exactly the list that was joined. */
  lemma JoinIntsRoundTrip(xs: seq<int>)
    ensures ParseInts(JoinInts(xs)) == Some(xs)
  {
    var parts := seq(|xs|, i requires 0 <= i < |xs| => IntToString(xs[i]));
    if xs != [] {
      assert |Join(parts, ',')| >= |parts[0]| >= 1;
      assert forall i :: 0 <= i < |parts| ==> ',' !in parts[i];
      SplitJoin(parts, ',');
    }
    ParseAllStrings(xs);
  }
}
