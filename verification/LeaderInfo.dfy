/** The leader's address: four numbers, printed and parsed in dotted-decimal form. */
module LeaderInfos {
  import opened Messages

  // ---- Decimal numbers ----

  function Ten(n: nat): nat { if n == 0 then 1 else 10 * Ten(n - 1) }

  function Numeral(n: nat): (s: string)
    ensures s != ""
    decreases n
  {
    if n < 10 then ['0' + n as char] else Numeral(n / 10) + ['0' + (n % 10) as char]
  }

  function Decimal(x: int): (s: string)
    ensures s != ""
  {
    if x < 0 then "-" + Numeral(-x) else Numeral(x)
  }

  /** The number the parser makes of the characters between two dots. */
  function Value(s: string): int {
    if s == "" then 0 else 10 * Value(s[..|s| - 1]) + (s[|s| - 1] as int - '0' as int)
  }

  /** The first digit counts the highest power of ten. */
  lemma {:induction false} ValueByPlace(s: string)
    requires s != ""
    ensures Value(s) == (s[0] as int - '0' as int) * Ten(|s| - 1) + Value(s[1..])
  {
    if |s| == 1 {
      assert s[..0] == "" && s[1..] == "";
    } else {
      var front := s[..|s| - 1];
      ValueByPlace(front);
      assert front[1..] == s[1..][..|s| - 2];
    }
  }

  /** A number of up to three digits, by arithmetic. */
  lemma ThreeDigits(s: string)
    requires 1 <= |s| <= 3
    ensures var d := s[|s| - 1] as int - '0' as int;
            Value(s) == d + (if |s| < 2 then 0 else 10 * (s[|s| - 2] as int - '0' as int))
                        + (if |s| < 3 then 0 else 100 * (s[0] as int - '0' as int))
  {
    assert Ten(2) == 100 && Ten(1) == 10 && Ten(0) == 1;
    ValueByPlace(s);
    if |s| > 1 {
      ValueByPlace(s[1..]);
      if |s| > 2 { ValueByPlace(s[2..]); assert s[1..][1..] == s[2..]; }
    }
  }

  predicate IsDigit(c: char) { '0' <= c <= '9' }

  predicate AllDigits(s: string) { forall k :: 0 <= k < |s| ==> IsDigit(s[k]) }

  /** The usual form of a number: digits, and no zero in front. */
  predicate Plain(s: string) {
    s != "" && AllDigits(s) && (s[0] == '0' ==> |s| == 1)
  }

  lemma {:induction false} PrintedValue(n: nat)
    ensures Value(Numeral(n)) == n && Plain(Numeral(n))
    ensures n < Ten(|Numeral(n)|) && (n > 0 ==> Numeral(n)[0] != '0')
  {
    var s := Numeral(n);
    if n >= 10 {
      PrintedValue(n / 10);
      assert s[..|s| - 1] == Numeral(n / 10);
    } else {
      assert s[..0] == "";
    }
  }

  lemma {:induction false} ValueBounds(s: string)
    requires AllDigits(s)
    ensures 0 <= Value(s) && (s != "" && s[0] != '0' ==> 0 < Value(s))
  {
    if s != "" { ValueBounds(s[..|s| - 1]); }
  }

  lemma {:induction false} PlainPrinted(s: string)
    requires Plain(s)
    ensures 0 <= Value(s) && Numeral(Value(s)) == s
  {
    var front := s[..|s| - 1];
    ValueBounds(front);
    if front != "" {
      PlainPrinted(front);
      assert Value(s) / 10 == Value(front) && Value(s) >= 10;
    }
  }

  lemma {:induction false} PrefixValue(s: string, k: nat)
    requires AllDigits(s) && k <= |s|
    ensures 0 <= Value(s[..k]) <= Value(s)
    decreases |s| - k
  {
    ValueBounds(s[..k]);
    if k < |s| {
      PrefixValue(s, k + 1);
      assert s[..k + 1][..k] == s[..k];
    } else {
      assert s[..k] == s;
    }
  }

  lemma {:induction false} SignedValue(s: string)
    requires AllDigits(s)
    ensures Value("-" + s) == Value(s) - 3 * Ten(|s|)
  {
    var t := "-" + s;
    if s == "" {
      assert t[..0] == "";
    } else {
      assert t[..|t| - 1] == "-" + s[..|s| - 1];
      SignedValue(s[..|s| - 1]);
    }
  }

  /** A printed number is parsed back exactly when it is not negative. */
  lemma DecimalRoundTrip(x: int)
    ensures Value(Decimal(x)) == x <==> 0 <= x
  {
    if x < 0 {
      PrintedValue(-x);
      SignedValue(Numeral(-x));
    } else {
      PrintedValue(x);
    }
  }

  // ---- Components ----

  /** The parts of a string between its dots; one more than there are dots. */
  function Split(s: string): (parts: seq<string>)
    ensures parts != []
  {
    if s == "" then [""]
    else
      var before, c := Split(s[..|s| - 1]), s[|s| - 1];
      if c == '.' then before + [""]
      else before[|before| - 1 := before[|before| - 1] + [c]]
  }

  function Last(parts: seq<string>): string
    requires parts != []
  {
    parts[|parts| - 1]
  }

  function Join(parts: seq<string>): string
    requires parts != []
  {
    if |parts| == 1 then parts[0] else Join(parts[..|parts| - 1]) + "." + Last(parts)
  }

  predicate NoDot(s: string) { forall k :: 0 <= k < |s| ==> s[k] != '.' }

  lemma {:induction false} JoinSplit(s: string)
    ensures Join(Split(s)) == s
    ensures forall k :: 0 <= k < |Split(s)| ==> NoDot(Split(s)[k])
  {
    if s != "" {
      var front := s[..|s| - 1];
      JoinSplit(front);
      var before, parts := Split(front), Split(s);
      if s[|s| - 1] == '.' {
        assert parts[..|parts| - 1] == before;
      } else {
        assert parts[..|parts| - 1] == before[..|before| - 1];
        assert NoDot(Last(parts));
      }
    }
  }

  /** Characters that are not dots extend the last part. */
  lemma {:induction false} SplitTail(s: string, t: string)
    requires NoDot(t)
    ensures Split(s + t) == Split(s)[|Split(s)| - 1 := Last(Split(s)) + t]
  {
    if t == "" {
      assert s + t == s && Last(Split(s)) + t == Last(Split(s));
    } else {
      var t0 := t[..|t| - 1];
      SplitTail(s, t0);
      assert (s + t)[..|s + t| - 1] == s + t0;
      assert Last(Split(s)) + t0 + [t[|t| - 1]] == Last(Split(s)) + t;
    }
  }

  lemma SplitDot(s: string, t: string)
    requires NoDot(t)
    ensures Split(s + "." + t) == Split(s) + [t]
  {
    assert (s + ".")[..|s|] == s;
    SplitTail(s + ".", t);
    assert Split(s + ".") == Split(s) + [""] && "" + t == t;
  }

  // ---- The address ----

  function Dotted(a: int, b: int, c: int, d: int): string {
    Decimal(a) + "." + Decimal(b) + "." + Decimal(c) + "." + Decimal(d)
  }

  /** What the parser needs of its input: at most three dots, as there is room for four
      numbers, and every number on the way in the range of the machine's integers. */
  predicate Fits(s: string) {
    |Split(s)| <= 4 &&
    forall k :: 0 <= k < |s| && s[k] != '.' ==>
      var v := Value(Last(Split(s[..k])));
      Int32(10 * v) && Int32(10 * v + (s[k] as int - '0' as int))
  }

  /** An address in the usual form. */
  predicate Canonical(s: string) {
    |Split(s)| == 4 && forall k :: 0 <= k < 4 ==> Plain(Split(s)[k]) && Int32(Value(Split(s)[k]))
  }

  lemma DecimalNoDot(x: int)
    ensures NoDot(Decimal(x)) && (0 <= x ==> Plain(Decimal(x)))
  {
    PrintedValue(if x < 0 then -x else x);
  }

  /** Four strings without dots, with dots between them, are the parts in this order. */
  lemma FourParts(a: string, b: string, c: string, d: string)
    requires NoDot(a) && NoDot(b) && NoDot(c) && NoDot(d)
    ensures Split(a + "." + b + "." + c + "." + d) == [a, b, c, d]
  {
    SplitTail("", a);
    assert "" + a == a;
    SplitDot(a, b);
    SplitDot(a + "." + b, c);
    SplitDot(a + "." + b + "." + c, d);
  }

  lemma SplitDotted(a: int, b: int, c: int, d: int)
    ensures Split(Dotted(a, b, c, d)) == [Decimal(a), Decimal(b), Decimal(c), Decimal(d)]
  {
    DecimalNoDot(a);
    DecimalNoDot(b);
    DecimalNoDot(c);
    DecimalNoDot(d);
    FourParts(Decimal(a), Decimal(b), Decimal(c), Decimal(d));
  }

  /** Parts only grow while more of the string is read. */
  lemma {:induction false} SplitGrows(s: string, k: nat)
    requires k <= |s|
    ensures var p, q := Split(s[..k]), Split(s);
            |p| <= |q| && p[..|p| - 1] <= q && Last(p) <= q[|p| - 1]
    decreases |s| - k
  {
    if k == |s| {
      assert s[..k] == s;
    } else {
      SplitGrows(s, k + 1);
      assert s[..k + 1][..k] == s[..k];
    }
  }

  /** A canonical address never overflows, and never asks for a fifth number. */
  lemma CanonicalFits(s: string)
    requires Canonical(s)
    ensures Fits(s)
  {
    forall k | 0 <= k < |s| && s[k] != '.'
      ensures var v := Value(Last(Split(s[..k]))); Int32(10 * v) && Int32(10 * v + (s[k] as int - '0' as int))
    {
      var p := Split(s[..k + 1]);
      assert s[..k + 1][..k] == s[..k];
      SplitGrows(s, k + 1);
      var part := Split(s)[|p| - 1];
      assert Last(p) == part[..|Last(p)|];
      PrefixValue(part, |Last(p)|);
      assert AllDigits(Last(p));
      var before := Last(Split(s[..k]));
      assert Last(p) == before + [s[k]];
      assert Last(p)[..|before|] == before;
      assert IsDigit(Last(p)[|before|]);
      ValueBounds(before);
    }
  }

  /** Four numbers that fit the machine's integers are restored exactly when none of them is
      negative. */
  lemma AddressRoundTrip(a: int, b: int, c: int, d: int)
    requires Int32(a) && Int32(b) && Int32(c) && Int32(d)
    ensures var parts := Split(Dotted(a, b, c, d));
            && |parts| == 4
            && ((Fits(Dotted(a, b, c, d)) && Value(parts[0]) == a && Value(parts[1]) == b
                 && Value(parts[2]) == c && Value(parts[3]) == d)
                <==> 0 <= a && 0 <= b && 0 <= c && 0 <= d)
  {
    SplitDotted(a, b, c, d);
    var parts := Split(Dotted(a, b, c, d));
    assert parts[0] == Decimal(a) && parts[1] == Decimal(b) && parts[2] == Decimal(c) && parts[3] == Decimal(d);
    DecimalRoundTrip(a);
    DecimalRoundTrip(b);
    DecimalRoundTrip(c);
    DecimalRoundTrip(d);
    if 0 <= a && 0 <= b && 0 <= c && 0 <= d {
      DecimalNoDot(a);
      DecimalNoDot(b);
      DecimalNoDot(c);
      DecimalNoDot(d);
      CanonicalFits(Dotted(a, b, c, d));
    }
  }

  /** A canonical address is printed back as it was. */
  lemma CanonicalRoundTrip(s: string)
    requires Canonical(s)
    ensures var parts := Split(s);
            Fits(s) && Dotted(Value(parts[0]), Value(parts[1]), Value(parts[2]), Value(parts[3])) == s
  {
    CanonicalFits(s);
    JoinSplit(s);
    var parts := Split(s);
    PlainPrinted(parts[0]);
    PlainPrinted(parts[1]);
    PlainPrinted(parts[2]);
    PlainPrinted(parts[3]);
    assert Join(parts) == Join(parts[..3]) + "." + parts[3];
    assert parts[..3][..2] == parts[..2] && parts[..2][..1] == parts[..1];
    assert Join(parts[..3]) == Join(parts[..2]) + "." + parts[2];
    assert Join(parts[..2]) == parts[0] + "." + parts[1];
  }

  class LeaderInfo {
    var ip0: int
    var ip1: int
    var ip2: int
    var ip3: int
    var port: int

    constructor ()
      ensures ip0 == ip1 == ip2 == ip3 == port == 0
    {
      ip0, ip1, ip2, ip3, port := 0, 0, 0, 0, 0;
    }

    method GetIp() returns (s: string)
      ensures s == Dotted(ip0, ip1, ip2, ip3)
    {
      s := Decimal(ip0) + "." + Decimal(ip1) + "." + Decimal(ip2) + "." + Decimal(ip3);
    }

    /** Numbers for which the string has no part keep what the memory held. */
    method ParseIp(ip: string)
      requires Fits(ip)
      modifies this`ip0, this`ip1, this`ip2, this`ip3
      ensures var parts := Split(ip);
              && ip0 == Value(parts[0])
              && (|parts| > 1 ==> ip1 == Value(parts[1]))
              && (|parts| > 2 ==> ip2 == Value(parts[2]))
              && (|parts| > 3 ==> ip3 == Value(parts[3]))
    {
      var curNum, i: nat := 0, 0;
      var ips := new int[4];
      for k := 0 to |ip|
        invariant Scanned(ip, k, i, ips[..], curNum)
      {
        var c := ip[k];
        if c == '.' {
          ScanDot(ip, k, i, ips[..], curNum);
          ips[i] := curNum;
          i, curNum := i + 1, 0;
        } else {
          ScanDigit(ip, k, i, ips[..], curNum);
          assert Int32(curNum * 10) && Int32(curNum * 10 + (c as int - '0' as int));
          curNum := curNum * 10 + (c as int - '0' as int);
        }
      }
      assert ip[..|ip|] == ip;
      ips[i] := curNum;
      ip0, ip1, ip2, ip3 := ips[0], ips[1], ips[2], ips[3];
    }

    method SetLeaderInfo(ip: string, port: int)
      requires Fits(ip)
      modifies this
      ensures this.port == port && ip0 == Value(Split(ip)[0])
      ensures Canonical(ip) ==> Dotted(ip0, ip1, ip2, ip3) == ip
    {
      this.port := port;
      ParseIp(ip);
      if Canonical(ip) { CanonicalRoundTrip(ip); }
    }
  }

  /** What one more character of the address does to its parts. */
  lemma NextChar(ip: string, k: nat)
    requires k < |ip| && Fits(ip)
    ensures var before, after := Split(ip[..k]), Split(ip[..k + 1]);
            && |after| <= 4
            && if ip[k] == '.' then after == before + [""]
               else && |after| == |before| && after[..|after| - 1] == before[..|before| - 1]
                    && Value(Last(after)) == 10 * Value(Last(before)) + (ip[k] as int - '0' as int)
  {
    assert ip[..k + 1][..k] == ip[..k];
    SplitGrows(ip, k + 1);
    var before, c := Last(Split(ip[..k])), ip[k];
    assert (before + [c])[..|before|] == before;
  }

  /** The parser's variables after the first `k` characters. */
  predicate Scanned(ip: string, k: nat, i: nat, ips: seq<int>, curNum: int) {
    k <= |ip| && |ips| == 4 &&
    var parts := Split(ip[..k]);
    i == |parts| - 1 < 4 && curNum == Value(Last(parts)) && forall j :: 0 <= j < i ==> ips[j] == Value(parts[j])
  }

  lemma ScanDot(ip: string, k: nat, i: nat, ips: seq<int>, curNum: int)
    requires Scanned(ip, k, i, ips, curNum) && k < |ip| && Fits(ip) && ip[k] == '.'
    ensures Scanned(ip, k + 1, i + 1, ips[i := curNum], 0)
  {
    NextChar(ip, k);
  }

  lemma ScanDigit(ip: string, k: nat, i: nat, ips: seq<int>, curNum: int)
    requires Scanned(ip, k, i, ips, curNum) && k < |ip| && Fits(ip) && ip[k] != '.'
    ensures Int32(10 * curNum) && Int32(10 * curNum + (ip[k] as int - '0' as int))
    ensures Scanned(ip, k + 1, i, ips, 10 * curNum + (ip[k] as int - '0' as int))
  {
    NextChar(ip, k);
  }
}
