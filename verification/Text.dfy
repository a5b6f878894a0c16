/** Text as the driver builds it: decimal numbers, joined lists, Kubernetes name limits. */
module Text {

  const MAX_NAME := 63

  /** Go's `name[:63]` for names over the Kubernetes limit. */
  function Truncate(s: string): (r: string)
    ensures r <= s && |r| <= 63 && (|r| < 63 ==> r == s)
  {
    if |s| > MAX_NAME then s[..MAX_NAME] else s
  }

  function Digit(d: nat): char
    requires d < 10
  {
    '0' + d as char
  }

  /** Decimal notation without leading zeros. */
  function Decimal(n: nat): (s: string)
    ensures |s| > 0 && forall i :: 0 <= i < |s| ==> '0' <= s[i] <= '9'
    ensures |s| > 1 ==> s[0] != '0'
  {
    if n < 10 then [Digit(n)] else
      var front := Decimal(n / 10);
      assert n >= 10 && |front| == 1 ==> front[0] != '0' by {  }
      front + [Digit(n % 10)]
  }

  /** The value of a string of digits. */
  function Number(s: string): nat
    requires forall i :: 0 <= i < |s| ==> '0' <= s[i] <= '9'
  {
    if s == [] then 0 else 10 * Number(s[..|s| - 1]) + (s[|s| - 1] - '0') as nat
  }

  lemma {:induction false} NumberOfDecimal(n: nat)
    ensures Number(Decimal(n)) == n
  {
    if n >= 10 {
      NumberOfDecimal(n / 10);
      assert Decimal(n)[..|Decimal(n)| - 1] == Decimal(n / 10);
    }
  }

  function FormatInt(n: int): string {
    if n < 0 then "-" + Decimal(-n) else Decimal(n)
  }

  predicate Digits(s: string) {
    s != "" && forall i :: 0 <= i < |s| ==> '0' <= s[i] <= '9'
  }

  /** The decimal notation of n: a sign for negative numbers only, no leading zeros. */
  predicate Spells(s: string, n: int) {
    if n < 0 then
      s != "" && s[0] == '-' && Digits(s[1..]) && s[1] != '0' && Number(s[1..]) == -n
    else
      Digits(s) && (s[0] == '0' ==> |s| == 1) && Number(s) == n
  }

  lemma DigitsFront(s: string)
    requires Digits(s)
    ensures var front, d := s[..|s| - 1], (s[|s| - 1] - '0') as nat;
      && s == front + [s[|s| - 1]] && d < 10 && Number(s) == 10 * Number(front) + d
      && (front != "" ==> Digits(front) && front[0] == s[0])
  {
  }

  /** A number without leading zeros has one notation. */
  lemma {:induction false} SpelledOnce(s: string, t: string)
    requires Digits(s) && Digits(t) && (s[0] == '0' ==> |s| == 1) && (t[0] == '0' ==> |t| == 1) && Number(s) == Number(t)
    ensures s == t
  {
    var a, b := s[..|s| - 1], t[..|t| - 1];
    DigitsFront(s);
    DigitsFront(t);
    assert Number(a) == Number(b) && s[|s| - 1] == t[|t| - 1];
    if a != "" && b != "" {
      SpelledOnce(a, b);
    } else if a != "" {
      NoLeadingZero(a);
    } else if b != "" {
      NoLeadingZero(b);
    }
  }

  lemma {:induction false} NoLeadingZero(s: string)
    requires Digits(s) && s[0] != '0'
    ensures Number(s) > 0
  {
    DigitsFront(s);
    if |s| > 1 {
      NoLeadingZero(s[..|s| - 1]);
    }
  }

  lemma FormatSpells(n: int)
    ensures Spells(FormatInt(n), n)
  {
    NumberOfDecimal(if n < 0 then -n else n);
    if n < 0 {
      var d := Decimal(-n);
      assert FormatInt(n)[1..] == d;
      assert Number("0") == 0;
    }
  }

  lemma SpellsExactly(s: string, n: int)
    ensures Spells(s, n) <==> s == FormatInt(n)
  {
    FormatSpells(n);
    if Spells(s, n) {
      var t := FormatInt(n);
      if n < 0 {
        SpelledOnce(s[1..], t[1..]);
        assert s == "-" + s[1..] && t == "-" + t[1..];
      } else {
        SpelledOnce(s, t);
      }
    }
  }

  function Join(parts: seq<string>, sep: string): string {
    if parts == [] then "" else if |parts| == 1 then parts[0] else parts[0] + sep + Join(parts[1..], sep)
  }

  lemma JoinHead(a: seq<string>, b: seq<string>, sep: string)
    requires a != [] && b != []
    ensures Join(a + b, sep) == a[0] + sep + Join(a[1..] + b, sep)
    ensures |a| == 1 ==> a[1..] + b == b && Join(a, sep) == a[0]
    ensures |a| > 1 ==> Join(a, sep) == a[0] + sep + Join(a[1..], sep)
  {
    assert (a + b)[1..] == a[1..] + b && (a + b)[0] == a[0];
  }

  lemma JoinGrouped(a: string, b: string, c: string, d: string)
    ensures a + (b + c + d) == a + b + c + d
  {
  }

  /** Joining lists is joining what they join to. */
  lemma {:induction false} JoinExactly(a: seq<string>, b: seq<string>, x: string, sep: string)
    ensures Join([], sep) == "" && Join([x], sep) == x
    ensures a != [] && b != [] ==> Join(a + b, sep) == Join(a, sep) + sep + Join(b, sep)
  {
    if a != [] && b != [] {
      JoinHead(a, b, sep);
      if |a| > 1 {
        JoinExactly(a[1..], b, x, sep);
        JoinGrouped(a[0] + sep, Join(a[1..], sep), sep, Join(b, sep));
      }
    }
  }

  /** Byte-wise string order. */
  predicate StringLe(a: string, b: string) {
    a == "" || (b != "" && (a[0] < b[0] || (a[0] == b[0] && StringLe(a[1..], b[1..]))))
  }

  lemma {:induction false} StringLeTotal(a: string, b: string)
    ensures StringLe(a, b) || StringLe(b, a)
    ensures StringLe(a, b) && StringLe(b, a) ==> a == b
  {
    if a != "" && b != "" && a[0] == b[0] {
      StringLeTotal(a[1..], b[1..]);
      if a[1..] == b[1..] {
        assert a == [a[0]] + a[1..] && b == [b[0]] + b[1..];
      }
    }
  }

  lemma {:induction false} StringLeTransitive(a: string, b: string, c: string)
    requires StringLe(a, b) && StringLe(b, c)
    ensures StringLe(a, c)
  {
    if a != "" && a[0] == b[0] == c[0] {
      StringLeTransitive(a[1..], b[1..], c[1..]);
    }
  }

  /** A string comes before those that it begins, and those that have a greater character
      where the two first differ. */
  lemma {:induction false} StringLeExactly(a: string, b: string)
    ensures StringLe(a, b) <==> a <= b || exists i :: 0 <= i < |a| && i < |b| && a[..i] == b[..i] && a[i] < b[i]
  {
    if a != "" && b != "" {
      var s, t := a[1..], b[1..];
      StringLeExactly(s, t);
      if a[0] == b[0] {
        assert a == [a[0]] + s && b == [b[0]] + t;
        if i :| 0 <= i < |s| && i < |t| && s[..i] == t[..i] && s[i] < t[i] {
          assert a[..i + 1] == [a[0]] + s[..i] && b[..i + 1] == [b[0]] + t[..i] && a[i + 1] < b[i + 1];
        }
        if i :| 0 <= i < |a| && i < |b| && a[..i] == b[..i] && a[i] < b[i] {
          assert i > 0;
          assert s[..i - 1] == a[..i][1..] && t[..i - 1] == b[..i][1..] && s[i - 1] < t[i - 1];
        }
      } else {
        assert a[..0] == b[..0];
        assert forall i :: 0 < i <= |a| && i <= |b| ==> a[..i] != b[..i] by {
          assert forall i :: 0 < i <= |a| && i <= |b| ==> a[..i][0] != b[..i][0];
        }
      }
    }
  }
}
