/** Composite device names, pool names and lookup keys, and what each can be decoded to. */
module Names {

  import opened Text

  // ---------- Device names ----------

  function ReplaceAll(s: string, c: char, d: char): string {
    seq(|s|, i requires 0 <= i < |s| => if s[i] == c then d else s[i])
  }

  function Lower(s: string): string {
    seq(|s|, i requires 0 <= i < |s| => if 'A' <= s[i] <= 'Z' then s[i] + ('a' - 'A') else s[i])
  }

  /** What a character becomes: separators a hyphen, capitals small, all else itself. */
  predicate CleanOf(c: char, d: char) {
    if c in {':', '/', '.'} then d == '-'
    else if 'A' <= c <= 'Z' then d as int == c as int + 32
    else d == c
  }

  /** sanitizeName. */
  function Sanitize(s: string): (r: string)
    ensures |r| == |s| && '/' !in r && '.' !in r && ':' !in r
    ensures forall i :: 0 <= i < |s| ==> CleanOf(s[i], r[i])
  {
    var r := Lower(ReplaceAll(ReplaceAll(ReplaceAll(s, ':', '-'), '/', '-'), '.', '-'));
    assert forall i :: 0 <= i < |s| ==> r[i] != '/' && r[i] != '.' && r[i] != ':';
    r
  }

  function SanitizeAll(names: seq<string>): seq<string> {
    seq(|names|, i requires 0 <= i < |names| => Sanitize(names[i]))
  }

  /** The name of a composite device with the given member device names. */
  function CompositeName(names: seq<string>): string {
    Truncate(Join(SanitizeAll(names), "--"))
  }

  predicate Alnum(c: char) {
    'a' <= c <= 'z' || '0' <= c <= '9'
  }

  /** A lower-case label per section 2.1 of RFC 1123 without two hyphens in a row. */
  predicate Plain(s: string) {
    && s != "" && Alnum(s[0]) && Alnum(s[|s| - 1])
    && (forall i :: 0 <= i < |s| ==> Alnum(s[i]) || s[i] == '-')
    && (forall i :: 0 <= i < |s| - 1 ==> !(s[i] == '-' && s[i + 1] == '-'))
  }

  predicate AllPlain(names: seq<string>) {
    forall i :: 0 <= i < |names| ==> Plain(names[i])
  }

  lemma PlainIsClean(s: string)
    requires Plain(s)
    ensures Sanitize(s) == s
  {
    assert forall i :: 0 <= i < |s| ==> Sanitize(s)[i] == s[i];
  }

  /** The first part of a "--"-joined list of plain names cannot be a longer one. */
  lemma HeadNotLonger(a: seq<string>, b: seq<string>)
    requires AllPlain(a) && AllPlain(b) && a != [] && b != [] && Join(a, "--") == Join(b, "--")
    ensures |b[0]| <= |a[0]|
  {
    var s := Join(a, "--");
    assert |a| > 1 ==> s[|a[0]|] == '-' && s[|a[0]| + 1] == '-';
  }

  /** Unique decodability: joined plain names are equal only if the lists are. */
  lemma {:induction false} JoinInjective(a: seq<string>, b: seq<string>)
    requires AllPlain(a) && AllPlain(b) && Join(a, "--") == Join(b, "--")
    ensures a == b
  {
    if a != [] && b != [] {
      HeadNotLonger(a, b);
      HeadNotLonger(b, a);
      var n := |a[0]|;
      assert a[0] == Join(a, "--")[..n] == b[0];
      if |a| > 1 && |b| > 1 {
        assert Join(a, "--")[n + 2..] == Join(a[1..], "--") && Join(b, "--")[n + 2..] == Join(b[1..], "--");
        JoinInjective(a[1..], b[1..]);
        assert a == [a[0]] + a[1..] && b == [b[0]] + b[1..];
      }
    }
  }

  lemma PlainComposite(a: seq<string>)
    requires AllPlain(a)
    ensures CompositeName(a) == Truncate(Join(a, "--"))
  {
    forall i | 0 <= i < |a| ensures SanitizeAll(a)[i] == a[i] {
      PlainIsClean(a[i]);
    }
    assert SanitizeAll(a) == a;
  }

  /** Composite names within the length limit determine the member device names. */
  lemma CompositeNameInjective(a: seq<string>, b: seq<string>)
    requires AllPlain(a) && AllPlain(b)
    requires |Join(a, "--")| <= MAX_NAME && |Join(b, "--")| <= MAX_NAME
    requires CompositeName(a) == CompositeName(b)
    ensures a == b
  {
    PlainComposite(a);
    PlainComposite(b);
    JoinInjective(a, b);
  }

  /** The same list but for a digit after its last name. */
  function Longer(a: seq<string>): seq<string>
    requires a != []
  {
    a[..|a| - 1] + [a[|a| - 1] + "0"]
  }

  lemma {:induction false} JoinLonger(a: seq<string>)
    requires a != []
    ensures Join(Longer(a), "--") == Join(a, "--") + "0"
  {
    if |a| == 1 {
      assert Longer(a) == [a[0] + "0"];
    } else {
      JoinLonger(a[1..]);
      assert Longer(a)[1..] == Longer(a[1..]) && Longer(a)[0] == a[0];
      assert Join(Longer(a), "--") == a[0] + "--" + (Join(a[1..], "--") + "0");
    }
  }

  /** Exactly which composite names determine their lists of plain device names: those of
      fewer than 63 characters.  A name of 63 is also the cut of longer ones. */
  lemma CompositeNameUniqueExactly(a: seq<string>)
    requires AllPlain(a)
    ensures (forall b :: AllPlain(b) && CompositeName(b) == CompositeName(a) ==> b == a) <==> |Join(a, "--")| < MAX_NAME
  {
    PlainComposite(a);
    if |Join(a, "--")| < MAX_NAME {
      forall b | AllPlain(b) && CompositeName(b) == CompositeName(a) ensures b == a {
        PlainComposite(b);
        JoinInjective(a, b);
      }
    } else {
      var b := Longer(a);
      assert Plain(b[|a| - 1]);
      PlainComposite(b);
      JoinLonger(a);
      assert Truncate(Join(b, "--")) == Truncate(Join(a, "--"));
      assert |b[|a| - 1]| != |a[|a| - 1]|;
    }
  }

  lemma {:induction false} JoinWithout(parts: seq<string>, sep: string, c: char)
    requires c !in sep && forall i :: 0 <= i < |parts| ==> c !in parts[i]
    ensures c !in Join(parts, sep)
  {
    if |parts| > 1 {
      JoinWithout(parts[1..], sep, c);
    }
  }

  lemma CompositeNameHasNoSlash(names: seq<string>)
    ensures '/' !in CompositeName(names)
  {
    JoinWithout(SanitizeAll(names), "--", '/');
  }

  // ---------- Pools and keys ----------

  function PoolName(driver: string, node: string, composition: string): string {
    driver + "-" + node + "-" + composition
  }

  /** On one node, the pool name determines the composition. */
  lemma PoolNameInjective(driver: string, node: string, a: string, b: string)
    requires PoolName(driver, node, a) == PoolName(driver, node, b)
    ensures a == b
  {
    var n := |driver + "-" + node + "-"|;
    assert PoolName(driver, node, a)[n..] == a && PoolName(driver, node, b)[n..] == b;
  }

  /** The device store's map key. */
  function StoreKey(pool: string, device: string): string {
    pool + "/" + device
  }

  /** The last slash separates pool and device. */
  lemma StoreKeyInjective(p: string, d: string, q: string, e: string)
    requires StoreKey(p, d) == StoreKey(q, e) && '/' !in d && '/' !in e
    ensures p == q && d == e
  {
    var s := StoreKey(p, d);
    assert s[|p|] == '/' && s[|q|] == '/';
    assert forall i :: |p| < i < |s| ==> s[i] == d[i - |p| - 1];
    assert forall i :: |q| < i < |s| ==> s[i] == e[i - |q| - 1];
    assert |p| == |q|;
    assert p == s[..|p|] && q == s[..|q|];
    assert d == s[|p| + 1..] && e == s[|q| + 1..];
  }
}
