/**
 JSON values, JSON Pointer (RFC 6901) and the `add` and `remove` operations of JSON Patch
 (sections 4.1 and 4.2 of RFC 6902).
 */
module JsonPatch {

  import opened Options
  import opened Text

  datatype Json =
    | Null
    | Bool(flag: bool)
    | Num(text: string)
    | Str(str: string)
    | Arr(items: seq<Json>)
    | Obj(fields: map<string, Json>)

  // ---------- Reference tokens ----------

  /** Every occurrence of the pair a b, from the left, becomes c. */
  function ReplacePair(s: string, a: char, b: char, c: char): string {
    if |s| < 2 then s
    else if s[0] == a && s[1] == b then [c] + ReplacePair(s[2..], a, b, c)
    else [s[0]] + ReplacePair(s[1..], a, b, c)
  }

  /** Section 4 of RFC 6901: first "~1" becomes '/', then "~0" becomes '~'. */
  function Unescape(token: string): string {
    ReplacePair(ReplacePair(token, '~', '1', '/'), '~', '0', '~')
  }

  function EscapeChar(c: char): string {
    if c == '~' then "~0" else if c == '/' then "~1" else [c]
  }

  /** The character-wise escaping of jsonPatchEscape. */
  function Escape(s: string): string {
    if s == "" then "" else EscapeChar(s[0]) + Escape(s[1..])
  }

  lemma {:induction false} EscapeAppend(a: string, c: char)
    ensures Escape(a + [c]) == Escape(a) + EscapeChar(c)
  {
    if a == "" {
      assert "" + [c] == [c] && [c][1..] == "";
    } else {
      EscapeAppend(a[1..], c);
      assert (a + [c])[1..] == a[1..] + [c];
      assert Escape(a + [c]) == EscapeChar(a[0]) + (Escape(a[1..]) + EscapeChar(c));
    }
  }

  /** jsonPatchEscape. */
  method JsonPatchEscape(s: string) returns (r: string)
    ensures r == Escape(s)
  {
    r := "";
    for i := 0 to |s|
      invariant r == Escape(s[..i])
    {
      EscapeAppend(s[..i], s[i]);
      assert s[..i + 1] == s[..i] + [s[i]];
      if s[i] == '~' {
        r := r + "~0";
      } else if s[i] == '/' {
        r := r + "~1";
      } else {
        r := r + [s[i]];
      }
    }
    assert s[..|s|] == s;
  }

  /** Only tildes escaped: what the first decoding pass leaves. */
  function TildeEscape(s: string): string {
    if s == "" then "" else (if s[0] == '~' then "~0" else [s[0]]) + TildeEscape(s[1..])
  }

  lemma ReplaceMiss(x: char, s: string, a: char, b: char, d: char)
    requires x != b
    ensures ReplacePair([a, x] + s, a, b, d) == [a] + ReplacePair([x] + s, a, b, d)
  {
    assert ([a, x] + s)[1..] == [x] + s;
  }

  lemma {:induction false} FirstPass(s: string)
    ensures ReplacePair(Escape(s), '~', '1', '/') == TildeEscape(s)
  {
    if s == "" {
    } else {
      FirstPass(s[1..]);
      if s[0] == '~' {
        ReplaceMiss('0', Escape(s[1..]), '~', '1', '/');
      }
    }
  }

  lemma {:induction false} SecondPass(s: string)
    ensures ReplacePair(TildeEscape(s), '~', '0', '~') == s
  {
    if s == "" {
    } else {
      SecondPass(s[1..]);
      assert s == [s[0]] + s[1..];
    }
  }

  /** Escaping is undone by decoding, for every string. */
  lemma UnescapeEscape(s: string)
    ensures Unescape(Escape(s)) == s
  {
    FirstPass(s);
    SecondPass(s);
  }

  lemma {:induction false} EscapeHasNoSlash(s: string)
    ensures '/' !in Escape(s)
  {
    if s == "" {
    } else {
      EscapeHasNoSlash(s[1..]);
    }
  }

  lemma {:induction false} PlainToken(t: string)
    requires '~' !in t
    ensures Unescape(t) == t
  {
    ReplaceNothing(t, '1', '/');
    ReplaceNothing(t, '0', '~');
  }

  lemma {:induction false} ReplaceNothing(t: string, b: char, c: char)
    requires '~' !in t
    ensures ReplacePair(t, '~', b, c) == t
  {
    if |t| >= 2 {
      ReplaceNothing(t[1..], b, c);
    }
  }

  // ---------- Pointers ----------

  /** The parts between slashes. */
  function Split(s: string): (r: seq<string>)
    ensures r != []
  {
    if s == "" then [""]
    else if s[0] == '/' then [""] + Split(s[1..])
    else
      var r := Split(s[1..]);
      [[s[0]] + r[0]] + r[1..]
  }

  function UnescapeAll(parts: seq<string>): seq<string> {
    seq(|parts|, i requires 0 <= i < |parts| => Unescape(parts[i]))
  }

  /** The tokens of a pointer; None if it neither is empty nor starts with a slash. */
  function Tokens(pointer: string): Option<seq<string>> {
    if pointer == "" then Some([])
    else if pointer[0] != '/' then None
    else Some(UnescapeAll(Split(pointer[1..])))
  }

  /** Raw tokens written as a pointer. */
  function Pointer(parts: seq<string>): string {
    if parts == [] then "" else "/" + parts[0] + Pointer(parts[1..])
  }

  lemma {:induction false} SplitLast(t: string)
    requires '/' !in t
    ensures Split(t) == [t]
  {
    if t == "" {
    } else {
      SplitLast(t[1..]);
      assert [t[0]] + t[1..] == t;
    }
  }

  lemma {:induction false} SplitFirst(t: string, rest: string)
    requires '/' !in t
    ensures Split(t + "/" + rest) == [t] + Split(rest)
  {
    if t == "" {
      assert t + "/" + rest == "/" + rest && ("/" + rest)[1..] == rest;
    } else {
      SplitFirst(t[1..], rest);
      assert (t + "/" + rest)[1..] == t[1..] + "/" + rest;
      assert [t[0]] + t[1..] == t;
    }
  }

  lemma {:induction false} SplitPointer(parts: seq<string>)
    requires parts != [] && forall i :: 0 <= i < |parts| ==> '/' !in parts[i]
    ensures Split(Pointer(parts)[1..]) == parts
  {
    if |parts| == 1 {
      assert Pointer(parts)[1..] == parts[0];
      SplitLast(parts[0]);
    } else {
      var rest := Pointer(parts[1..]);
      SplitPointer(parts[1..]);
      assert rest == "/" + rest[1..];
      assert Pointer(parts)[1..] == parts[0] + "/" + rest[1..];
      SplitFirst(parts[0], rest[1..]);
    }
  }

  lemma TokensOfPointer(parts: seq<string>)
    requires parts != [] && forall i :: 0 <= i < |parts| ==> '/' !in parts[i]
    ensures Tokens(Pointer(parts)) == Some(UnescapeAll(parts))
  {
    SplitPointer(parts);
  }

  // ---------- Operations ----------

  datatype Change = Put(value: Json) | Drop

  datatype Op = Add(path: string, value: Json) | Remove(path: string) {
    function Effect(): Change {
      if Add? then Put(value) else Drop
    }
  }

  predicate IsNumber(token: string) {
    token != "" && (forall i :: 0 <= i < |token| ==> '0' <= token[i] <= '9') && (|token| > 1 ==> token[0] != '0')
  }

  /** The array position that a token names, if any: digits without leading zeros. */
  function Position(token: string): Option<nat> {
    if IsNumber(token) then Some(Number(token)) else None
  }

  /** The operation at its parent: members are set or removed, array elements inserted,
      appended for "-", or removed. */
  function AtParent(parent: Json, token: string, change: Change): Option<Json> {
    match parent
    case Obj(fields) =>
      if change.Put? then Some(Obj(fields[token := change.value]))
      else if token in fields then Some(Obj(fields - {token})) else None
    case Arr(items) =>
      if token == "-" then (if change.Put? then Some(Arr(items + [change.value])) else None)
      else
        var p := Position(token);
        if p.None? then None
        else if change.Put? && p.value <= |items| then Some(Arr(items[..p.value] + [change.value] + items[p.value..]))
        else if change.Drop? && p.value < |items| then Some(Arr(items[..p.value] + items[p.value + 1..]))
        else None
    case _ => None
  }

  function Child(parent: Json, token: string): Option<Json> {
    match parent
    case Obj(fields) => Find(fields, token)
    case Arr(items) => (var p := Position(token); if p.Some? && p.value < |items| then Some(items[p.value]) else None)
    case _ => None
  }

  function WithChild(parent: Json, token: string, child: Json): Json
    requires Child(parent, token).Some?
  {
    match parent
    case Obj(fields) => Obj(fields[token := child])
    case Arr(items) => Arr(items[Position(token).value := child])
  }

  /** The document after a change at a path; None is an error, as for a missing parent. */
  function ChangeAt(doc: Json, tokens: seq<string>, change: Change): Option<Json> {
    if tokens == [] then (if change.Put? then Some(change.value) else None)
    else if |tokens| == 1 then AtParent(doc, tokens[0], change)
    else
      var child := Child(doc, tokens[0]);
      if child.None? then None
      else
        var r := ChangeAt(child.value, tokens[1..], change);
        if r.None? then None else Some(WithChild(doc, tokens[0], r.value))
  }

  function Apply(doc: Json, op: Op): Option<Json> {
    var tokens := Tokens(op.path);
    if tokens.None? then None else ChangeAt(doc, tokens.value, op.Effect())
  }

  /** A patch: its operations in order; the first error is the result. */
  function ApplyAll(doc: Json, ops: seq<Op>): Option<Json> {
    if ops == [] then Some(doc)
    else
      var before := ApplyAll(doc, ops[..|ops| - 1]);
      if before.None? then None else Apply(before.value, ops[|ops| - 1])
  }

  lemma DecimalPosition(i: nat)
    ensures Position(Decimal(i)) == Some(i) && '/' !in Decimal(i) && '~' !in Decimal(i) && Decimal(i) != "-"
  {
    NumberOfDecimal(i);
  }

  /** Adding to an array inserts before the element of that number, or appends for the
      number after the last or a hyphen; removing there undoes it; beyond the end both fail. */
  lemma InsertThenRemove(items: seq<Json>, i: nat, value: Json)
    ensures i <= |items| ==>
      && AtParent(Arr(items), Decimal(i), Put(value)) == Some(Arr(items[..i] + [value] + items[i..]))
      && AtParent(Arr(items[..i] + [value] + items[i..]), Decimal(i), Drop) == Some(Arr(items))
    ensures i > |items| ==> AtParent(Arr(items), Decimal(i), Put(value)) == None
    ensures i >= |items| ==> AtParent(Arr(items), Decimal(i), Drop) == None
    ensures AtParent(Arr(items), "-", Put(value)) == Some(Arr(items + [value]))
  {
    DecimalPosition(i);
    if i <= |items| {
      TakenOut(items, i, value);
    }
  }

  lemma TakenOut(items: seq<Json>, i: nat, value: Json)
    requires i <= |items|
    ensures var more := items[..i] + [value] + items[i..]; i < |more| && more[..i] + more[i + 1..] == items
  {
    var more := items[..i] + [value] + items[i..];
    assert more[..i] == items[..i] && more[i + 1..] == items[i..];
  }

  /** A change below a member of an object. */
  lemma InObject(fields: map<string, Json>, key: string, rest: seq<string>, change: Change, after: Json)
    requires key in fields && rest != [] && ChangeAt(fields[key], rest, change) == Some(after)
    ensures ChangeAt(Obj(fields), [key] + rest, change) == Some(Obj(fields[key := after]))
  {
    assert ([key] + rest)[1..] == rest;
  }

  /** A change below an element of an array. */
  lemma InArray(items: seq<Json>, i: nat, rest: seq<string>, change: Change, after: Json)
    requires i < |items| && rest != [] && ChangeAt(items[i], rest, change) == Some(after)
    ensures ChangeAt(Arr(items), [Decimal(i)] + rest, change) == Some(Arr(items[i := after]))
  {
    assert ([Decimal(i)] + rest)[1..] == rest;
    DecimalPosition(i);
  }
}
