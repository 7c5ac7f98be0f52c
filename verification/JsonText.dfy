/**
 * JSON values and their text as `JSON.stringify` writes it, without the freedom of key order: the text
 * of a value determines the value.
 *
 * Numbers are their JSON literals. A character is a Unicode scalar value, so lone surrogates are not
 * part of this model.
 */
module JsonText {
  datatype Entry<+V> = Entry(key: string, value: V)

  /** The entries of an object are in the order in which they are enumerated. */
  datatype Json =
    | Null
    | Bool(on: bool)
    | Num(literal: string)
    | Str(text: string)
    | Arr(items: seq<Json>)
    | Obj(entries: seq<Entry<Json>>)

  predicate NumberChar(c: char) {
    '0' <= c <= '9' || c == '-' || c == '+' || c == '.' || c == 'e' || c == 'E'
  }

  predicate DistinctKeys<V>(entries: seq<Entry<V>>) {
    forall i, j :: 0 <= i < j < |entries| ==> entries[i].key != entries[j].key
  }

  /** Number literals look like numbers, and no object repeats a key. */
  predicate Valid(v: Json) {
    match v
    case Num(literal) =>
      && literal != "" && ('0' <= literal[0] <= '9' || literal[0] == '-')
      && forall c :: c in literal ==> NumberChar(c)
    case Arr(items) => forall i :: 0 <= i < |items| ==> Valid(items[i])
    case Obj(entries) => DistinctKeys(entries) && forall i :: 0 <= i < |entries| ==> Valid(entries[i].value)
    case _ => true
  }

  predicate ValidValues(entries: seq<Entry<Json>>) {
    forall i :: 0 <= i < |entries| ==> Valid(entries[i].value)
  }

  // ---------------------------------------------------------------- strings

  function HexDigit(n: nat): char
    requires n < 16
  {
    "0123456789abcdef"[n]
  }

  /** One character inside the quotes. */
  function Escape(c: char): string {
    if c == '"' then "\\\""
    else if c == '\\' then "\\\\"
    else if c as int == 8 then "\\b"
    else if c as int == 9 then "\\t"
    else if c as int == 10 then "\\n"
    else if c as int == 12 then "\\f"
    else if c as int == 13 then "\\r"
    else if (c as int) < 32 then "\\u00" + [HexDigit(c as int / 16), HexDigit(c as int % 16)]
    else [c]
  }

  function EscapeAll(s: string): string {
    if s == "" then "" else Escape(s[0]) + EscapeAll(s[1..])
  }

  function Quote(s: string): string {
    "\"" + EscapeAll(s) + "\""
  }

  // ---------------------------------------------------------------- values

  function Render(v: Json): string {
    match v
    case Null => "null"
    case Bool(on) => if on then "true" else "false"
    case Num(literal) => literal
    case Str(text) => Quote(text)
    case Arr(items) => "[" + RenderItems(items) + "]"
    case Obj(entries) => "{" + RenderEntries(entries) + "}"
  }

  function RenderItems(items: seq<Json>): string {
    if items == [] then ""
    else if |items| == 1 then Render(items[0])
    else Render(items[0]) + "," + RenderItems(items[1..])
  }

  function RenderEntries(entries: seq<Entry<Json>>): string {
    if entries == [] then ""
    else if |entries| == 1 then Quote(entries[0].key) + ":" + Render(entries[0].value)
    else Quote(entries[0].key) + ":" + Render(entries[0].value) + "," + RenderEntries(entries[1..])
  }

  // ---------------------------------------------------------------- the text determines the value

  lemma HexDigitsDiffer(m: nat, n: nat)
    requires m < 16 && n < 16 && HexDigit(m) == HexDigit(n)
    ensures m == n
  {
  }

  /** No escape is the beginning of another one, and none begins with the closing quote. */
  lemma EscapeIsPrefixCode(c: char, d: char, x: string, y: string)
    requires Escape(c) + x == Escape(d) + y
    ensures c == d && x == y
  {
    var s := Escape(c) + x;
    assert s[0] == Escape(c)[0] == Escape(d)[0];
    if s[0] == '\\' {
      assert s[1] == Escape(c)[1] == Escape(d)[1];
      if s[1] == 'u' {
        assert s[4] == Escape(c)[4] == Escape(d)[4] && s[5] == Escape(c)[5] == Escape(d)[5];
        HexDigitsDiffer(c as int / 16, d as int / 16);
        HexDigitsDiffer(c as int % 16, d as int % 16);
      }
    }
    assert c == d;
    assert x == s[|Escape(c)|..] == y;
  }

  lemma EscapeStarts(c: char)
    ensures Escape(c) != "" && Escape(c)[0] != '"'
  {
  }

  /** The inside of a quoted string, the closing quote, and what follows. */
  function Tail(s: string, rest: string): string {
    EscapeAll(s) + ("\"" + rest)
  }

  lemma QuoteSplit(s: string, rest: string)
    ensures Quote(s) + rest == "\"" + Tail(s, rest)
  {
  }

  lemma TailSteps(s: string, rest: string)
    ensures s == "" ==> Tail(s, rest) == "\"" + rest
    ensures s != "" ==> Tail(s, rest) == Escape(s[0]) + Tail(s[1..], rest) && Tail(s, rest) != "" && Tail(s, rest)[0] != '"'
  {
    if s != "" {
      EscapeStarts(s[0]);
    }
  }

  lemma {:induction false} TailIsPrefixCode(s: string, t: string, x: string, y: string)
    requires Tail(s, x) == Tail(t, y)
    ensures s == t && x == y
    decreases |s|
  {
    TailSteps(s, x);
    TailSteps(t, y);
    if s == "" {
      assert Tail(t, y)[0] == '"';
      assert x == Tail(s, x)[1..] && y == Tail(t, y)[1..];
    } else {
      assert t != "";
      EscapeIsPrefixCode(s[0], t[0], Tail(s[1..], x), Tail(t[1..], y));
      TailIsPrefixCode(s[1..], t[1..], x, y);
      assert s == [s[0]] + s[1..] && t == [t[0]] + t[1..];
    }
  }

  lemma QuoteIsPrefixCode(s: string, t: string, x: string, y: string)
    requires Quote(s) + x == Quote(t) + y
    ensures s == t && x == y
  {
    QuoteSplit(s, x);
    QuoteSplit(t, y);
    assert Tail(s, x) == (Quote(s) + x)[1..] == (Quote(t) + y)[1..] == Tail(t, y);
    TailIsPrefixCode(s, t, x, y);
  }

  /** A value ends where the text ends, or before a comma or a closing bracket. */
  predicate Ends(rest: string) {
    rest == "" || rest[0] == ',' || rest[0] == ']' || rest[0] == '}'
  }

  predicate NumberStart(c: char) {
    '0' <= c <= '9' || c == '-'
  }

  /** The first character tells the kind of a value. */
  function Start(v: Json): char
    requires Valid(v)
  {
    match v
    case Null => 'n'
    case Bool(on) => if on then 't' else 'f'
    case Num(literal) => literal[0]
    case Str(_) => '"'
    case Arr(_) => '['
    case Obj(_) => '{'
  }

  lemma StartsWith(v: Json, rest: string)
    requires Valid(v)
    ensures Render(v) != "" && (Render(v) + rest)[0] == Start(v)
    ensures Start(v) != ']' && Start(v) != '}' && Start(v) != ','
  {
  }

  lemma NumberIsPrefixCode(m: string, n: string, x: string, y: string)
    requires Valid(Num(m)) && Valid(Num(n)) && Ends(x) && Ends(y) && m + x == n + y
    ensures m == n && x == y
  {
    assert forall k :: 0 <= k < |m| ==> m[k] in m && NumberChar((m + x)[k]);
    assert forall k :: 0 <= k < |n| ==> n[k] in n && NumberChar((n + y)[k]);
    assert x != "" ==> !NumberChar((m + x)[|m|]);
    assert y != "" ==> !NumberChar((n + y)[|n|]);
    assert |m| == |n|;
    assert m == (m + x)[..|m|] && n == (n + y)[..|n|];
    assert x == (m + x)[|m|..] && y == (n + y)[|n|..];
  }

  /** A list and its closing bracket. */
  function ItemsTail(items: seq<Json>, rest: string): string {
    RenderItems(items) + ("]" + rest)
  }

  function EntriesTail(entries: seq<Entry<Json>>, rest: string): string {
    RenderEntries(entries) + ("}" + rest)
  }

  /** What follows the first item. */
  function AfterItem(items: seq<Json>, rest: string): string
    requires items != []
  {
    if |items| == 1 then "]" + rest else "," + ItemsTail(items[1..], rest)
  }

  function AfterEntry(entries: seq<Entry<Json>>, rest: string): string
    requires entries != []
  {
    if |entries| == 1 then "}" + rest else "," + EntriesTail(entries[1..], rest)
  }

  lemma Regroup(q: string, r: string, more: string)
    ensures (q + ":" + r) + more == q + (":" + (r + more))
  {
  }

  lemma RegroupTail(head: string, more: string, end: string)
    ensures (head + "," + more) + end == head + ("," + (more + end))
  {
  }

  lemma ItemsSplit(items: seq<Json>, rest: string)
    ensures Render(Arr(items)) + rest == "[" + ItemsTail(items, rest)
    ensures items == [] ==> ItemsTail(items, rest) == "]" + rest
    ensures items != [] ==> ItemsTail(items, rest) == Render(items[0]) + AfterItem(items, rest)
    ensures items != [] ==> Ends(AfterItem(items, rest))
  {
    if items == [] {
    } else if |items| > 1 {
      RegroupTail(Render(items[0]), RenderItems(items[1..]), "]" + rest);
    }
  }

  lemma EntriesSplit(entries: seq<Entry<Json>>, rest: string)
    ensures Render(Obj(entries)) + rest == "{" + EntriesTail(entries, rest)
    ensures entries == [] ==> EntriesTail(entries, rest) == "}" + rest
    ensures entries != [] ==>
              EntriesTail(entries, rest) ==
              Quote(entries[0].key) + (":" + (Render(entries[0].value) + AfterEntry(entries, rest)))
    ensures entries != [] ==> Ends(AfterEntry(entries, rest))
  {
    if entries == [] {
    } else {
      var q, r := Quote(entries[0].key), Render(entries[0].value);
      Regroup(q, r, AfterEntry(entries, rest));
      if |entries| > 1 {
        RegroupTail(q + ":" + r, RenderEntries(entries[1..]), "}" + rest);
      }
    }
  }

  lemma SameHeadAndTail<V>(a: seq<V>, b: seq<V>)
    requires a != [] && b != [] && a[0] == b[0]
    requires (|a| == 1 && |b| == 1) || a[1..] == b[1..]
    ensures a == b
  {
    assert a == [a[0]] + a[1..] && b == [b[0]] + b[1..];
  }

  /** Main lemma: no valid value is written as the beginning of another one. */
  lemma {:induction false} RenderIsPrefixCode(v: Json, w: Json, x: string, y: string)
    requires Valid(v) && Valid(w) && Ends(x) && Ends(y)
    requires Render(v) + x == Render(w) + y
    ensures v == w && x == y
    decreases v, 1
  {
    StartsWith(v, x);
    StartsWith(w, y);
    var text := Render(v) + x;
    match v
    case Null => assert x == text[4..] == y;
    case Bool(on) => assert w == v && x == text[|Render(v)|..] == y;
    case Num(m) => NumberIsPrefixCode(m, w.literal, x, y);
    case Str(s) => QuoteIsPrefixCode(s, w.text, x, y);
    case Arr(items) =>
      ItemsSplit(items, x);
      ItemsSplit(w.items, y);
      assert ItemsTail(items, x) == text[1..] == ItemsTail(w.items, y);
      ItemsArePrefixCode(items, w.items, x, y);
    case Obj(entries) =>
      EntriesSplit(entries, x);
      EntriesSplit(w.entries, y);
      assert EntriesTail(entries, x) == text[1..] == EntriesTail(w.entries, y);
      EntriesArePrefixCode(entries, w.entries, x, y);
  }

  lemma AfterItemSplit(a: seq<Json>, b: seq<Json>, x: string, y: string)
    requires a != [] && b != [] && AfterItem(a, x) == AfterItem(b, y)
    ensures |a| == 1 <==> |b| == 1
    ensures |a| == 1 ==> x == y
    ensures |a| > 1 ==> ItemsTail(a[1..], x) == ItemsTail(b[1..], y)
  {
    assert AfterItem(a, x)[0] == AfterItem(b, y)[0];
    assert AfterItem(a, x)[1..] == if |a| == 1 then x else ItemsTail(a[1..], x);
    assert AfterItem(b, y)[1..] == if |b| == 1 then y else ItemsTail(b[1..], y);
  }

  lemma ValidItems(items: seq<Json>)
    requires Valid(Arr(items)) && items != []
    ensures Valid(items[0]) && Valid(Arr(items[1..]))
  {
  }

  lemma EmptyItems(b: seq<Json>, x: string, y: string)
    requires Valid(Arr(b))
    requires "]" + x == ItemsTail(b, y)
    ensures b == [] && x == y
  {
    ItemsSplit(b, y);
    assert ItemsTail(b, y)[0] == ']';
    if b == [] {
      assert x == ItemsTail(b, y)[1..] == y;
    } else {
      ValidItems(b);
      StartsWith(b[0], AfterItem(b, y));
    }
  }

  lemma {:induction false} ItemsArePrefixCode(a: seq<Json>, b: seq<Json>, x: string, y: string)
    requires Valid(Arr(a)) && Valid(Arr(b))
    requires ItemsTail(a, x) == ItemsTail(b, y)
    ensures a == b && x == y
    decreases a, 0
  {
    ItemsSplit(a, x);
    ItemsSplit(b, y);
    if a == [] {
      EmptyItems(b, x, y);
    } else if b == [] {
      EmptyItems(a, y, x);
    } else {
      ValidItems(a);
      ValidItems(b);
      RenderIsPrefixCode(a[0], b[0], AfterItem(a, x), AfterItem(b, y));
      AfterItemSplit(a, b, x, y);
      if |a| > 1 {
        ItemsArePrefixCode(a[1..], b[1..], x, y);
      }
      SameHeadAndTail(a, b);
    }
  }

  lemma ValidEntries(entries: seq<Entry<Json>>)
    requires ValidValues(entries) && entries != []
    ensures Valid(entries[0].value) && ValidValues(entries[1..])
  {
  }

  lemma AfterEntrySplit(a: seq<Entry<Json>>, b: seq<Entry<Json>>, x: string, y: string)
    requires a != [] && b != [] && AfterEntry(a, x) == AfterEntry(b, y)
    ensures |a| == 1 <==> |b| == 1
    ensures |a| == 1 ==> x == y
    ensures |a| > 1 ==> EntriesTail(a[1..], x) == EntriesTail(b[1..], y)
  {
    assert AfterEntry(a, x)[0] == AfterEntry(b, y)[0];
    assert AfterEntry(a, x)[1..] == if |a| == 1 then x else EntriesTail(a[1..], x);
    assert AfterEntry(b, y)[1..] == if |b| == 1 then y else EntriesTail(b[1..], y);
  }

  lemma {:induction false} EntriesArePrefixCode(a: seq<Entry<Json>>, b: seq<Entry<Json>>, x: string, y: string)
    requires ValidValues(a) && ValidValues(b)
    requires EntriesTail(a, x) == EntriesTail(b, y)
    ensures a == b && x == y
    decreases a, 0
  {
    EntriesSplit(a, x);
    EntriesSplit(b, y);
    if a == [] {
      assert EntriesTail(a, x)[0] == '}';
      assert x == EntriesTail(a, x)[1..] && y == EntriesTail(b, y)[1..];
    } else {
      assert EntriesTail(a, x)[0] == '"' && b != [];
      ValidEntries(a);
      ValidEntries(b);
      var s, t := ":" + (Render(a[0].value) + AfterEntry(a, x)), ":" + (Render(b[0].value) + AfterEntry(b, y));
      QuoteIsPrefixCode(a[0].key, b[0].key, s, t);
      assert s[1..] == Render(a[0].value) + AfterEntry(a, x) && t[1..] == Render(b[0].value) + AfterEntry(b, y);
      RenderIsPrefixCode(a[0].value, b[0].value, AfterEntry(a, x), AfterEntry(b, y));
      AfterEntrySplit(a, b, x, y);
      if |a| > 1 {
        EntriesArePrefixCode(a[1..], b[1..], x, y);
      }
      SameHeadAndTail(a, b);
    }
  }

  /** The text of a valid value determines the value, its key order included. */
  lemma RenderIsInjective(v: Json, w: Json)
    requires Valid(v) && Valid(w) && Render(v) == Render(w)
    ensures v == w
  {
    assert Render(v) + "" == Render(v) && Render(w) + "" == Render(w);
    RenderIsPrefixCode(v, w, "", "");
  }
}
