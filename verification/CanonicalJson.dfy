/**
 `write_canonical`: the canonical text of a JSON value (crates/context-budget/src/hash.rs), with string
 quoting as in section 7 of RFC 8259.
 */
module CanonicalJson {
  import opened Order
  import opened Texts

  datatype Json =
    | Null
    | Bool(flag: bool)
    | Num(spelling: string)
    | Str(text: string)
    | Arr(items: seq<Json>)
    | Obj(members: seq<Member>)

  datatype Member = Member(key: string, value: Json)

  /** Any text normalisation and any canonical spelling of numbers. */
  datatype Style = Style(norm: string -> string, num: string -> string)

  predicate IsNumeral(c: char) {
    '0' <= c <= '9' || c == '-' || c == '+' || c == '.' || c == 'e' || c == 'E'
  }

  predicate IsSpelling(s: string) {
    s != [] && forall i :: 0 <= i < |s| ==> IsNumeral(s[i])
  }

  /** Canonical numbers are written with digits, signs, a point and an exponent mark only. */
  ghost predicate SpellsNumbers(style: Style) {
    forall n :: IsSpelling(style.num(n))
  }

  // ------------------------------------------------------------------ quoting

  function HexDigit(n: nat): char
    requires n < 16
  {
    "0123456789abcdef"[n]
  }

  function Escape(c: char): (e: string)
    ensures e != [] && e[0] != '"'
  {
    if c == '"' then "\\\""
    else if c == '\\' then "\\\\"
    else if c == '\U{0008}' then "\\b"
    else if c == '\U{000c}' then "\\f"
    else if c == '\n' then "\\n"
    else if c == '\r' then "\\r"
    else if c == '\t' then "\\t"
    else if c < ' ' then "\\u00" + [HexDigit(c as int / 16), HexDigit(c as int % 16)]
    else [c]
  }

  /** The escapes of section 7 of RFC 8259: two characters where there is a short form, `u00` and two hexadecimal
      digits for every other control character, and the character itself otherwise. */
  lemma EscapeExactly(c: char)
    ensures var e := Escape(c);
      match c
      case '"' => e == ['\\', '"']
      case '\\' => e == ['\\', '\\']
      case '\n' => e == ['\\', 'n']
      case '\r' => e == ['\\', 'r']
      case '\t' => e == ['\\', 't']
      case _ =>
        if c as int == 8 then e == ['\\', 'b']
        else if c as int == 12 then e == ['\\', 'f']
        else if c as int < 16 then e == ['\\', 'u', '0', '0', '0', "0123456789abcdef"[c as int]]
        else if c as int < 32 then e == ['\\', 'u', '0', '0', '1', "0123456789abcdef"[c as int - 16]]
        else e == [c]
  {
  }

  function EscapeAll(s: string): string {
    if s == [] then [] else Escape(s[0]) + EscapeAll(s[1..])
  }

  function Quote(s: string): string {
    ['"'] + EscapeAll(s) + ['"']
  }

  // ------------------------------------------------------------- writing a value

  datatype Entry = Entry(key: string, text: string)

  function EntryKey(e: Entry): Key {
    [S(e.key)]
  }

  /** `write_canonical`: members are sorted by their normalised key, array items are not. */
  function Write(style: Style, v: Json): string
    decreases v, 1
  {
    match v
    case Null => "null"
    case Bool(flag) => if flag then "true" else "false"
    case Num(n) => style.num(n)
    case Str(text) => Quote(style.norm(text))
    case Arr(items) => ['['] + Commas(WriteItems(style, items)) + [']']
    case Obj(members) => ['{'] + Commas(Entries(SortBy(EntryKey, WriteMembers(style, members)))) + ['}']
  }

  function WriteItems(style: Style, items: seq<Json>): (texts: seq<string>)
    ensures |texts| == |items|
    ensures forall i :: 0 <= i < |items| ==> texts[i] == Write(style, items[i])
    decreases items, 0
  {
    if items == [] then [] else [Write(style, items[0])] + WriteItems(style, items[1..])
  }

  function WriteMembers(style: Style, members: seq<Member>): (entries: seq<Entry>)
    ensures |entries| == |members|
    ensures forall i :: 0 <= i < |members| ==>
              entries[i] == Entry(style.norm(members[i].key), Write(style, members[i].value))
    decreases members, 0
  {
    if members == [] then []
    else [Entry(style.norm(members[0].key), Write(style, members[0].value))] + WriteMembers(style, members[1..])
  }

  function Entries(es: seq<Entry>): seq<string> {
    Map((e: Entry) => Quote(e.key) + [':'] + e.text, es)
  }

  function Commas(texts: seq<string>): string {
    if texts == [] then []
    else if |texts| == 1 then texts[0]
    else texts[0] + [','] + Commas(texts[1..])
  }

  // --------------------------------------------------------------- canonical values

  function MemberKey(m: Member): Key {
    [S(m.key)]
  }

  /** The value up to what canonical text forgets: string normalisation, number spelling, member order. */
  function Canon(style: Style, v: Json): Json
    decreases v, 1
  {
    match v
    case Null => v
    case Bool(_) => v
    case Num(n) => Num(style.num(n))
    case Str(text) => Str(style.norm(text))
    case Arr(items) => Arr(CanonItems(style, items))
    case Obj(members) => Obj(SortBy(MemberKey, CanonMembers(style, members)))
  }

  function CanonItems(style: Style, items: seq<Json>): (r: seq<Json>)
    ensures |r| == |items|
    ensures forall i :: 0 <= i < |items| ==> r[i] == Canon(style, items[i])
    decreases items, 0
  {
    if items == [] then [] else [Canon(style, items[0])] + CanonItems(style, items[1..])
  }

  function CanonMembers(style: Style, members: seq<Member>): (r: seq<Member>)
    ensures |r| == |members|
    ensures forall i :: 0 <= i < |members| ==>
              r[i] == Member(style.norm(members[i].key), Canon(style, members[i].value))
    decreases members, 0
  {
    if members == [] then []
    else [Member(style.norm(members[0].key), Canon(style, members[0].value))] + CanonMembers(style, members[1..])
  }

  /** A plain printer: no sorting, no normalisation. */
  function Print(v: Json): string
    decreases v, 1
  {
    match v
    case Null => "null"
    case Bool(flag) => if flag then "true" else "false"
    case Num(n) => n
    case Str(text) => Quote(text)
    case Arr(items) => ['['] + Commas(PrintItems(items)) + [']']
    case Obj(members) => ['{'] + Commas(PrintMembers(members)) + ['}']
  }

  function PrintItems(items: seq<Json>): (texts: seq<string>)
    ensures |texts| == |items|
    ensures forall i :: 0 <= i < |items| ==> texts[i] == Print(items[i])
    decreases items, 0
  {
    if items == [] then [] else [Print(items[0])] + PrintItems(items[1..])
  }

  function PrintMember(m: Member): string
    decreases m, 2
  {
    Quote(m.key) + [':'] + Print(m.value)
  }

  function PrintMembers(members: seq<Member>): (texts: seq<string>)
    ensures |texts| == |members|
    ensures forall i :: 0 <= i < |members| ==> texts[i] == PrintMember(members[i])
    decreases members, 0
  {
    if members == [] then [] else [PrintMember(members[0])] + PrintMembers(members[1..])
  }

  // ------------------------------------------- writing is printing the canonical value

  function TextOf(m: Member): Entry {
    Entry(m.key, Print(m.value))
  }

  lemma {:induction false} InsertCommutes(m: Member, s: seq<Member>)
    ensures Map(TextOf, Insert(By(MemberKey), m, s)) == Insert(By(EntryKey), TextOf(m), Map(TextOf, s))
  {
    if s != [] {
      InsertCommutes(m, s[1..]);
      assert MemberKey(m) == EntryKey(TextOf(m)) && MemberKey(s[0]) == EntryKey(TextOf(s[0]));
      assert Map(TextOf, s)[1..] == Map(TextOf, s[1..]);
    }
  }

  /** Sorting members and then printing them is printing them and then sorting. */
  lemma {:induction false} SortCommutes(s: seq<Member>)
    ensures Map(TextOf, SortBy(MemberKey, s)) == SortBy(EntryKey, Map(TextOf, s))
  {
    if s != [] {
      SortCommutes(s[1..]);
      InsertCommutes(s[0], Sort(By(MemberKey), s[1..]));
      assert Map(TextOf, s)[1..] == Map(TextOf, s[1..]);
    }
  }

  lemma {:induction false} WriteIsPrint(style: Style, v: Json)
    ensures Write(style, v) == Print(Canon(style, v))
    decreases v
  {
    match v
    case Null =>
    case Bool(_) =>
    case Num(_) =>
    case Str(_) =>
    case Arr(items) =>
      forall i | 0 <= i < |items| ensures Write(style, items[i]) == Print(Canon(style, items[i])) {
        WriteIsPrint(style, items[i]);
      }
      assert WriteItems(style, items) == PrintItems(CanonItems(style, items));
    case Obj(members) =>
      var canon := CanonMembers(style, members);
      forall i | 0 <= i < |members| ensures Write(style, members[i].value) == Print(Canon(style, members[i].value)) {
        WriteIsPrint(style, members[i].value);
      }
      assert WriteMembers(style, members) == Map(TextOf, canon);
      SortCommutes(canon);
      var sorted := SortBy(MemberKey, canon);
      assert Entries(Map(TextOf, sorted)) == PrintMembers(sorted);
  }

  // ------------------------------------------------------------- unique decodability

  lemma HexDistinct(m: nat, n: nat)
    requires m < 16 && n < 16 && HexDigit(m) == HexDigit(n)
    ensures m == n
  {
  }

  /** No escape is a prefix of another character's escape. */
  lemma EscapePrefixFree(c: char, d: char, x: string, y: string)
    requires Escape(c) + x == Escape(d) + y
    ensures c == d && x == y
  {
    var ec, ed := Escape(c), Escape(d);
    assert (ec + x)[0] == ec[0] && (ed + y)[0] == ed[0];
    if |ec| >= 2 && |ed| >= 2 {
      assert (ec + x)[1] == ec[1] && (ed + y)[1] == ed[1];
      if |ec| == 6 && |ed| == 6 {
        assert (ec + x)[4] == ec[4] && (ed + y)[4] == ed[4];
        assert (ec + x)[5] == ec[5] && (ed + y)[5] == ed[5];
        HexDistinct(c as int / 16, d as int / 16);
        HexDistinct(c as int % 16, d as int % 16);
      }
    }
    assert |ec| == |ed|;
    assert x == (ec + x)[|ec|..] && y == (ed + y)[|ed|..];
  }

  lemma ClosingQuote(s: string, x: string)
    ensures (EscapeAll(s) + ['"'] + x)[0] == '"' <==> s == []
    ensures s != [] ==> EscapeAll(s) + ['"'] + x == Escape(s[0]) + (EscapeAll(s[1..]) + ['"'] + x)
  {
    if s != [] {
      Assoc(Escape(s[0]), EscapeAll(s[1..]), ['"']);
      Assoc(Escape(s[0]), EscapeAll(s[1..]) + ['"'], x);
    }
  }

  lemma {:induction false} EscapeAllUnique(s: string, t: string, x: string, y: string)
    requires EscapeAll(s) + ['"'] + x == EscapeAll(t) + ['"'] + y
    ensures s == t && x == y
  {
    ClosingQuote(s, x);
    ClosingQuote(t, y);
    if s == [] {
      Strip(EscapeAll(s) + ['"'], EscapeAll(t) + ['"'], x, y);
    } else {
      EscapePrefixFree(s[0], t[0], EscapeAll(s[1..]) + ['"'] + x, EscapeAll(t[1..]) + ['"'] + y);
      EscapeAllUnique(s[1..], t[1..], x, y);
      HeadTail(s);
      HeadTail(t);
    }
  }

  lemma Unquote(a: string, b: string, x: string, y: string)
    requires ['"'] + a + ['"'] + x == ['"'] + b + ['"'] + y
    ensures a + ['"'] + x == b + ['"'] + y
  {
    assert (['"'] + a + ['"'] + x)[1..] == a + ['"'] + x;
    assert (['"'] + b + ['"'] + y)[1..] == b + ['"'] + y;
  }

  lemma QuoteUnique(s: string, t: string, x: string, y: string)
    requires Quote(s) + x == Quote(t) + y
    ensures s == t && x == y
  {
    Unquote(EscapeAll(s), EscapeAll(t), x, y);
    EscapeAllUnique(s, t, x, y);
  }

  /** What may follow a value: nothing, or a character that no number contains. */
  predicate Ends(x: string) {
    x == [] || x[0] == ',' || x[0] == ']' || x[0] == '}'
  }

  ghost predicate AllNumerals(s: string) {
    forall i :: 0 <= i < |s| ==> IsNumeral(s[i])
  }

  lemma SpellingEnds(a: string, x: string)
    requires AllNumerals(a) && Ends(x)
    ensures a == [] <==> a + x == [] || !IsNumeral((a + x)[0])
    ensures a != [] ==> (a + x)[1..] == a[1..] + x && (a + x)[0] == a[0]
  {
    if a == [] { assert a + x == x; }
  }

  lemma {:induction false} SpellingUnique(a: string, b: string, x: string, y: string)
    requires AllNumerals(a) && AllNumerals(b) && Ends(x) && Ends(y) && a + x == b + y
    ensures a == b && x == y
  {
    SpellingEnds(a, x);
    SpellingEnds(b, y);
    if a == [] {
      assert a + x == x && b + y == y;
    } else {
      SpellingUnique(a[1..], b[1..], x, y);
      HeadTail(a);
      HeadTail(b);
    }
  }

  /** All numbers inside are canonical spellings. */
  predicate WellSpelled(v: Json)
    decreases v
  {
    match v
    case Num(n) => IsSpelling(n)
    case Arr(items) => forall i :: 0 <= i < |items| ==> WellSpelled(items[i])
    case Obj(members) => forall i :: 0 <= i < |members| ==> WellSpelled(members[i].value)
    case _ => true
  }

  /** Which kind of value a first character announces. */
  function Announces(c: char): nat {
    if c == 'n' then 0 else if c == 't' then 1 else if c == 'f' then 2 else if c == '"' then 3
    else if c == '[' then 4 else if c == '{' then 5 else if IsNumeral(c) then 6 else 7
  }

  function Shape(v: Json): nat {
    match v
    case Null => 0
    case Bool(flag) => if flag then 1 else 2
    case Str(_) => 3
    case Arr(_) => 4
    case Obj(_) => 5
    case Num(_) => 6
  }

  lemma FirstCharacter(v: Json, x: string)
    requires WellSpelled(v)
    ensures Print(v) != [] && (Print(v) + x)[0] == Print(v)[0] && Announces(Print(v)[0]) == Shape(v)
  {
  }

  /** No canonical text is the beginning of another: a value and what follows it can be told apart. */
  lemma {:induction false} PrintUnique(v: Json, w: Json, x: string, y: string)
    requires WellSpelled(v) && WellSpelled(w) && Ends(x) && Ends(y)
    requires Print(v) + x == Print(w) + y
    ensures v == w && x == y
    decreases v, 1
  {
    FirstCharacter(v, x);
    FirstCharacter(w, y);
    match v
    case Null => Strip("null", "null", x, y);
    case Bool(_) => Strip(Print(v), Print(w), x, y);
    case Num(n) => SpellingUnique(n, w.spelling, x, y);
    case Str(text) => QuoteUnique(text, w.text, x, y);
    case Arr(items) =>
      Unbracket('[', Commas(PrintItems(items)), Commas(PrintItems(w.items)), ']', x, y);
      ItemsUnique(items, w.items, x, y);
    case Obj(members) =>
      Unbracket('{', Commas(PrintMembers(members)), Commas(PrintMembers(w.members)), '}', x, y);
      MembersUnique(members, w.members, x, y);
  }

  lemma Unbracket(open: char, p: string, q: string, close: char, x: string, y: string)
    requires [open] + p + [close] + x == [open] + q + [close] + y
    ensures p + [close] + x == q + [close] + y
  {
    assert [open] + p + [close] + x == [open] + (p + [close] + x);
    assert [open] + q + [close] + y == [open] + (q + [close] + y);
    Strip([open], [open], p + [close] + x, q + [close] + y);
  }

  /** Text after the first of the comma-separated parts. */
  function Tail(texts: seq<string>, close: char, x: string): string
    requires texts != []
  {
    if |texts| == 1 then [close] + x else [','] + (Commas(texts[1..]) + [close] + x)
  }

  lemma CommasSplit(texts: seq<string>, close: char, x: string)
    requires texts != []
    ensures Commas(texts) + [close] + x == texts[0] + Tail(texts, close, x)
  {
    if |texts| == 1 {
      Assoc(texts[0], [close], x);
    } else {
      var rest := Commas(texts[1..]);
      Assoc(texts[0], [','], rest);
      Assoc(texts[0], [','] + rest, [close]);
      Assoc(texts[0], [','] + rest + [close], x);
      Assoc([','], rest, [close]);
      Assoc([','], rest + [close], x);
    }
  }

  lemma NotClosing(text: string, shape: nat)
    requires text != [] && Announces(text[0]) == shape < 7
    ensures text[0] != ']'
  {
  }

  lemma ItemsClose(vs: seq<Json>, x: string)
    requires forall i :: 0 <= i < |vs| ==> WellSpelled(vs[i])
    ensures (Commas(PrintItems(vs)) + [']'] + x)[0] == ']' <==> vs == []
  {
    if vs != [] {
      var rest := Tail(PrintItems(vs), ']', x);
      CommasSplit(PrintItems(vs), ']', x);
      FirstCharacter(vs[0], rest);
      NotClosing(Print(vs[0]), Shape(vs[0]));
    }
  }

  lemma {:induction false} ItemsUnique(vs: seq<Json>, ws: seq<Json>, x: string, y: string)
    requires (forall i :: 0 <= i < |vs| ==> WellSpelled(vs[i])) && (forall i :: 0 <= i < |ws| ==> WellSpelled(ws[i]))
    requires Commas(PrintItems(vs)) + [']'] + x == Commas(PrintItems(ws)) + [']'] + y
    ensures vs == ws && x == y
    decreases vs, 0
  {
    ItemsClose(vs, x);
    ItemsClose(ws, y);
    if vs == [] {
      Strip(Commas(PrintItems(vs)) + [']'], Commas(PrintItems(ws)) + [']'], x, y);
    } else {
      var tv, tw := Tail(PrintItems(vs), ']', x), Tail(PrintItems(ws), ']', y);
      CommasSplit(PrintItems(vs), ']', x);
      CommasSplit(PrintItems(ws), ']', y);
      PrintUnique(vs[0], ws[0], tv, tw);
      HeadTail(vs);
      HeadTail(ws);
      assert |vs| == 1 <==> tv[0] == ']';
      if |vs| == 1 {
        Strip([']'], [']'], x, y);
      } else {
        assert PrintItems(vs)[1..] == PrintItems(vs[1..]) && PrintItems(ws)[1..] == PrintItems(ws[1..]);
        assert tv[1..] == Commas(PrintItems(vs[1..])) + [']'] + x && tw[1..] == Commas(PrintItems(ws[1..])) + [']'] + y;
        ItemsUnique(vs[1..], ws[1..], x, y);
      }
    }
  }

  lemma MemberUnique(m: Member, n: Member, x: string, y: string)
    requires WellSpelled(m.value) && WellSpelled(n.value) && Ends(x) && Ends(y)
    requires PrintMember(m) + x == PrintMember(n) + y
    ensures m == n && x == y
    decreases m, 0
  {
    var a, b := Print(m.value) + x, Print(n.value) + y;
    KeyThenValue(Quote(m.key), Print(m.value), x);
    KeyThenValue(Quote(n.key), Print(n.value), y);
    QuoteUnique(m.key, n.key, [':'] + a, [':'] + b);
    Strip([':'], [':'], a, b);
    PrintUnique(m.value, n.value, x, y);
  }

  lemma KeyThenValue(quoted: string, text: string, x: string)
    ensures quoted + [':'] + text + x == quoted + ([':'] + (text + x))
  {
  }

  lemma MembersClose(ms: seq<Member>, x: string)
    ensures (Commas(PrintMembers(ms)) + ['}'] + x)[0] == '}' <==> ms == []
  {
    if ms != [] {
      CommasSplit(PrintMembers(ms), '}', x);
      assert (PrintMember(ms[0]) + Tail(PrintMembers(ms), '}', x))[0] == '"';
    }
  }

  lemma {:induction false} MembersUnique(ms: seq<Member>, ns: seq<Member>, x: string, y: string)
    requires (forall i :: 0 <= i < |ms| ==> WellSpelled(ms[i].value))
    requires (forall i :: 0 <= i < |ns| ==> WellSpelled(ns[i].value))
    requires Commas(PrintMembers(ms)) + ['}'] + x == Commas(PrintMembers(ns)) + ['}'] + y
    ensures ms == ns && x == y
    decreases ms, 0
  {
    MembersClose(ms, x);
    MembersClose(ns, y);
    if ms == [] {
      Strip(Commas(PrintMembers(ms)) + ['}'], Commas(PrintMembers(ns)) + ['}'], x, y);
    } else {
      var tm, tn := Tail(PrintMembers(ms), '}', x), Tail(PrintMembers(ns), '}', y);
      CommasSplit(PrintMembers(ms), '}', x);
      CommasSplit(PrintMembers(ns), '}', y);
      MemberUnique(ms[0], ns[0], tm, tn);
      HeadTail(ms);
      HeadTail(ns);
      assert |ms| == 1 <==> tm[0] == '}';
      if |ms| == 1 {
        Strip(['}'], ['}'], x, y);
      } else {
        assert PrintMembers(ms)[1..] == PrintMembers(ms[1..]) && PrintMembers(ns)[1..] == PrintMembers(ns[1..]);
        assert tm[1..] == Commas(PrintMembers(ms[1..])) + ['}'] + x;
        assert tn[1..] == Commas(PrintMembers(ns[1..])) + ['}'] + y;
        MembersUnique(ms[1..], ns[1..], x, y);
      }
    }
  }

  lemma {:induction false} CanonWellSpelled(style: Style, v: Json)
    requires SpellsNumbers(style)
    ensures WellSpelled(Canon(style, v))
    decreases v
  {
    match v
    case Null =>
    case Bool(_) =>
    case Num(_) =>
    case Str(_) =>
    case Arr(items) =>
      forall i | 0 <= i < |items| ensures WellSpelled(Canon(style, items[i])) { CanonWellSpelled(style, items[i]); }
    case Obj(members) =>
      var canon := CanonMembers(style, members);
      forall i | 0 <= i < |members| ensures WellSpelled(canon[i].value) { CanonWellSpelled(style, members[i].value); }
      SortedWellSpelled(canon);
  }

  lemma SortedWellSpelled(members: seq<Member>)
    requires forall i :: 0 <= i < |members| ==> WellSpelled(members[i].value)
    ensures WellSpelled(Obj(SortBy(MemberKey, members)))
  {
    var sorted := SortBy(MemberKey, members);
    SortPermutes(By(MemberKey), members);
    forall i | 0 <= i < |sorted| ensures WellSpelled(sorted[i].value) {
      assert sorted[i] in sorted;
      var j :| 0 <= j < |members| && members[j] == sorted[i];
    }
  }

  /** Two values have the same canonical text exactly if they agree up to string normalisation, number spelling
      and the order of members. */
  lemma CanonicalTextIdentifies(style: Style, v: Json, w: Json)
    requires SpellsNumbers(style)
    ensures Write(style, v) == Write(style, w) <==> Canon(style, v) == Canon(style, w)
  {
    WriteIsPrint(style, v);
    WriteIsPrint(style, w);
    if Write(style, v) == Write(style, w) {
      CanonWellSpelled(style, v);
      CanonWellSpelled(style, w);
      assert Print(Canon(style, v)) + [] == Print(Canon(style, w)) + [];
      PrintUnique(Canon(style, v), Canon(style, w), [], []);
    }
  }
}
