/**
 `canonical_json`: a JSON text is read into a value whose objects are maps ordered by key, and that value is
 written canonically (crates/context-budget/src/hash.rs).
 */
module JsonText {
  import opened Order
  import opened CanonicalJson

  // --------------------------------------------------------------- reading a text

  function OtherKey(key: string): Member -> bool {
    (m: Member) => m.key != key
  }

  /** The members without those of one key. */
  function Except(key: string, s: seq<Member>): seq<Member> {
    Filter(OtherKey(key), s)
  }

  /** What is left of members inserted one after the other into a map: the last one with a key wins. */
  function Inserted(members: seq<Member>): seq<Member> {
    if members == [] then []
    else
      var last := members[|members| - 1];
      Except(last.key, Inserted(members[..|members| - 1])) + [last]
  }

  /** The value that is read from a text, given as the tree of its members in the order of the text. */
  function Load(v: Json): Json
    decreases v, 1
  {
    match v
    case Arr(items) => Arr(LoadItems(items))
    case Obj(members) => Obj(SortBy(MemberKey, Inserted(LoadMembers(members))))
    case _ => v
  }

  function LoadItems(items: seq<Json>): (r: seq<Json>)
    ensures |r| == |items|
    ensures forall i :: 0 <= i < |items| ==> r[i] == Load(items[i])
    decreases items, 0
  {
    if items == [] then [] else [Load(items[0])] + LoadItems(items[1..])
  }

  function LoadMembers(members: seq<Member>): (r: seq<Member>)
    ensures |r| == |members|
    ensures forall i :: 0 <= i < |members| ==> r[i] == Member(members[i].key, Load(members[i].value))
    decreases members, 0
  {
    if members == [] then [] else [Member(members[0].key, Load(members[0].value))] + LoadMembers(members[1..])
  }

  /** `canonical_json` on the tree of a text. */
  function CanonicalText(style: Style, v: Json): string {
    Write(style, Load(v))
  }

  /** The canonical value behind a text. */
  function Meaning(style: Style, v: Json): Json {
    Canon(style, Load(v))
  }

  /** Two texts have the same canonical text if and only if the values read from them have the same canonical form. */
  lemma TextIsMeaning(style: Style, v: Json, w: Json)
    requires SpellsNumbers(style)
    ensures CanonicalText(style, v) == CanonicalText(style, w) <==> Meaning(style, v) == Meaning(style, w)
  {
    CanonicalTextIdentifies(style, Load(v), Load(w));
  }

  // --------------------------------------------------------------- insertion

  ghost predicate DistinctMembers(s: seq<Member>) {
    forall i, j :: 0 <= i < j < |s| ==> s[i].key != s[j].key
  }

  lemma {:induction false} FilterDistinctMembers(p: Member -> bool, s: seq<Member>)
    requires DistinctMembers(s)
    ensures DistinctMembers(Filter(p, s))
  {
    if s != [] {
      FilterDistinctMembers(p, s[1..]);
      FilterMembers(p, s[1..]);
      var rest := Filter(p, s[1..]);
      forall j | 0 <= j < |rest| ensures rest[j].key != s[0].key {
        assert rest[j] in rest;
        var k :| 0 <= k < |s[1..]| && s[1..][k] == rest[j];
        assert s[k + 1] == rest[j];
      }
    }
  }

  /** One member is left for each key, and it is one of the given. */
  lemma {:induction false} InsertedFacts(s: seq<Member>)
    ensures DistinctMembers(Inserted(s))
    ensures forall m :: m in Inserted(s) ==> m in s
    ensures forall m :: m in s ==> exists n :: n in Inserted(s) && n.key == m.key
  {
    if s != [] {
      var front, last := s[..|s| - 1], s[|s| - 1];
      var before := Inserted(front);
      InsertedFacts(front);
      FilterDistinctMembers(OtherKey(last.key), before);
      FilterMembers(OtherKey(last.key), before);
      var kept := Except(last.key, before);
      forall i | 0 <= i < |kept| ensures kept[i].key != last.key { assert kept[i] in kept; }
      assert Inserted(s) == kept + [last];
      forall m | m in s ensures exists n :: n in Inserted(s) && n.key == m.key {
        if m.key == last.key {
          assert last in Inserted(s);
        } else {
          assert m in front;
          var n :| n in before && n.key == m.key;
          assert n in kept && n in Inserted(s);
        }
      }
    }
  }

  /** The key tells the members apart. */
  ghost predicate Keyed(s: seq<Member>) {
    forall m, n :: m in s && n in s && m.key == n.key ==> m == n
  }

  lemma KeyedInserted(s: seq<Member>)
    requires Keyed(s)
    ensures forall m :: m in Inserted(s) <==> m in s
  {
    InsertedFacts(s);
    forall m | m in s ensures m in Inserted(s) {
      var n :| n in Inserted(s) && n.key == m.key;
      assert n in s;
    }
  }

  lemma {:induction false} NoRepeats(s: seq<Member>, m: Member)
    requires DistinctMembers(s)
    ensures multiset(s)[m] == if m in s then 1 else 0
  {
    if s != [] {
      HeadTail(s);
      NoRepeats(s[1..], m);
      assert s[0] !in s[1..];
    }
  }

  lemma SameMembersSameBag(a: seq<Member>, b: seq<Member>)
    requires DistinctMembers(a) && DistinctMembers(b) && forall m :: m in a <==> m in b
    ensures multiset(a) == multiset(b)
  {
    forall m ensures multiset(a)[m] == multiset(b)[m] {
      NoRepeats(a, m);
      NoRepeats(b, m);
    }
  }

  /** Members told apart by their keys leave the same map in whatever order they are inserted. */
  lemma InsertionForgetsOrder(a: seq<Member>, b: seq<Member>)
    requires Keyed(a) && multiset(a) == multiset(b)
    ensures SortBy(MemberKey, Inserted(a)) == SortBy(MemberKey, Inserted(b))
  {
    Members(a, b);
    KeyedInserted(a);
    KeyedInserted(b);
    InsertedFacts(a);
    InsertedFacts(b);
    SameMembersSameBag(Inserted(a), Inserted(b));
    ByLawful(MemberKey);
    forall m, n | m in Inserted(a) && n in Inserted(a) && MemberKey(m) == MemberKey(n) ensures m == n {
      assert MemberKey(m)[0] == MemberKey(n)[0];
    }
    ByDistinguishes(MemberKey, Inserted(a));
    SortForgetsOrder(By(MemberKey), Inserted(a), Inserted(b));
  }

  // ------------------------------------------------- canonical values of the members

  ghost predicate KeepsKeys(f: Member -> Member) {
    forall m :: f(m).key == m.key
  }

  lemma {:induction false} InsertKeyed(f: Member -> Member, m: Member, s: seq<Member>)
    requires KeepsKeys(f)
    ensures Map(f, Insert(By(MemberKey), m, s)) == Insert(By(MemberKey), f(m), Map(f, s))
  {
    if s != [] {
      InsertKeyed(f, m, s[1..]);
      assert MemberKey(m) == MemberKey(f(m)) && MemberKey(s[0]) == MemberKey(f(s[0]));
      assert Map(f, s)[1..] == Map(f, s[1..]);
    }
  }

  lemma {:induction false} SortKeyed(f: Member -> Member, s: seq<Member>)
    requires KeepsKeys(f)
    ensures Map(f, SortBy(MemberKey, s)) == SortBy(MemberKey, Map(f, s))
  {
    if s != [] {
      SortKeyed(f, s[1..]);
      InsertKeyed(f, s[0], Sort(By(MemberKey), s[1..]));
      assert Map(f, s)[1..] == Map(f, s[1..]);
    }
  }

  lemma {:induction false} ExceptKeyed(f: Member -> Member, key: string, s: seq<Member>)
    requires KeepsKeys(f)
    ensures Map(f, Except(key, s)) == Except(key, Map(f, s))
  {
    if s != [] {
      ExceptKeyed(f, key, s[1..]);
      assert Map(f, s)[1..] == Map(f, s[1..]);
      MapConcat(f, if OtherKey(key)(s[0]) then [s[0]] else [], Except(key, s[1..]));
      MapOne(f, s[0]);
    }
  }

  lemma {:induction false} InsertedKeyed(f: Member -> Member, s: seq<Member>)
    requires KeepsKeys(f)
    ensures Map(f, Inserted(s)) == Inserted(Map(f, s))
  {
    if s != [] {
      var n := |s| - 1;
      InsertedKeyed(f, s[..n]);
      ExceptKeyed(f, s[n].key, Inserted(s[..n]));
      MapConcat(f, Except(s[n].key, Inserted(s[..n])), [s[n]]);
      MapOne(f, s[n]);
      assert Map(f, s)[..n] == Map(f, s[..n]);
    }
  }

  function CanonValue(style: Style): Member -> Member {
    (m: Member) => Member(m.key, Canon(style, m.value))
  }

  function NormKey(style: Style): Member -> Member {
    (m: Member) => Member(style.norm(m.key), m.value)
  }

  /** The members of a text with the canonical values behind them, under their keys as they stand. */
  function Raw(style: Style, members: seq<Member>): (r: seq<Member>)
    ensures |r| == |members|
    ensures forall i :: 0 <= i < |members| ==> r[i] == Member(members[i].key, Meaning(style, members[i].value))
  {
    Map((m: Member) => Member(m.key, Meaning(style, m.value)), members)
  }

  /** The members of an object as they are written, before they are sorted by normalised key. */
  function Ordered(style: Style, raw: seq<Member>): seq<Member> {
    Map(NormKey(style), SortBy(MemberKey, Inserted(raw)))
  }

  lemma CanonInSteps(style: Style, s: seq<Member>)
    ensures CanonMembers(style, s) == Map(NormKey(style), Map(CanonValue(style), s))
  {
  }

  lemma RawIsCanon(style: Style, members: seq<Member>)
    ensures Map(CanonValue(style), LoadMembers(members)) == Raw(style, members)
  {
  }

  lemma StoredCanon(style: Style, loaded: seq<Member>)
    ensures CanonMembers(style, SortBy(MemberKey, Inserted(loaded))) == Ordered(style, Map(CanonValue(style), loaded))
  {
    CanonInSteps(style, SortBy(MemberKey, Inserted(loaded)));
    SortKeyed(CanonValue(style), Inserted(loaded));
    InsertedKeyed(CanonValue(style), loaded);
  }

  lemma ObjectMeaning(style: Style, members: seq<Member>)
    ensures Meaning(style, Obj(members)) == Obj(SortBy(MemberKey, Ordered(style, Raw(style, members))))
  {
    StoredCanon(style, LoadMembers(members));
    RawIsCanon(style, members);
  }

  // ------------------------------------------------------------------ member order

  /** `w` is `v` with the members of objects reordered, at any depth. */
  ghost predicate Reordered(v: Json, w: Json)
    decreases v, 1
  {
    match v
    case Arr(items) =>
      w.Arr? && |w.items| == |items| && forall i :: 0 <= i < |items| ==> Reordered(items[i], w.items[i])
    case Obj(members) =>
      w.Obj? && exists mid: seq<Member> :: multiset(mid) == multiset(w.members) && ReorderedInside(members, mid)
    case _ => v == w
  }

  /** The same keys in the same order, with values reordered inside. */
  ghost predicate ReorderedInside(members: seq<Member>, others: seq<Member>)
    decreases members, 0
  {
    |members| == |others| &&
    forall i :: 0 <= i < |members| ==>
      others[i].key == members[i].key && Reordered(members[i].value, others[i].value)
  }

  /** Keys are distinct within every object, as they stand in the text. */
  ghost predicate DistinctKeys(v: Json)
    decreases v
  {
    match v
    case Arr(items) => forall i :: 0 <= i < |items| ==> DistinctKeys(items[i])
    case Obj(members) => DistinctMembers(members) && forall i :: 0 <= i < |members| ==> DistinctKeys(members[i].value)
    case _ => true
  }

  /** Members with the same key have values with the same canonical form, in every object. */
  ghost predicate Settled(style: Style, v: Json)
    decreases v
  {
    match v
    case Arr(items) => forall i :: 0 <= i < |items| ==> Settled(style, items[i])
    case Obj(members) =>
      && (forall i, j :: 0 <= i < j < |members| && members[i].key == members[j].key ==>
            Meaning(style, members[i].value) == Meaning(style, members[j].value))
      && (forall i :: 0 <= i < |members| ==> Settled(style, members[i].value))
    case _ => true
  }

  lemma {:induction false} DistinctIsSettled(style: Style, v: Json)
    requires DistinctKeys(v)
    ensures Settled(style, v)
    decreases v
  {
    match v
    case Arr(items) =>
      forall i | 0 <= i < |items| ensures Settled(style, items[i]) { DistinctIsSettled(style, items[i]); }
    case Obj(members) =>
      forall i | 0 <= i < |members| ensures Settled(style, members[i].value) {
        DistinctIsSettled(style, members[i].value);
      }
    case _ =>
  }

  lemma SettledIsKeyed(style: Style, members: seq<Member>)
    requires Settled(style, Obj(members))
    ensures Keyed(Raw(style, members))
  {
    var raw := Raw(style, members);
    forall m, n | m in raw && n in raw && m.key == n.key ensures m == n {
      var i :| 0 <= i < |raw| && raw[i] == m;
      var j :| 0 <= j < |raw| && raw[j] == n;
      SettledPair(style, members, i, j);
    }
  }

  lemma SettledPair(style: Style, members: seq<Member>, i: nat, j: nat)
    requires Settled(style, Obj(members)) && i < |members| && j < |members| && members[i].key == members[j].key
    ensures Meaning(style, members[i].value) == Meaning(style, members[j].value)
  {
    if i < j { assert members[i].key == members[j].key; } else if j < i { assert members[j].key == members[i].key; }
  }

  lemma RawPermutes(style: Style, a: seq<Member>, b: seq<Member>)
    requires multiset(a) == multiset(b)
    ensures multiset(Raw(style, a)) == multiset(Raw(style, b))
  {
    MapPermutes((m: Member) => Member(m.key, Meaning(style, m.value)), a, b);
  }

  lemma ReorderedObject(style: Style, members: seq<Member>, mid: seq<Member>, others: seq<Member>)
    requires Raw(style, members) == Raw(style, mid) && multiset(mid) == multiset(others)
    requires Settled(style, Obj(members))
    ensures Meaning(style, Obj(members)) == Meaning(style, Obj(others))
  {
    SettledIsKeyed(style, members);
    RawPermutes(style, mid, others);
    InsertionForgetsOrder(Raw(style, members), Raw(style, others));
    ObjectMeaning(style, members);
    ObjectMeaning(style, others);
  }

  lemma {:induction false} ReorderedInsideMeaning(style: Style, members: seq<Member>, others: seq<Member>)
    requires ReorderedInside(members, others)
    requires forall i :: 0 <= i < |members| ==> Settled(style, members[i].value)
    ensures Raw(style, members) == Raw(style, others)
    decreases members, 0
  {
    forall i | 0 <= i < |members| ensures Raw(style, members)[i] == Raw(style, others)[i] {
      ReorderedMeaning(style, members[i].value, others[i].value);
    }
  }

  lemma {:induction false} ReorderedItemsMeaning(style: Style, items: seq<Json>, others: seq<Json>)
    requires |items| == |others|
    requires forall i :: 0 <= i < |items| ==> Reordered(items[i], others[i]) && Settled(style, items[i])
    ensures Meaning(style, Arr(items)) == Meaning(style, Arr(others))
    decreases items, 0
  {
    forall i | 0 <= i < |items| ensures Meaning(style, items[i]) == Meaning(style, others[i]) {
      ReorderedMeaning(style, items[i], others[i]);
    }
    assert CanonItems(style, LoadItems(items)) == CanonItems(style, LoadItems(others));
  }

  lemma {:induction false} ReorderedMeaning(style: Style, v: Json, w: Json)
    requires Reordered(v, w) && Settled(style, v)
    ensures Meaning(style, v) == Meaning(style, w)
    decreases v, 1
  {
    match v
    case Arr(items) =>
      ReorderedItemsMeaning(style, items, w.items);
    case Obj(members) =>
      var mid: seq<Member> :| multiset(mid) == multiset(w.members) && ReorderedInside(members, mid);
      ReorderedInsideMeaning(style, members, mid);
      ReorderedObject(style, members, mid, w.members);
    case _ =>
  }

  /** Reordering the members of a text at any depth leaves the canonical text unchanged when no object repeats a key. */
  lemma MemberOrderIsForgotten(style: Style, v: Json, w: Json)
    requires Reordered(v, w) && DistinctKeys(v)
    ensures CanonicalText(style, v) == CanonicalText(style, w)
  {
    DistinctIsSettled(style, v);
    ReorderedMeaning(style, v, w);
    WriteIsPrint(style, Load(v));
    WriteIsPrint(style, Load(w));
  }

  // ----------------------------------------------------- exactly when the order is forgotten

  lemma {:induction false} ReorderedItself(v: Json)
    ensures Reordered(v, v)
    decreases v
  {
    match v
    case Arr(items) =>
      forall i | 0 <= i < |items| ensures Reordered(items[i], items[i]) { ReorderedItself(items[i]); }
    case Obj(members) =>
      forall i | 0 <= i < |members| ensures Reordered(members[i].value, members[i].value) {
        ReorderedItself(members[i].value);
      }
      assert ReorderedInside(members, members);
    case _ =>
  }

  /** No reordering of the members of `v` shows in its canonical text. */
  ghost predicate OrderIsForgotten(style: Style, v: Json) {
    forall w :: Reordered(v, w) ==> CanonicalText(style, v) == CanonicalText(style, w)
  }

  /** The text with one member moved to the end and its value reordered inside. */
  function Moved(members: seq<Member>, i: nat, w: Json): seq<Member>
    requires i < |members|
  {
    members[..i] + members[i + 1..] + [Member(members[i].key, w)]
  }

  lemma MovedPermutes<T>(s: seq<T>, i: nat, x: T)
    requires i < |s|
    ensures multiset(s[i := x]) == multiset(s[..i] + s[i + 1..] + [x])
  {
    var t := s[i := x];
    Cut(t, i);
    assert t[..i] == s[..i] && t[i + 1..] == s[i + 1..];
  }

  lemma MovedIsReordered(members: seq<Member>, i: nat, w: Json)
    requires i < |members| && Reordered(members[i].value, w)
    ensures Reordered(Obj(members), Obj(Moved(members, i, w)))
  {
    var mid := members[i := Member(members[i].key, w)];
    forall k | 0 <= k < |members| ensures Reordered(members[k].value, mid[k].value) {
      ReorderedItself(members[k].value);
    }
    assert ReorderedInside(members, mid);
    MovedPermutes(members, i, Member(members[i].key, w));
  }

  lemma SameBagSameElement<T>(bag: multiset<T>, x: T, y: T)
    requires bag + multiset{x} == bag + multiset{y}
    ensures x == y
  {
    assert (bag + multiset{x})[x] == bag[x] + 1;
    assert (bag + multiset{y})[x] == bag[x] + if x == y then 1 else 0;
  }

  /** The member inserted last stands in the object beside what is left of the others. */
  lemma LastEntry(style: Style, raw: seq<Member>, m: Member)
    ensures multiset(Ordered(style, raw + [m]))
         == multiset(Map(NormKey(style), Except(m.key, Inserted(raw)))) + multiset{NormKey(style)(m)}
  {
    var all, kept := raw + [m], Except(m.key, Inserted(raw));
    assert all[..|raw|] == raw;
    assert Inserted(all) == kept + [m];
    SortPermutes(By(MemberKey), Inserted(all));
    MapPermutes(NormKey(style), SortBy(MemberKey, Inserted(all)), kept + [m]);
    MapConcat(NormKey(style), kept, [m]);
    MapOne(NormKey(style), m);
  }

  lemma LastShows(style: Style, a: seq<Member>, b: seq<Member>, m: Member, n: Member)
    requires m.key == n.key && Except(m.key, Inserted(a)) == Except(m.key, Inserted(b))
    requires SortBy(MemberKey, Ordered(style, a + [m])) == SortBy(MemberKey, Ordered(style, b + [n]))
    ensures m == n
  {
    LastEntry(style, a, m);
    LastEntry(style, b, n);
    SortPermutes(By(MemberKey), Ordered(style, a + [m]));
    SortPermutes(By(MemberKey), Ordered(style, b + [n]));
    SameBagSameElement(multiset(Map(NormKey(style), Except(m.key, Inserted(a)))), NormKey(style)(m), NormKey(style)(n));
  }

  lemma RawSnoc(style: Style, rest: seq<Member>, m: Member)
    ensures Raw(style, rest + [m]) == Raw(style, rest) + [Member(m.key, Meaning(style, m.value))]
  {
  }

  /** Two objects that differ only in the member inserted last mean the same only if those two values do. */
  lemma LastValueShows(style: Style, a: seq<Member>, b: seq<Member>, m: Member, n: Member)
    requires m.key == n.key && Except(m.key, Inserted(Raw(style, a))) == Except(m.key, Inserted(Raw(style, b)))
    requires Meaning(style, Obj(a + [m])) == Meaning(style, Obj(b + [n]))
    ensures Meaning(style, m.value) == Meaning(style, n.value)
  {
    ObjectMeaning(style, a + [m]);
    ObjectMeaning(style, b + [n]);
    RawSnoc(style, a, m);
    RawSnoc(style, b, n);
    LastShows(style, Raw(style, a), Raw(style, b),
              Member(m.key, Meaning(style, m.value)), Member(n.key, Meaning(style, n.value)));
  }

  lemma ItemForgets(style: Style, items: seq<Json>, i: nat)
    requires SpellsNumbers(style) && OrderIsForgotten(style, Arr(items)) && i < |items|
    ensures OrderIsForgotten(style, items[i])
  {
    forall w | Reordered(items[i], w) ensures CanonicalText(style, items[i]) == CanonicalText(style, w) {
      var others := items[i := w];
      forall k | 0 <= k < |items| ensures Reordered(items[k], others[k]) { ReorderedItself(items[k]); }
      assert Reordered(Arr(items), Arr(others));
      TextIsMeaning(style, Arr(items), Arr(others));
      assert CanonItems(style, LoadItems(items))[i] == CanonItems(style, LoadItems(others))[i];
      TextIsMeaning(style, items[i], w);
    }
  }

  lemma MemberForgets(style: Style, members: seq<Member>, i: nat)
    requires SpellsNumbers(style) && OrderIsForgotten(style, Obj(members)) && i < |members|
    ensures OrderIsForgotten(style, members[i].value)
  {
    var v, rest := members[i].value, members[..i] + members[i + 1..];
    ReorderedItself(v);
    MovedIsReordered(members, i, v);
    forall w | Reordered(v, w) ensures CanonicalText(style, v) == CanonicalText(style, w) {
      MovedIsReordered(members, i, w);
      TextIsMeaning(style, Obj(Moved(members, i, v)), Obj(Moved(members, i, w)));
      LastValueShows(style, rest, rest, Member(members[i].key, v), Member(members[i].key, w));
      TextIsMeaning(style, v, w);
    }
  }

  lemma {:induction false} ExceptTwice(key: string, s: seq<Member>)
    ensures Except(key, Except(key, s)) == Except(key, s)
  {
    if s != [] {
      ExceptTwice(key, s[1..]);
      FilterConcat(OtherKey(key), if OtherKey(key)(s[0]) then [s[0]] else [], Except(key, s[1..]));
    }
  }

  /** A member inserted and then replaced leaves no trace. */
  lemma Replaced(raw: seq<Member>, m: Member)
    ensures Except(m.key, Inserted(raw + [m])) == Except(m.key, Inserted(raw))
  {
    assert (raw + [m])[..|raw|] == raw;
    var kept := Except(m.key, Inserted(raw));
    FilterConcat(OtherKey(m.key), kept, [m]);
    ExceptTwice(m.key, Inserted(raw));
    assert Filter(OtherKey(m.key), [m]) == [];
  }

  lemma PermutedIsReordered(members: seq<Member>, others: seq<Member>)
    requires multiset(members) == multiset(others)
    ensures Reordered(Obj(members), Obj(others))
  {
    forall k | 0 <= k < |members| ensures Reordered(members[k].value, members[k].value) {
      ReorderedItself(members[k].value);
    }
    assert ReorderedInside(members, members);
  }

  lemma SnocTwice<T>(s: seq<T>, x: T, y: T)
    ensures multiset(s + [x] + [y]) == multiset(s) + multiset{x} + multiset{y}
    ensures multiset(s + [y] + [x]) == multiset(s) + multiset{x} + multiset{y}
  {
  }

  lemma Removed<T>(s: seq<T>, i: nat) returns (t: seq<T>)
    requires i < |s|
    ensures |t| == |s| - 1 && multiset(s) == multiset(t) + multiset{s[i]}
    ensures forall k :: i < k < |s| ==> t[k - 1] == s[k]
  {
    t := s[..i] + s[i + 1..];
    Cut(s, i);
  }

  /** Two members can be moved to the end, in either order. */
  lemma TwoLast<T>(s: seq<T>, i: nat, j: nat) returns (rest: seq<T>)
    requires i < j < |s|
    ensures multiset(s) == multiset(rest + [s[i]] + [s[j]]) && multiset(s) == multiset(rest + [s[j]] + [s[i]])
  {
    var t := Removed(s, i);
    rest := Removed(t, j - 1);
    SnocTwice(rest, s[i], s[j]);
  }

  /** With two members of one key at the end, the value of the later is what counts. */
  lemma PairShows(style: Style, rest: seq<Member>, m: Member, n: Member)
    requires m.key == n.key && Meaning(style, Obj(rest + [m] + [n])) == Meaning(style, Obj(rest + [n] + [m]))
    ensures Meaning(style, m.value) == Meaning(style, n.value)
  {
    RawSnoc(style, rest, m);
    RawSnoc(style, rest, n);
    Replaced(Raw(style, rest), Member(m.key, Meaning(style, m.value)));
    Replaced(Raw(style, rest), Member(n.key, Meaning(style, n.value)));
    LastValueShows(style, rest + [m], rest + [n], n, m);
  }

  lemma PermutedMeansSame(style: Style, members: seq<Member>, others: seq<Member>)
    requires SpellsNumbers(style) && OrderIsForgotten(style, Obj(members)) && multiset(members) == multiset(others)
    ensures Meaning(style, Obj(members)) == Meaning(style, Obj(others))
  {
    PermutedIsReordered(members, others);
    TextIsMeaning(style, Obj(members), Obj(others));
  }

  /** Of two members with one key the later wins, so a text that forgets the order has the same value under both. */
  lemma CollisionForgets(style: Style, members: seq<Member>, i: nat, j: nat)
    requires SpellsNumbers(style) && OrderIsForgotten(style, Obj(members))
    requires i < j < |members| && members[i].key == members[j].key
    ensures Meaning(style, members[i].value) == Meaning(style, members[j].value)
  {
    var m, n := members[i], members[j];
    var rest := TwoLast(members, i, j);
    PermutedMeansSame(style, members, rest + [m] + [n]);
    PermutedMeansSame(style, members, rest + [n] + [m]);
    PairShows(style, rest, m, n);
  }

  lemma {:induction false} ForgottenIsSettled(style: Style, v: Json)
    requires SpellsNumbers(style) && OrderIsForgotten(style, v)
    ensures Settled(style, v)
    decreases v
  {
    match v
    case Arr(items) =>
      forall i | 0 <= i < |items| ensures Settled(style, items[i]) {
        ItemForgets(style, items, i);
        ForgottenIsSettled(style, items[i]);
      }
    case Obj(members) =>
      forall i | 0 <= i < |members| ensures Settled(style, members[i].value) {
        MemberForgets(style, members, i);
        ForgottenIsSettled(style, members[i].value);
      }
      forall i, j | 0 <= i < j < |members| && members[i].key == members[j].key
        ensures Meaning(style, members[i].value) == Meaning(style, members[j].value)
      {
        CollisionForgets(style, members, i, j);
      }
    case _ =>
  }

  /** The canonical text forgets the order of members, at every depth, if and only if members with the same key, as it
      stands in the text, have values with the same canonical form. */
  lemma OrderForgottenExactly(style: Style, v: Json)
    requires SpellsNumbers(style)
    ensures OrderIsForgotten(style, v) <==> Settled(style, v)
  {
    if OrderIsForgotten(style, v) { ForgottenIsSettled(style, v); }
    if Settled(style, v) {
      forall w | Reordered(v, w) ensures CanonicalText(style, v) == CanonicalText(style, w) {
        ReorderedMeaning(style, v, w);
        TextIsMeaning(style, v, w);
      }
    }
  }

  /** A repeated key shows the order: swapping its two members leaves the text alone only if their values agree. */
  lemma RepeatedKeyShowsOrder(style: Style, m: Member, n: Member)
    requires SpellsNumbers(style) && m.key == n.key
    ensures CanonicalText(style, Obj([m, n])) == CanonicalText(style, Obj([n, m]))
       <==> Meaning(style, m.value) == Meaning(style, n.value)
  {
    TextIsMeaning(style, Obj([m, n]), Obj([n, m]));
    assert [] + [m] + [n] == [m, n] && [] + [n] + [m] == [n, m];
    if Meaning(style, Obj([m, n])) == Meaning(style, Obj([n, m])) { PairShows(style, [], m, n); }
    if Meaning(style, m.value) == Meaning(style, n.value) {
      assert Raw(style, [m, n]) == Raw(style, [n, m]);
      ObjectMeaning(style, [m, n]);
      ObjectMeaning(style, [n, m]);
    }
  }

  /** For instance, a key with null and then true, against the same key with true and then null. */
  lemma NullOrTrue(style: Style, key: string)
    requires SpellsNumbers(style)
    ensures CanonicalText(style, Obj([Member(key, Null), Member(key, Bool(true))]))
         != CanonicalText(style, Obj([Member(key, Bool(true)), Member(key, Null)]))
  {
    RepeatedKeyShowsOrder(style, Member(key, Null), Member(key, Bool(true)));
  }
}
