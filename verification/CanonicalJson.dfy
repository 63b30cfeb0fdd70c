/**
 * The canonical printer behind the idempotency hash: object keys are sorted at every level, so
 * that a printed body identifies the value up to the order of its keys.
 */
module CanonicalJson {
  import opened Sums
  import opened JsonText
  import opened JsonParser

  // ---------- sorting by key, code unit by code unit ----------

  predicate Before(a: Text, b: Text) {
    if b == [] then false
    else if a == [] then true
    else if a[0] != b[0] then a[0] < b[0]
    else Before(a[1..], b[1..])
  }

  lemma {:induction false} BeforeIsTotal(a: Text, b: Text)
    ensures a == b || Before(a, b) || Before(b, a)
    ensures !(Before(a, b) && Before(b, a))
    ensures a == b ==> !Before(a, b)
  {
    if a != [] && b != [] {
      BeforeIsTotal(a[1..], b[1..]);
      assert a == [a[0]] + a[1..] && b == [b[0]] + b[1..];
    }
  }

  lemma {:induction false} BeforeIsTransitive(a: Text, b: Text, c: Text)
    requires Before(a, b) && Before(b, c)
    ensures Before(a, c)
  {
    if a != [] && b != [] && c != [] {
      if a[0] == b[0] == c[0] {
        BeforeIsTransitive(a[1..], b[1..], c[1..]);
      }
    }
  }

  /** A key with something that belongs to it: a value, or a value's printed text. */
  datatype Entry<T> = Entry(key: Text, content: T)

  function InsertByKey<T>(entry: Entry<T>, sorted: seq<Entry<T>>): seq<Entry<T>> {
    if sorted == [] || Before(entry.key, sorted[0].key) then
      [entry] + sorted
    else
      [sorted[0]] + InsertByKey(entry, sorted[1..])
  }

  function SortByKey<T>(entries: seq<Entry<T>>): seq<Entry<T>> {
    if entries == [] then [] else InsertByKey(entries[0], SortByKey(entries[1..]))
  }

  ghost predicate Ascending<T>(entries: seq<Entry<T>>) {
    forall i, j | 0 <= i < j < |entries| :: Before(entries[i].key, entries[j].key)
  }

  ghost predicate DistinctKeys<T>(entries: seq<Entry<T>>) {
    forall i, j | 0 <= i < j < |entries| :: entries[i].key != entries[j].key
  }

  lemma {:induction false} InsertKeeps<T>(entry: Entry<T>, sorted: seq<Entry<T>>)
    ensures multiset(InsertByKey(entry, sorted)) == multiset(sorted) + multiset{entry}
  {
    if !(sorted == [] || Before(entry.key, sorted[0].key)) {
      InsertKeeps(entry, sorted[1..]);
      assert sorted == [sorted[0]] + sorted[1..];
    }
  }

  lemma {:induction false} SortKeeps<T>(entries: seq<Entry<T>>)
    ensures multiset(SortByKey(entries)) == multiset(entries)
  {
    if entries != [] {
      SortKeeps(entries[1..]);
      InsertKeeps(entries[0], SortByKey(entries[1..]));
      assert entries == [entries[0]] + entries[1..];
    }
  }

  lemma {:induction false} InsertSorts<T>(entry: Entry<T>, sorted: seq<Entry<T>>)
    requires Ascending(sorted)
    requires forall i | 0 <= i < |sorted| :: sorted[i].key != entry.key
    ensures Ascending(InsertByKey(entry, sorted))
  {
    var result := InsertByKey(entry, sorted);
    if sorted == [] {
    } else if Before(entry.key, sorted[0].key) {
      forall j | 0 < j < |result|
        ensures Before(entry.key, result[j].key)
      {
        if j > 1 {
          BeforeIsTransitive(entry.key, sorted[0].key, sorted[j - 1].key);
        }
      }
    } else {
      BeforeIsTotal(entry.key, sorted[0].key);
      InsertSorts(entry, sorted[1..]);
      InsertKeeps(entry, sorted[1..]);
      var inner := InsertByKey(entry, sorted[1..]);
      forall j | 0 <= j < |inner|
        ensures Before(sorted[0].key, inner[j].key)
      {
        assert inner[j] in multiset(inner);
        assert inner[j] == entry || inner[j] in sorted[1..];
      }
    }
  }

  lemma {:induction false} SortSorts<T>(entries: seq<Entry<T>>)
    requires DistinctKeys(entries)
    ensures Ascending(SortByKey(entries))
  {
    if entries != [] {
      SortSorts(entries[1..]);
      SortKeeps(entries[1..]);
      var sorted := SortByKey(entries[1..]);
      forall i | 0 <= i < |sorted|
        ensures sorted[i].key != entries[0].key
      {
        assert sorted[i] in multiset(sorted);
        assert sorted[i] in entries[1..];
      }
      InsertSorts(entries[0], sorted);
    }
  }

  /** There is one ascending order of given entries. */
  lemma {:induction false} AscendingIsUnique<T>(xs: seq<Entry<T>>, ys: seq<Entry<T>>)
    requires Ascending(xs) && Ascending(ys) && multiset(xs) == multiset(ys)
    ensures xs == ys
  {
    assert |xs| == |multiset(xs)| && |ys| == |multiset(ys)|;
    if xs != [] {
      FirstIsLeast(xs, ys);
      assert xs == [xs[0]] + xs[1..] && ys == [ys[0]] + ys[1..];
      assert multiset(xs[1..]) == multiset(xs) - multiset{xs[0]};
      assert multiset(ys[1..]) == multiset(ys) - multiset{ys[0]};
      AscendingIsUnique(xs[1..], ys[1..]);
    }
  }

  lemma FirstIsLeast<T>(xs: seq<Entry<T>>, ys: seq<Entry<T>>)
    requires Ascending(xs) && Ascending(ys) && multiset(xs) == multiset(ys)
    requires xs != [] && ys != []
    ensures xs[0] == ys[0]
  {
    assert xs[0] in multiset(ys) && ys[0] in multiset(xs);
    var i :| 0 <= i < |xs| && xs[i] == ys[0];
    var j :| 0 <= j < |ys| && ys[j] == xs[0];
    BeforeIsTotal(xs[0].key, ys[0].key);
  }

  // ---------- the printer ----------

  /** stableStringify: objects are printed with their keys sorted, at every level. */
  function Stringify(value: Json): Text
    decreases value, 1
  {
    match value
    case Arr(items) => [OPEN_BRACKET] + StringifyItems(items) + [CLOSE_BRACKET]
    case Obj(members) => [OPEN_BRACE] + JoinEntries(SortByKey(StringifyMembers(members))) + [CLOSE_BRACE]
    case _ => Plain(value)
  }

  function StringifyItems(items: seq<Json>): Text
    decreases items, 0
  {
    if items == [] then []
    else if |items| == 1 then Stringify(items[0])
    else Stringify(items[0]) + [COMMA] + StringifyItems(items[1..])
  }

  /** The keys with the printed texts of their values. */
  function StringifyMembers(members: seq<Member>): (entries: seq<Entry<Text>>)
    ensures |entries| == |members|
    decreases members, 0
  {
    if members == [] then
      []
    else
      [Entry(members[0].key, Stringify(members[0].value))] + StringifyMembers(members[1..])
  }

  function JoinEntries(entries: seq<Entry<Text>>): Text {
    if entries == [] then
      []
    else
      var first := Quoted(entries[0].key) + [COLON] + entries[0].content;
      if |entries| == 1 then first else first + [COMMA] + JoinEntries(entries[1..])
  }

  // ---------- the normal form ----------

  function Normal(value: Json): Json
    decreases value, 1
  {
    match value
    case Arr(items) => Arr(NormalItems(items))
    case Obj(members) => Obj(AsMembers(SortByKey(NormalMembers(members))))
    case _ => value
  }

  function NormalItems(items: seq<Json>): (normal: seq<Json>)
    ensures |normal| == |items|
    decreases items, 0
  {
    if items == [] then [] else [Normal(items[0])] + NormalItems(items[1..])
  }

  function NormalMembers(members: seq<Member>): (entries: seq<Entry<Json>>)
    ensures |entries| == |members|
    decreases members, 0
  {
    if members == [] then
      []
    else
      [Entry(members[0].key, Normal(members[0].value))] + NormalMembers(members[1..])
  }

  function AsMembers(entries: seq<Entry<Json>>): (members: seq<Member>)
    ensures |members| == |entries|
    ensures forall i | 0 <= i < |entries| :: members[i] == Member(entries[i].key, entries[i].content)
  {
    seq(|entries|, i requires 0 <= i < |entries| => Member(entries[i].key, entries[i].content))
  }

  lemma {:induction false} NormalItemsAt(items: seq<Json>, i: nat)
    requires i < |items|
    ensures NormalItems(items)[i] == Normal(items[i])
  {
    if i > 0 {
      NormalItemsAt(items[1..], i - 1);
    }
  }

  lemma {:induction false} NormalMembersAt(members: seq<Member>, i: nat)
    requires i < |members|
    ensures NormalMembers(members)[i] == Entry(members[i].key, Normal(members[i].value))
    ensures StringifyMembers(members)[i] == Entry(members[i].key, Stringify(members[i].value))
  {
    if i > 0 {
      NormalMembersAt(members[1..], i - 1);
    }
  }

  // ---------- printing is plain printing of the normal form ----------

  /** The entries with their values printed. */
  function Printed(entries: seq<Entry<Json>>): (texts: seq<Entry<Text>>)
    ensures |texts| == |entries|
  {
    seq(|entries|, i requires 0 <= i < |entries| => Entry(entries[i].key, Plain(entries[i].content)))
  }

  lemma {:induction false} PrintedInsert(entry: Entry<Json>, sorted: seq<Entry<Json>>)
    ensures InsertByKey(Entry(entry.key, Plain(entry.content)), Printed(sorted)) ==
            Printed(InsertByKey(entry, sorted))
  {
    if !(sorted == [] || Before(entry.key, sorted[0].key)) {
      PrintedInsert(entry, sorted[1..]);
      assert Printed(sorted)[1..] == Printed(sorted[1..]);
    }
  }

  /** Sorting looks at keys only, so it may come before or after printing the values. */
  lemma {:induction false} PrintedSort(entries: seq<Entry<Json>>)
    ensures SortByKey(Printed(entries)) == Printed(SortByKey(entries))
  {
    if entries != [] {
      PrintedSort(entries[1..]);
      assert Printed(entries)[1..] == Printed(entries[1..]);
      PrintedInsert(entries[0], SortByKey(entries[1..]));
    }
  }

  lemma {:induction false} JoinIsPlain(entries: seq<Entry<Json>>)
    ensures JoinEntries(Printed(entries)) == PlainMembers(AsMembers(entries))
  {
    if |entries| > 1 {
      JoinIsPlain(entries[1..]);
      assert Printed(entries)[1..] == Printed(entries[1..]);
      assert AsMembers(entries)[1..] == AsMembers(entries[1..]);
    }
  }

  lemma {:induction false} StringifyIsPlainNormal(value: Json)
    ensures Stringify(value) == Plain(Normal(value))
    decreases value, 1
  {
    match value
    case Arr(items) => StringifyItemsIsPlain(items);
    case Obj(members) =>
      StringifyMembersIsPrinted(members);
      PrintedSort(NormalMembers(members));
      JoinIsPlain(SortByKey(NormalMembers(members)));
    case _ =>
  }

  lemma {:induction false} StringifyItemsIsPlain(items: seq<Json>)
    ensures StringifyItems(items) == PlainItems(NormalItems(items))
    decreases items, 0
  {
    if items != [] {
      StringifyIsPlainNormal(items[0]);
      StringifyItemsIsPlain(items[1..]);
      assert NormalItems(items)[1..] == NormalItems(items[1..]);
    }
  }

  lemma {:induction false} StringifyMembersIsPrinted(members: seq<Member>)
    ensures StringifyMembers(members) == Printed(NormalMembers(members))
    decreases members, 0
  {
    if members != [] {
      StringifyIsPlainNormal(members[0].value);
      StringifyMembersIsPrinted(members[1..]);
    }
  }

  // ---------- normal forms are values ----------

  lemma {:induction false} NormalIsValue(value: Json)
    requires IsValue(value)
    ensures IsValue(Normal(value))
    decreases value
  {
    match value
    case Arr(items) =>
      forall i | 0 <= i < |items|
        ensures IsValue(NormalItems(items)[i])
      {
        NormalIsValue(items[i]);
        NormalItemsAt(items, i);
      }
    case Obj(members) =>
      forall i | 0 <= i < |members|
        ensures IsValue(Normal(members[i].value))
      {
        NormalIsValue(members[i].value);
      }
      SortedMembersAreValues(members);
    case _ =>
  }

  lemma EntriesKeepKeys(members: seq<Member>)
    requires forall i, j | 0 <= i < j < |members| :: members[i].key != members[j].key
    ensures DistinctKeys(NormalMembers(members))
  {
    forall i | 0 <= i < |members|
      ensures NormalMembers(members)[i].key == members[i].key
    {
      NormalMembersAt(members, i);
    }
  }

  lemma {:induction false} SortedMembersAreValues(members: seq<Member>)
    requires forall i, j | 0 <= i < j < |members| :: members[i].key != members[j].key
    requires forall i | 0 <= i < |members| :: IsValue(Normal(members[i].value))
    ensures IsValue(Obj(AsMembers(SortByKey(NormalMembers(members)))))
  {
    var entries := NormalMembers(members);
    var sorted := SortByKey(entries);
    EntriesKeepKeys(members);
    SortSorts(entries);
    SortKeeps(entries);
    forall i | 0 <= i < |sorted|
      ensures IsValue(sorted[i].content)
    {
      assert sorted[i] in multiset(sorted);
      var j :| 0 <= j < |entries| && entries[j] == sorted[i];
      NormalMembersAt(members, j);
    }
    forall i, j | 0 <= i < j < |sorted|
      ensures sorted[i].key != sorted[j].key
    {
      BeforeIsTotal(sorted[i].key, sorted[j].key);
    }
  }

  // ---------- equality up to key order ----------

  /** The same value, except that object keys may come in another order, at any level. */
  ghost predicate Same(a: Json, b: Json)
    decreases a
  {
    match (a, b)
    case (Arr(xs), Arr(ys)) => |xs| == |ys| && forall i | 0 <= i < |xs| :: Same(xs[i], ys[i])
    case (Obj(xs), Obj(ys)) => |xs| == |ys| && forall i | 0 <= i < |xs| :: HasSame(xs[i], ys)
    case _ => a == b
  }

  /** Some member of the list has the member's key and the same value. */
  ghost predicate HasSame(member: Member, ys: seq<Member>)
    decreases member
  {
    exists j :: 0 <= j < |ys| && ys[j].key == member.key && Same(member.value, ys[j].value)
  }

  lemma {:induction false} SameIffEqualNormal(a: Json, b: Json)
    requires IsValue(a) && IsValue(b)
    ensures Same(a, b) <==> Normal(a) == Normal(b)
    decreases a
  {
    if a.Arr? && b.Arr? {
      SameItems(a.items, b.items);
    } else if a.Obj? && b.Obj? {
      var xs, ys := a.members, b.members;
      forall i, j | 0 <= i < |xs| && 0 <= j < |ys|
        ensures Same(xs[i].value, ys[j].value) <==> Normal(xs[i].value) == Normal(ys[j].value)
      {
        SameIffEqualNormal(xs[i].value, ys[j].value);
      }
      SameMembers(xs, ys);
      if PairUp(xs, ys) {
        PairedMembersSort(xs, ys);
      }
      if AsMembers(SortByKey(NormalMembers(xs))) == AsMembers(SortByKey(NormalMembers(ys))) {
        EqualNormalMembers(xs, ys);
      }
    }
  }

  /** Some member of the list has this key and, but for key order, this value. */
  predicate HasLike(ys: seq<Member>, member: Member) {
    exists j :: 0 <= j < |ys| && ys[j].key == member.key && Normal(ys[j].value) == Normal(member.value)
  }

  predicate PairUp(xs: seq<Member>, ys: seq<Member>) {
    |xs| == |ys| && forall i | 0 <= i < |xs| :: HasLike(ys, xs[i])
  }

  lemma SameMembers(xs: seq<Member>, ys: seq<Member>)
    requires forall i, j | 0 <= i < |xs| && 0 <= j < |ys| ::
               Same(xs[i].value, ys[j].value) <==> Normal(xs[i].value) == Normal(ys[j].value)
    ensures Same(Obj(xs), Obj(ys)) <==> PairUp(xs, ys)
  {
    if Same(Obj(xs), Obj(ys)) {
      forall i | 0 <= i < |xs|
        ensures HasLike(ys, xs[i])
      {
        assert HasSame(xs[i], ys);
      }
    }
    if PairUp(xs, ys) {
      forall i | 0 <= i < |xs|
        ensures HasSame(xs[i], ys)
      {
        assert HasLike(ys, xs[i]);
      }
    }
  }

  lemma {:induction false} SameItems(xs: seq<Json>, ys: seq<Json>)
    requires forall i | 0 <= i < |xs| :: IsValue(xs[i])
    requires forall i | 0 <= i < |ys| :: IsValue(ys[i])
    ensures Same(Arr(xs), Arr(ys)) <==> NormalItems(xs) == NormalItems(ys)
    decreases xs
  {
    if |xs| == |ys| {
      forall i | 0 <= i < |xs|
        ensures Same(xs[i], ys[i]) <==> NormalItems(xs)[i] == NormalItems(ys)[i]
      {
        SameIffEqualNormal(xs[i], ys[i]);
        NormalItemsAt(xs, i);
        NormalItemsAt(ys, i);
      }
    }
  }

  /** Members that pair up by key sort to the same entries. */
  lemma PairedMembersSort(xs: seq<Member>, ys: seq<Member>)
    requires IsValue(Obj(xs)) && IsValue(Obj(ys)) && PairUp(xs, ys)
    ensures SortByKey(NormalMembers(xs)) == SortByKey(NormalMembers(ys))
  {
    var ex, ey := NormalMembers(xs), NormalMembers(ys);
    EntriesKeepKeys(xs);
    EntriesKeepKeys(ys);
    forall i | 0 <= i < |ex|
      ensures ex[i] in ey
    {
      assert HasLike(ys, xs[i]);
      var j :| 0 <= j < |ys| && ys[j].key == xs[i].key && Normal(ys[j].value) == Normal(xs[i].value);
      NormalMembersAt(xs, i);
      NormalMembersAt(ys, j);
      assert ey[j] == ex[i];
    }
    DistinctSubsetIsAll(ex, ey);
    SortSorts(ex);
    SortSorts(ey);
    SortKeeps(ex);
    SortKeeps(ey);
    AscendingIsUnique(SortByKey(ex), SortByKey(ey));
  }

  /** Distinct entries that all occur in a list of the same length make up that list. */
  lemma DistinctSubsetIsAll<T>(xs: seq<Entry<T>>, ys: seq<Entry<T>>)
    requires DistinctKeys(xs) && DistinctKeys(ys) && |xs| == |ys|
    requires forall i | 0 <= i < |xs| :: xs[i] in ys
    ensures multiset(xs) == multiset(ys)
  {
    forall entry: Entry<T>
      ensures multiset(xs)[entry] <= multiset(ys)[entry]
    {
      DistinctMultiplicity(xs, entry);
      if entry in multiset(xs) {
        assert entry in xs;
        assert entry in ys;
      }
    }
    assert multiset(xs) <= multiset(ys);
    SubMultisetOfEqualSize(multiset(xs), multiset(ys));
  }

  lemma SubMultisetOfEqualSize<T>(a: multiset<T>, b: multiset<T>)
    requires a <= b && |a| == |b|
    ensures a == b
  {
    assert b == a + (b - a);
    assert |b - a| == 0;
  }

  lemma AsMembersIsInjective(xs: seq<Entry<Json>>, ys: seq<Entry<Json>>)
    requires AsMembers(xs) == AsMembers(ys)
    ensures xs == ys
  {
    assert |xs| == |AsMembers(xs)| == |ys|;
    forall i | 0 <= i < |xs|
      ensures xs[i] == ys[i]
    {
      assert AsMembers(xs)[i] == Member(xs[i].key, xs[i].content);
      assert AsMembers(ys)[i] == Member(ys[i].key, ys[i].content);
    }
  }

  lemma EqualNormalMembers(xs: seq<Member>, ys: seq<Member>)
    requires AsMembers(SortByKey(NormalMembers(xs))) == AsMembers(SortByKey(NormalMembers(ys)))
    ensures PairUp(xs, ys)
  {
    var ex, ey := NormalMembers(xs), NormalMembers(ys);
    AsMembersIsInjective(SortByKey(ex), SortByKey(ey));
    SortKeeps(ex);
    SortKeeps(ey);
    assert |ex| == |multiset(ex)| == |multiset(ey)| == |ey|;
    forall i | 0 <= i < |xs|
      ensures HasLike(ys, xs[i])
    {
      NormalMembersAt(xs, i);
      assert ex[i] in multiset(ex);
      assert ex[i] in multiset(ey);
      var j :| 0 <= j < |ey| && ey[j] == ex[i];
      NormalMembersAt(ys, j);
    }
  }

  // ---------- the main results ----------

  /** Parsing the printed form gives the normal form back, and all text is consumed. */
  lemma ParsingInvertsPrinting(value: Json)
    requires IsValue(value)
    ensures ReadValue(Stringify(value)) == Just(Normal(value), [])
  {
    StringifyIsPlainNormal(value);
    NormalIsValue(value);
    ReadValueInverts(Normal(value), []);
    assert Plain(Normal(value)) + [] == Plain(Normal(value));
  }

  /** Two values print alike exactly when they are equal up to the order of object keys. */
  lemma PrintsIdentifyValues(a: Json, b: Json)
    requires IsValue(a) && IsValue(b)
    ensures Stringify(a) == Stringify(b) <==> Same(a, b)
  {
    ParsingInvertsPrinting(a);
    ParsingInvertsPrinting(b);
    StringifyIsPlainNormal(a);
    StringifyIsPlainNormal(b);
    SameIffEqualNormal(a, b);
  }
}
