/** Reading canonical text back, and the fingerprint of a contradiction. */
module CanonicalJsonProofs {
  import opened Ordering
  import opened JsonText
  import opened CanonicalJson

  // ---- the parser inverts the printer ----

  /** `rest` cannot continue a number. */
  predicate Ends(rest: Text) {
    rest == [] || !NumUnit(rest[0])
  }

  lemma {:induction false} PrintBegins(v: Json)
    requires Valid(v)
    ensures Print(v) != [] && Print(v)[0] !in [93, 125, 44, 58]
  {
  }

  lemma {:induction false} NumPrefixOf(text: Text, rest: Text)
    requires (forall i :: 0 <= i < |text| ==> NumUnit(text[i])) && Ends(rest)
    ensures NumPrefix(text + rest) == |text|
  {
    if text == [] {
      assert text + rest == rest;
    } else {
      assert (text + rest)[1..] == text[1..] + rest;
      NumPrefixOf(text[1..], rest);
    }
  }

  lemma {:induction false} NumberParses(text: Text, rest: Text)
    requires NumberText(text) && Ends(rest)
    ensures Parse(text + rest) == Some((Num(text), rest))
  {
    NumPrefixOf(text, rest);
    assert (text + rest)[..|text|] == text && (text + rest)[|text|..] == rest && NumUnit((text + rest)[0]);
  }

  lemma {:induction false} WordParses(v: Json, rest: Text)
    requires v.Null? || v.Bool?
    ensures Parse(Print(v) + rest) == Some((v, rest))
  {
    var word, t := Print(v), Print(v) + rest;
    assert t[..|word|] == word && t[|word|..] == rest && t[0] == word[0];
  }

  lemma {:induction false} StringParses(s: Text, rest: Text)
    ensures Parse(Quoted(s) + rest) == Some((Str(s), rest))
  {
    StringReadsBack(s, rest);
    var t := Quoted(s) + rest;
    assert t[1..] == Escape(s) + ([QUOTE] + rest);
  }

  lemma {:induction false} ParsePrinted(v: Json, rest: Text)
    requires Valid(v) && Ends(rest)
    ensures Parse(Print(v) + rest) == Some((v, rest))
    decreases v
  {
    match v
    case Num(text) => NumberParses(text, rest);
    case Str(s) => StringParses(s, rest);
    case Arr(items) =>
      if items != [] { ParsePrintedItems(items, rest); }
      ArrayParses(items, rest);
    case Obj(entries) =>
      if entries != [] { ParsePrintedEntries(entries, rest); }
      ObjectParses(entries, rest);
    case _ => WordParses(v, rest);
  }

  lemma {:induction false} ItemsBegin(items: seq<Json>)
    requires items != [] && Valid(items[0])
    ensures PrintItems(items) != [] && PrintItems(items)[0] !in [93, 125, 44, 58]
  {
    PrintBegins(items[0]);
    assert PrintItems(items)[0] == Print(items[0])[0];
  }

  lemma {:induction false} EntriesBegin(entries: seq<Entry>)
    requires entries != []
    ensures PrintEntries(entries) != [] && PrintEntries(entries)[0] == QUOTE
  {
    assert PrintEntry(entries[0])[0] == QUOTE;
    assert PrintEntries(entries)[0] == PrintEntry(entries[0])[0];
  }

  lemma {:induction false} ArrayStep(u: Text, items: seq<Json>, rest: Text)
    requires u != [] && u[0] != 93 && ParseItems(u) == Some((items, rest))
    ensures Parse([91] + u) == Some((Arr(items), rest))
  {
    var t := [91] + u;
    assert t[0] == 91 && t[1] == u[0] && t[1..] == u;
  }

  lemma {:induction false} ObjectStep(u: Text, entries: seq<Entry>, rest: Text)
    requires u != [] && u[0] != 125 && ParseEntries(u) == Some((entries, rest))
    ensures Parse([123] + u) == Some((Obj(entries), rest))
  {
    var t := [123] + u;
    assert t[0] == 123 && t[1] == u[0] && t[1..] == u;
  }

  lemma {:induction false} EmptiesParse(rest: Text)
    ensures Parse([91, 93] + rest) == Some((Arr([]), rest)) && Parse([123, 125] + rest) == Some((Obj([]), rest))
  {
    assert ([91, 93] + rest)[2..] == rest && ([123, 125] + rest)[2..] == rest;
  }

  lemma {:induction false} ArrayParses(items: seq<Json>, rest: Text)
    requires Valid(Arr(items)) && (items != [] ==> ParseItems(PrintItems(items) + ([93] + rest)) == Some((items, rest)))
    ensures Parse(Print(Arr(items)) + rest) == Some((Arr(items), rest))
  {
    if items == [] {
      EmptiesParse(rest);
      assert Print(Arr(items)) == [91, 93];
    } else {
      ItemsBegin(items);
      ArrayStep(PrintItems(items) + ([93] + rest), items, rest);
      assert Print(Arr(items)) + rest == [91] + (PrintItems(items) + ([93] + rest));
    }
  }

  lemma {:induction false} ObjectParses(entries: seq<Entry>, rest: Text)
    requires Valid(Obj(entries)) && (entries != [] ==> ParseEntries(PrintEntries(entries) + ([125] + rest)) == Some((entries, rest)))
    ensures Parse(Print(Obj(entries)) + rest) == Some((Obj(entries), rest))
  {
    if entries == [] {
      EmptiesParse(rest);
      assert Print(Obj(entries)) == [123, 125];
    } else {
      EntriesBegin(entries);
      ObjectStep(PrintEntries(entries) + ([125] + rest), entries, rest);
      assert Print(Obj(entries)) + rest == [123] + (PrintEntries(entries) + ([125] + rest));
    }
  }

  lemma {:induction false} ItemsStep(t: Text, v: Json, more: Text, items: seq<Json>, rest: Text)
    requires Parse(t) == Some((v, [44] + more)) && ParseItems(more) == Some((items, rest))
    ensures ParseItems(t) == Some(([v] + items, rest))
  {
    assert ([44] + more)[1..] == more;
  }

  lemma {:induction false} ItemsEnd(t: Text, v: Json, rest: Text)
    requires Parse(t) == Some((v, [93] + rest))
    ensures ParseItems(t) == Some(([v], rest))
  {
    assert ([93] + rest)[1..] == rest;
  }

  lemma {:induction false} ItemsText(items: seq<Json>, tail: Text)
    requires items != []
    ensures PrintItems(items) + tail ==
            Print(items[0]) + if |items| == 1 then tail else [44] + (PrintItems(items[1..]) + tail)
  {
    if |items| > 1 {
      Reassociate(Print(items[0]), [44], PrintItems(items[1..]));
      Reassociate(Print(items[0]), [44] + PrintItems(items[1..]), tail);
      Reassociate([44], PrintItems(items[1..]), tail);
    }
  }

  lemma EndsAt(u: Unit, rest: Text)
    requires u in [44, 93, 125]
    ensures Ends([u] + rest)
  {
  }

  lemma {:induction false} ParsePrintedItems(items: seq<Json>, rest: Text)
    requires items != [] && forall i :: 0 <= i < |items| ==> Valid(items[i])
    ensures ParseItems(PrintItems(items) + ([93] + rest)) == Some((items, rest))
    decreases items
  {
    var tail := [93] + rest;
    ItemsText(items, tail);
    if |items| == 1 {
      EndsAt(93, rest);
      ParsePrinted(items[0], tail);
      ItemsEnd(Print(items[0]) + tail, items[0], rest);
      assert [items[0]] == items;
    } else {
      var more := PrintItems(items[1..]) + tail;
      assert Parse(Print(items[0]) + ([44] + more)) == Some((items[0], [44] + more)) by {
        EndsAt(44, more);
        ParsePrinted(items[0], [44] + more);
      }
      assert ParseItems(more) == Some((items[1..], rest)) by { ParsePrintedItems(items[1..], rest); }
      ItemsStep(Print(items[0]) + ([44] + more), items[0], more, items[1..], rest);
      assert [items[0]] + items[1..] == items;
    }
  }

  lemma {:induction false} EntryStep(t: Text, key: Text, value: Text, v: Json, rest: Text)
    requires t != [] && t[0] == QUOTE && ReadString(t[1..]) == Some((key, [58] + value)) && Parse(value) == Some((v, rest))
    ensures ParseEntry(t) == Some((Entry(key, v), rest))
  {
    assert ([58] + value)[1..] == value;
  }

  lemma {:induction false} EntrySplits(e: Entry, rest: Text)
    ensures var t := PrintEntry(e) + rest;
            t[0] == QUOTE && t[1..] == Escape(e.key) + ([QUOTE] + ([58] + (Print(e.value) + rest)))
  {
    var t, value := PrintEntry(e) + rest, Print(e.value);
    assert t == [QUOTE] + (Escape(e.key) + ([QUOTE] + ([58] + (value + rest))));
  }

  lemma {:induction false} ParsePrintedEntry(e: Entry, rest: Text)
    requires Valid(e.value) && Ends(rest)
    ensures ParseEntry(PrintEntry(e) + rest) == Some((e, rest))
    decreases e, 0
  {
    ParsePrinted(e.value, rest);
    EntrySplits(e, rest);
    StringReadsBack(e.key, [58] + (Print(e.value) + rest));
    EntryStep(PrintEntry(e) + rest, e.key, Print(e.value) + rest, e.value, rest);
  }

  lemma {:induction false} EntriesStep(t: Text, e: Entry, more: Text, entries: seq<Entry>, rest: Text)
    requires ParseEntry(t) == Some((e, [44] + more)) && ParseEntries(more) == Some((entries, rest))
    ensures ParseEntries(t) == Some(([e] + entries, rest))
  {
    assert ([44] + more)[1..] == more;
  }

  lemma {:induction false} EntriesEnd(t: Text, e: Entry, rest: Text)
    requires ParseEntry(t) == Some((e, [125] + rest))
    ensures ParseEntries(t) == Some(([e], rest))
  {
    assert ([125] + rest)[1..] == rest;
  }

  lemma {:induction false} EntriesText(entries: seq<Entry>, tail: Text)
    requires entries != []
    ensures PrintEntries(entries) + tail ==
            PrintEntry(entries[0]) + if |entries| == 1 then tail else [44] + (PrintEntries(entries[1..]) + tail)
  {
    if |entries| > 1 {
      Reassociate(PrintEntry(entries[0]), [44], PrintEntries(entries[1..]));
      Reassociate(PrintEntry(entries[0]), [44] + PrintEntries(entries[1..]), tail);
      Reassociate([44], PrintEntries(entries[1..]), tail);
    }
  }

  lemma {:induction false} ParsePrintedEntries(entries: seq<Entry>, rest: Text)
    requires entries != [] && forall i :: 0 <= i < |entries| ==> Valid(entries[i].value)
    ensures ParseEntries(PrintEntries(entries) + ([125] + rest)) == Some((entries, rest))
    decreases entries
  {
    var tail := [125] + rest;
    EntriesText(entries, tail);
    if |entries| == 1 {
      EndsAt(125, rest);
      ParsePrintedEntry(entries[0], tail);
      EntriesEnd(PrintEntry(entries[0]) + tail, entries[0], rest);
      assert [entries[0]] == entries;
    } else {
      var more := PrintEntries(entries[1..]) + tail;
      EndsAt(44, more);
      ParsePrintedEntry(entries[0], [44] + more);
      ParsePrintedEntries(entries[1..], rest);
      EntriesStep(PrintEntry(entries[0]) + ([44] + more), entries[0], more, entries[1..], rest);
      assert [entries[0]] + entries[1..] == entries;
    }
  }

  // ---- sorting ----

  ghost predicate SortedKeys(entries: seq<Entry>) {
    forall i, j :: 0 <= i < j < |entries| ==> Less(entries[i].key, entries[j].key)
  }

  lemma {:induction false} InsertKeeps(e: Entry, sorted: seq<Entry>)
    requires SortedKeys(sorted) && forall i :: 0 <= i < |sorted| ==> sorted[i].key != e.key
    ensures SortedKeys(Insert(e, sorted)) && |Insert(e, sorted)| == |sorted| + 1
    ensures forall x :: x in Insert(e, sorted) <==> x == e || x in sorted
  {
    if sorted != [] {
      var first, tail := sorted[0], sorted[1..];
      LessIsTotal(first.key, e.key);
      if Less(first.key, e.key) {
        InsertKeeps(e, tail);
        var r := Insert(e, tail);
        forall j | 0 <= j < |r| ensures Less(first.key, r[j].key) { assert r[j] in r; }
        assert sorted == [first] + tail;
      } else {
        forall j | 0 <= j < |sorted| ensures Less(e.key, sorted[j].key) {
          if j > 0 { LessTransitive(e.key, first.key, sorted[j].key); }
        }
      }
    }
  }

  lemma {:induction false} SortSorts(entries: seq<Entry>)
    requires KeysDistinct(entries)
    ensures SortedKeys(Sort(entries)) && |Sort(entries)| == |entries|
    ensures forall x :: x in Sort(entries) <==> x in entries
  {
    if entries != [] {
      SortSorts(entries[1..]);
      var tail := Sort(entries[1..]);
      forall i | 0 <= i < |tail| ensures tail[i].key != entries[0].key {
        assert tail[i] in entries[1..];
        var j :| 0 <= j < |entries[1..]| && entries[1..][j] == tail[i];
        assert entries[j + 1] == tail[i];
      }
      InsertKeeps(entries[0], tail);
      assert entries == [entries[0]] + entries[1..];
    }
  }

  /** Sorted entries are determined by which entries they are. */
  lemma {:induction false} SortedIsUnique(a: seq<Entry>, b: seq<Entry>)
    requires SortedKeys(a) && SortedKeys(b) && |a| == |b| && forall x :: x in a <==> x in b
    ensures a == b
  {
    if a != [] {
      assert a[0] in a;
      var i :| 0 <= i < |b| && b[i] == a[0];
      assert b[0] in b;
      var j :| 0 <= j < |a| && a[j] == b[0];
      LessIsTotal(a[0].key, b[0].key);
      assert a[0] == b[0];
      forall x ensures x in a[1..] <==> x in b[1..] { TailMembers(a, x); TailMembers(b, x); }
      SortedIsUnique(a[1..], b[1..]);
      assert a == [a[0]] + a[1..] && b == [b[0]] + b[1..];
    }
  }

  lemma TailMembers(a: seq<Entry>, x: Entry)
    requires SortedKeys(a) && a != []
    ensures x in a[1..] <==> x in a && x != a[0]
  {
    if x in a[1..] {
      var i :| 0 <= i < |a[1..]| && a[1..][i] == x;
      LessIsTotal(a[0].key, a[i + 1].key);
    }
    if x in a && x != a[0] {
      var i :| 0 <= i < |a| && a[i] == x;
      assert a[1..][i - 1] == x;
    }
  }

  // ---- keys of equivalent objects ----

  function Keys(entries: seq<Entry>): set<Text> {
    set i | 0 <= i < |entries| :: entries[i].key
  }

  lemma {:induction false} KeyCount(entries: seq<Entry>)
    requires KeysDistinct(entries)
    ensures |Keys(entries)| == |entries|
  {
    if entries != [] {
      KeyCount(entries[1..]);
      assert Keys(entries) == {entries[0].key} + Keys(entries[1..]) by {
        forall k | k in Keys(entries) ensures k in {entries[0].key} + Keys(entries[1..]) {
          var i :| 0 <= i < |entries| && entries[i].key == k;
          if i > 0 { assert entries[1..][i - 1].key == k; }
        }
        forall k | k in Keys(entries[1..]) ensures k in Keys(entries) {
          var i :| 0 <= i < |entries[1..]| && entries[1..][i].key == k;
          assert entries[i + 1].key == k;
        }
      }
      forall i | 0 <= i < |entries[1..]| ensures entries[1..][i].key != entries[0].key { assert entries[1..][i] == entries[i + 1]; }
    }
  }

  lemma SubsetOfSameSize<T>(a: set<T>, b: set<T>)
    requires a <= b && |a| == |b|
    ensures a == b
  {
    assert |b - a| == |b| - |a|;
    assert b - a == {};
  }

  /** Objects of one size, the keys of one among the other's, have the same keys. */
  lemma KeysMatchBack(x: seq<Entry>, y: seq<Entry>)
    requires KeysDistinct(x) && KeysDistinct(y) && |x| == |y| && Keys(x) <= Keys(y)
    ensures Keys(x) == Keys(y)
  {
    KeyCount(x);
    KeyCount(y);
    SubsetOfSameSize(Keys(x), Keys(y));
  }

  // ---- equivalence is equality of normal forms ----

  lemma {:induction false} EquivNorm(a: Json, b: Json)
    requires Valid(a) && Valid(b) && Equiv(a, b)
    ensures Norm(a) == Norm(b)
    decreases a
  {
    match a
    case Arr(x) =>
      forall i | 0 <= i < |x| ensures Norm(x[i]) == Norm(b.items[i]) { EquivNorm(x[i], b.items[i]); }
      assert NormItems(x) == NormItems(b.items);
    case Obj(x) =>
      var y := b.entries;
      forall i | 0 <= i < |x| ensures Matched(x, y, i) {
        var j :| 0 <= j < |y| && x[i].key == y[j].key && Equiv(x[i].value, y[j].value);
        EquivNorm(x[i].value, y[j].value);
        assert Matches(x, y, i, j);
      }
      SameNormalEntries(x, y);
    case _ =>
  }

  ghost predicate Matches(x: seq<Entry>, y: seq<Entry>, i: int, j: int) {
    0 <= i < |x| && 0 <= j < |y| && x[i].key == y[j].key && Norm(x[i].value) == Norm(y[j].value)
  }

  ghost predicate Matched(x: seq<Entry>, y: seq<Entry>, i: int) {
    exists j :: Matches(x, y, i, j)
  }

  lemma MatchBack(x: seq<Entry>, y: seq<Entry>)
    requires KeysDistinct(x) && KeysDistinct(y) && |x| == |y| && forall i :: 0 <= i < |x| ==> Matched(x, y, i)
    ensures forall j :: 0 <= j < |y| ==> Matched(y, x, j)
  {
    forall k | k in Keys(x) ensures k in Keys(y) {
      var i :| 0 <= i < |x| && x[i].key == k;
      assert Matched(x, y, i);
      var j :| Matches(x, y, i, j);
    }
    KeysMatchBack(x, y);
    forall j | 0 <= j < |y| ensures Matched(y, x, j) {
      assert y[j].key in Keys(x);
      var i :| 0 <= i < |x| && x[i].key == y[j].key;
      assert Matched(x, y, i);
      var k :| Matches(x, y, i, k);
      assert k == j;
      assert Matches(y, x, j, i);
    }
  }

  lemma {:induction false} NormalEntriesIn(x: seq<Entry>, y: seq<Entry>)
    requires forall i :: 0 <= i < |x| ==> Matched(x, y, i)
    ensures forall e :: e in NormEntries(x) ==> e in NormEntries(y)
  {
    forall e | e in NormEntries(x) ensures e in NormEntries(y) {
      var i :| 0 <= i < |x| && NormEntries(x)[i] == e;
      assert Matched(x, y, i);
      var j :| Matches(x, y, i, j);
      assert NormEntries(y)[j] == e;
    }
  }

  lemma {:induction false} SameNormalEntries(x: seq<Entry>, y: seq<Entry>)
    requires KeysDistinct(x) && KeysDistinct(y) && |x| == |y| && forall i :: 0 <= i < |x| ==> Matched(x, y, i)
    ensures Sort(NormEntries(x)) == Sort(NormEntries(y))
  {
    MatchBack(x, y);
    NormalEntriesIn(x, y);
    NormalEntriesIn(y, x);
    SortSorts(NormEntries(x));
    SortSorts(NormEntries(y));
    SortedIsUnique(Sort(NormEntries(x)), Sort(NormEntries(y)));
  }

  /** Objects with the same sorted normal entries match entry by entry. */
  lemma SameSortedMatch(x: seq<Entry>, y: seq<Entry>, i: nat) returns (j: nat)
    requires KeysDistinct(x) && KeysDistinct(y) && Sort(NormEntries(x)) == Sort(NormEntries(y)) && i < |x|
    ensures |x| == |y| && j < |y| && x[i].key == y[j].key && Norm(x[i].value) == Norm(y[j].value)
  {
    SortSorts(NormEntries(x));
    SortSorts(NormEntries(y));
    assert NormEntries(x)[i] in Sort(NormEntries(y));
    j :| 0 <= j < |y| && NormEntries(y)[j] == NormEntries(x)[i];
  }

  lemma {:induction false} SameSortedSize(x: seq<Entry>, y: seq<Entry>)
    requires KeysDistinct(x) && KeysDistinct(y) && Sort(NormEntries(x)) == Sort(NormEntries(y))
    ensures |x| == |y|
  {
    SortSorts(NormEntries(x));
    SortSorts(NormEntries(y));
  }

  lemma {:induction false} NormEquiv(a: Json, b: Json)
    requires Valid(a) && Valid(b) && Norm(a) == Norm(b)
    ensures Equiv(a, b)
    decreases a
  {
    match a
    case Arr(x) =>
      forall i | 0 <= i < |x| ensures Equiv(x[i], b.items[i]) {
        assert NormItems(x)[i] == NormItems(b.items)[i];
        NormEquiv(x[i], b.items[i]);
      }
    case Obj(x) =>
      var y := b.entries;
      SameSortedSize(x, y);
      forall i | 0 <= i < |x|
        ensures exists j :: 0 <= j < |y| && x[i].key == y[j].key && Equiv(x[i].value, y[j].value)
      {
        var j := SameSortedMatch(x, y, i);
        NormEquiv(x[i].value, y[j].value);
      }
    case _ =>
  }

  lemma {:induction false} NormIsValid(v: Json)
    requires Valid(v)
    ensures Valid(Norm(v)) && Serializable(v)
    decreases v
  {
    match v
    case Arr(items) =>
      forall i | 0 <= i < |items| ensures Valid(Norm(items[i])) && Serializable(items[i]) { NormIsValid(items[i]); }
    case Obj(entries) =>
      forall i | 0 <= i < |entries| ensures Valid(Norm(entries[i].value)) && Serializable(entries[i].value) { NormIsValid(entries[i].value); }
      var m := NormEntries(entries);
      SortSorts(m);
      forall i | 0 <= i < |Sort(m)| ensures Valid(Sort(m)[i].value) {
        assert Sort(m)[i] in m;
        var j :| 0 <= j < |m| && m[j] == Sort(m)[i];
      }
      forall i, j | 0 <= i < j < |Sort(m)| ensures Sort(m)[i].key != Sort(m)[j].key { LessIrreflexive(Sort(m)[i].key); }
    case _ =>
  }

  // ---- the law ----

  /** Parsing the canonical text of a value gives the value back, up to key order. */
  lemma {:induction false} CanonicalTextReadsBack(v: Json)
    requires Valid(v)
    ensures Canonicalize(v).Some? && Parse(Canonicalize(v).value) == Some((Norm(v), []))
    ensures Equiv(v, Norm(v)) && Valid(Norm(v))
  {
    NormIsValid(v);
    ParsePrinted(Norm(v), []);
    assert Print(Norm(v)) + [] == Print(Norm(v));
    NormTwice(v);
    NormEquiv(v, Norm(v));
  }

  lemma {:induction false} NormTwice(v: Json)
    requires Valid(v)
    ensures Norm(Norm(v)) == Norm(v)
    decreases v
  {
    NormIsValid(v);
    match v
    case Arr(items) =>
      forall i | 0 <= i < |items| ensures Norm(Norm(items[i])) == Norm(items[i]) { NormTwice(items[i]); }
      assert NormItems(NormItems(items)) == NormItems(items);
    case Obj(entries) =>
      var m := NormEntries(entries);
      SortSorts(m);
      forall i | 0 <= i < |entries| ensures Norm(Norm(entries[i].value)) == Norm(entries[i].value) { NormTwice(entries[i].value); }
      forall i | 0 <= i < |Sort(m)| ensures Norm(Sort(m)[i].value) == Sort(m)[i].value {
        assert Sort(m)[i] in m;
        var j :| 0 <= j < |m| && m[j] == Sort(m)[i];
      }
      assert NormEntries(Sort(m)) == Sort(m);
      SortSorts(Sort(m));
      SortedIsUnique(Sort(Sort(m)), Sort(m));
    case _ =>
  }

  /** Two values have the same canonical text exactly when they are equal up to object key order. */
  lemma {:induction false} SameTextIffEquivalent(a: Json, b: Json)
    requires Valid(a) && Valid(b)
    ensures Canonicalize(a).Some? && Canonicalize(b).Some?
    ensures Canonicalize(a) == Canonicalize(b) <==> Equiv(a, b)
  {
    CanonicalTextReadsBack(a);
    CanonicalTextReadsBack(b);
    if Canonicalize(a) == Canonicalize(b) { NormEquiv(a, b); }
    if Equiv(a, b) { EquivNorm(a, b); }
  }

  // ---- the text is what is hashed ----

  lemma {:induction false} PrintIsPaired(v: Json)
    requires Valid(v)
    ensures Paired(Print(v))
    decreases v
  {
    match v
    case Str(s) => QuotedIsPaired(s);
    case Arr(items) =>
      ItemsArePaired(items);
      PlainIsPaired([91]);
      PlainIsPaired([93]);
      PairedAppend([91], PrintItems(items));
      PairedAppend([91] + PrintItems(items), [93]);
    case Obj(entries) =>
      EntriesArePaired(entries);
      PlainIsPaired([123]);
      PlainIsPaired([125]);
      PairedAppend([123], PrintEntries(entries));
      PairedAppend([123] + PrintEntries(entries), [125]);
    case Num(text) =>
      forall i | 0 <= i < |text| ensures !Surrogate(text[i]) { assert NumUnit(text[i]); }
      PlainIsPaired(text);
    case _ => PlainIsPaired(Print(v));
  }

  lemma {:induction false} ItemsArePaired(items: seq<Json>)
    requires forall i :: 0 <= i < |items| ==> Valid(items[i])
    ensures Paired(PrintItems(items))
    decreases items
  {
    if items != [] {
      PrintIsPaired(items[0]);
      if |items| > 1 {
        ItemsArePaired(items[1..]);
        PlainIsPaired([44]);
        PairedAppend(Print(items[0]), [44]);
        PairedAppend(Print(items[0]) + [44], PrintItems(items[1..]));
      }
    }
  }

  lemma {:induction false} EntriesArePaired(entries: seq<Entry>)
    requires forall i :: 0 <= i < |entries| ==> Valid(entries[i].value)
    ensures Paired(PrintEntries(entries))
    decreases entries
  {
    if entries != [] {
      var e := entries[0];
      PrintIsPaired(e.value);
      QuotedIsPaired(e.key);
      PlainIsPaired([58]);
      PairedAppend(Quoted(e.key), [58]);
      PairedAppend(Quoted(e.key) + [58], Print(e.value));
      if |entries| > 1 {
        EntriesArePaired(entries[1..]);
        PlainIsPaired([44]);
        PairedAppend(PrintEntry(e), [44]);
        PairedAppend(PrintEntry(e) + [44], PrintEntries(entries[1..]));
      }
    }
  }

  /** Canonical text never holds half a surrogate pair, so encoding it as UTF-8 before hashing loses nothing. */
  lemma {:induction false} CanonicalTextIsPaired(v: Json)
    requires Valid(v)
    ensures Canonicalize(v).Some? && Paired(Canonicalize(v).value)
  {
    NormIsValid(v);
    PrintIsPaired(Norm(v));
  }
}
