/** The text a guidance contradiction's fingerprint hashes. */
module GuidanceDrift {
  import opened Ordering
  import opened JsonText
  import opened CanonicalJson
  import opened CanonicalJsonProofs

  datatype Contradiction = Contradiction(claim: Text, guidanceExcerpt: Text, manifestFacts: seq<Text>, severity: Text)

  function InsertText(t: Text, sorted: seq<Text>): seq<Text> {
    if sorted == [] || !Less(sorted[0], t) then [t] + sorted else [sorted[0]] + InsertText(t, sorted[1..])
  }

  function SortTexts(texts: seq<Text>): seq<Text> {
    if texts == [] then [] else InsertText(texts[0], SortTexts(texts[1..]))
  }

  function Strings(texts: seq<Text>): (r: seq<Json>)
    ensures |r| == |texts| && forall i :: 0 <= i < |r| ==> r[i] == Str(texts[i])
  {
    seq(|texts|, i requires 0 <= i < |texts| => Str(texts[i]))
  }

  const CLAIM: Text := [99, 108, 97, 105, 109]
  const GUIDANCE_EXCERPT: Text := [103, 117, 105, 100, 97, 110, 99, 101, 69, 120, 99, 101, 114, 112, 116]
  const MANIFEST_FACTS: Text := [109, 97, 110, 105, 102, 101, 115, 116, 70, 97, 99, 116, 115]
  const SEVERITY: Text := [115, 101, 118, 101, 114, 105, 116, 121]

  function Normalized(c: Contradiction): Json {
    Obj([Entry(CLAIM, Str(c.claim)), Entry(GUIDANCE_EXCERPT, Str(c.guidanceExcerpt)),
         Entry(MANIFEST_FACTS, Arr(Strings(SortTexts(c.manifestFacts)))), Entry(SEVERITY, Str(c.severity))])
  }

  /** The input of the fingerprint's hash. */
  function FingerprintText(c: Contradiction): Option<Text> {
    Canonicalize(Normalized(c))
  }

  // ---- sorting facts ----

  ghost predicate SortedTexts(s: seq<Text>) {
    forall i, j :: 0 <= i < j < |s| ==> !Less(s[j], s[i])
  }

  lemma {:induction false} NotLessTransitive(a: Text, b: Text, c: Text)
    requires !Less(b, a) && !Less(c, b)
    ensures !Less(c, a)
  {
    LessIsTotal(a, b);
    LessIsTotal(b, c);
    if Less(c, a) {
      if a == b || b == c { } else { LessTransitive(c, a, b); }
    }
  }

  lemma {:induction false} ConsSorts(first: Text, tail: seq<Text>)
    requires SortedTexts(tail) && forall x :: x in tail ==> !Less(x, first)
    ensures SortedTexts([first] + tail) && multiset([first] + tail) == multiset(tail) + multiset{first}
  {
  }

  lemma SortedTail(sorted: seq<Text>)
    requires SortedTexts(sorted) && sorted != []
    ensures SortedTexts(sorted[1..]) && sorted == [sorted[0]] + sorted[1..] && multiset(sorted) == multiset(sorted[1..]) + multiset{sorted[0]}
    ensures forall x :: x in sorted[1..] ==> !Less(x, sorted[0])
  {
    assert sorted == [sorted[0]] + sorted[1..];
  }

  lemma {:induction false} InsertTextSorts(t: Text, sorted: seq<Text>)
    requires SortedTexts(sorted)
    ensures SortedTexts(InsertText(t, sorted)) && multiset(InsertText(t, sorted)) == multiset(sorted) + multiset{t}
  {
    if sorted != [] {
      var first, tail := sorted[0], sorted[1..];
      SortedTail(sorted);
      LessIsTotal(first, t);
      if Less(first, t) {
        InsertTextSorts(t, tail);
        forall x | x in InsertText(t, tail) ensures !Less(x, first) { assert x in multiset(InsertText(t, tail)); }
        ConsSorts(first, InsertText(t, tail));
      } else {
        forall x | x in sorted ensures !Less(x, t) {
          if x != first { NotLessTransitive(t, first, x); }
        }
        ConsSorts(t, sorted);
      }
    }
  }

  lemma {:induction false} SortTextsSorts(texts: seq<Text>)
    ensures SortedTexts(SortTexts(texts)) && multiset(SortTexts(texts)) == multiset(texts)
  {
    if texts != [] {
      SortTextsSorts(texts[1..]);
      InsertTextSorts(texts[0], SortTexts(texts[1..]));
      assert texts == [texts[0]] + texts[1..];
    }
  }

  lemma {:induction false} LeastComesFirst(a: seq<Text>, t: Text)
    requires SortedTexts(a) && a != [] && t in a
    ensures !Less(t, a[0])
  {
    LessIsTotal(t, a[0]);
    var j :| 0 <= j < |a| && a[j] == t;
  }

  lemma TailFacts(a: seq<Text>)
    requires a != []
    ensures multiset(a) == multiset{a[0]} + multiset(a[1..])
  {
    assert a == [a[0]] + a[1..];
  }

  lemma SameFirst(a: seq<Text>, b: seq<Text>)
    requires SortedTexts(a) && SortedTexts(b) && multiset(a) == multiset(b) && a != [] && b != []
    ensures a[0] == b[0] && multiset(a[1..]) == multiset(b[1..])
  {
    assert a[0] in multiset(b) && b[0] in multiset(a);
    LeastComesFirst(a, b[0]);
    LeastComesFirst(b, a[0]);
    LessIsTotal(a[0], b[0]);
    TailFacts(a);
    TailFacts(b);
    assert multiset(a[1..]) == multiset(a) - multiset{a[0]} == multiset(b) - multiset{b[0]} == multiset(b[1..]);
  }

  /** A sorted list is determined by what it holds how often. */
  lemma {:induction false} SortedTextsUnique(a: seq<Text>, b: seq<Text>)
    requires SortedTexts(a) && SortedTexts(b) && multiset(a) == multiset(b)
    ensures a == b
  {
    assert |a| == |multiset(a)| == |multiset(b)| == |b|;
    if a != [] {
      SameFirst(a, b);
      SortedTextsUnique(a[1..], b[1..]);
      assert a == [a[0]] + a[1..] && b == [b[0]] + b[1..];
    }
  }

  /** Sorting two lists of facts gives the same list exactly when they hold the same facts equally often. */
  lemma {:induction false} SortedAlikeIffSameFacts(x: seq<Text>, y: seq<Text>)
    ensures SortTexts(x) == SortTexts(y) <==> multiset(x) == multiset(y)
  {
    SortTextsSorts(x);
    SortTextsSorts(y);
    if multiset(x) == multiset(y) { SortedTextsUnique(SortTexts(x), SortTexts(y)); }
  }

  // ---- the fingerprint ----

  lemma KeysDiffer()
    ensures CLAIM != GUIDANCE_EXCERPT && CLAIM != MANIFEST_FACTS && CLAIM != SEVERITY
    ensures GUIDANCE_EXCERPT != MANIFEST_FACTS && GUIDANCE_EXCERPT != SEVERITY && MANIFEST_FACTS != SEVERITY
  {
    assert CLAIM[0] == 99 && GUIDANCE_EXCERPT[0] == 103 && MANIFEST_FACTS[0] == 109 && SEVERITY[0] == 115;
  }

  lemma NormalizedIsValid(c: Contradiction)
    ensures Valid(Normalized(c))
  {
    KeysDiffer();
    assert Valid(Arr(Strings(SortTexts(c.manifestFacts))));
  }

  lemma EquivStrings(x: seq<Text>, y: seq<Text>)
    ensures Equiv(Arr(Strings(x)), Arr(Strings(y))) <==> x == y
  {
    if Equiv(Arr(Strings(x)), Arr(Strings(y))) {
      forall i | 0 <= i < |x| ensures x[i] == y[i] { assert Equiv(Strings(x)[i], Strings(y)[i]); }
    }
  }

  /** The values of an object's entry `i`, which only the other's entry `i` can match. */
  lemma EquivAt(c: Contradiction, d: Contradiction, i: nat)
    requires i < 4 && Equiv(Normalized(c), Normalized(d))
    ensures Equiv(Normalized(c).entries[i].value, Normalized(d).entries[i].value)
  {
    KeysDiffer();
    var x, y := Normalized(c).entries, Normalized(d).entries;
    var j :| 0 <= j < |y| && x[i].key == y[j].key && Equiv(x[i].value, y[j].value);
  }

  /** Two contradictions have the same fingerprint text exactly when their fields agree and their facts are the same multiset. */
  lemma SameFingerprintTextIff(c: Contradiction, d: Contradiction)
    ensures FingerprintText(c).Some? && FingerprintText(d).Some?
    ensures FingerprintText(c) == FingerprintText(d) <==>
            c.claim == d.claim && c.guidanceExcerpt == d.guidanceExcerpt && c.severity == d.severity
            && multiset(c.manifestFacts) == multiset(d.manifestFacts)
  {
    NormalizedIsValid(c);
    NormalizedIsValid(d);
    SameTextIffEquivalent(Normalized(c), Normalized(d));
    SortedAlikeIffSameFacts(c.manifestFacts, d.manifestFacts);
    EquivStrings(SortTexts(c.manifestFacts), SortTexts(d.manifestFacts));
    if Equiv(Normalized(c), Normalized(d)) {
      EquivAt(c, d, 0);
      EquivAt(c, d, 1);
      EquivAt(c, d, 2);
      EquivAt(c, d, 3);
    }
    if Normalized(c) == Normalized(d) {
      assert Canonicalize(Normalized(c)) == Canonicalize(Normalized(d));
    }
  }
}
