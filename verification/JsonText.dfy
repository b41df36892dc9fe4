/**
 * JavaScript strings as UTF-16 code units: their order, the escaping of JSON strings, and the order by code
 * point.
 */
module JsonText {
  import opened Ordering

  type Unit = n: nat | n < 65536
  type Text = seq<Unit>

  const QUOTE: Unit := 34
  const BACKSLASH: Unit := 92

  predicate High(u: Unit) { 0xD800 <= u < 0xDC00 }

  predicate Low(u: Unit) { 0xDC00 <= u < 0xE000 }

  predicate Surrogate(u: Unit) { 0xD800 <= u < 0xE000 }

  predicate StartsPair(s: Text) {
    |s| >= 2 && High(s[0]) && Low(s[1])
  }

  /** Every surrogate is one half of a pair: the text has a UTF-8 encoding. */
  predicate Paired(s: Text) {
    s == [] || (if StartsPair(s) then Paired(s[2..]) else !Surrogate(s[0]) && Paired(s[1..]))
  }

  lemma {:induction false} PairedAppend(a: Text, b: Text)
    requires Paired(a) && Paired(b)
    ensures Paired(a + b)
  {
    if a == [] {
      assert a + b == b;
    } else if StartsPair(a) {
      PairedAppend(a[2..], b);
      assert (a + b)[2..] == a[2..] + b;
    } else {
      PairedAppend(a[1..], b);
      assert (a + b)[1..] == a[1..] + b;
    }
  }

  // ---- order ----

  /** `a < b` on JavaScript strings. */
  predicate Less(a: Text, b: Text) {
    b != [] && (a == [] || a[0] < b[0] || (a[0] == b[0] && Less(a[1..], b[1..])))
  }

  lemma {:induction false} LessIsTotal(a: Text, b: Text)
    ensures Less(a, b) || a == b || Less(b, a)
    ensures !(Less(a, b) && Less(b, a)) && !Less(a, a)
  {
    if a != [] && b != [] {
      LessIsTotal(a[1..], b[1..]);
      assert a == [a[0]] + a[1..] && b == [b[0]] + b[1..];
    }
    if a != [] { LessIsTotal(a[1..], []); LessIrreflexive(a); }
  }

  lemma {:induction false} LessIrreflexive(a: Text)
    ensures !Less(a, a)
  {
    if a != [] {
      LessIrreflexive(a[1..]);
    }
  }

  lemma {:induction false} LessTransitive(a: Text, b: Text, c: Text)
    requires Less(a, b) && Less(b, c)
    ensures Less(a, c)
  {
    if a != [] && a[0] == b[0] == c[0] {
      LessTransitive(a[1..], b[1..], c[1..]);
    }
  }

  // ---- JSON string literals ----

  function HexUnit(d: nat): Unit
    requires d < 16
  {
    if d < 10 then 48 + d else 87 + d
  }

  function HexDigit(u: Unit): Option<nat> {
    if 48 <= u < 58 then Some(u - 48) else if 97 <= u < 103 then Some(u - 87) else if 65 <= u < 71 then Some(u - 55) else None
  }

  function UnicodeEscape(u: Unit): Text {
    [BACKSLASH, 117, HexUnit(u / 4096), HexUnit(u / 256 % 16), HexUnit(u / 16 % 16), HexUnit(u % 16)]
  }

  /** The letter of a two-unit escape: `\"`, `\\`, `\b`, `\t`, `\n`, `\f`, `\r`. */
  function ShortEscape(u: Unit): Option<Unit> {
    if u == QUOTE || u == BACKSLASH then Some(u)
    else if u == 8 then Some(98) else if u == 9 then Some(116) else if u == 10 then Some(110)
    else if u == 12 then Some(102) else if u == 13 then Some(114) else None
  }

  function Unescape(letter: Unit): Option<Unit> {
    if letter == QUOTE || letter == BACKSLASH || letter == 47 then Some(letter)
    else if letter == 98 then Some(8) else if letter == 116 then Some(9) else if letter == 110 then Some(10)
    else if letter == 102 then Some(12) else if letter == 114 then Some(13) else None
  }

  function EscapeUnit(u: Unit): Text {
    if ShortEscape(u).Some? then [BACKSLASH, ShortEscape(u).value]
    else if u < 32 || Surrogate(u) then UnicodeEscape(u)
    else [u]
  }

  /** The inside of `JSON.stringify` of a string: a surrogate is escaped unless it is half of a pair. */
  function Escape(s: Text): Text {
    if s == [] then []
    else if StartsPair(s) then s[..2] + Escape(s[2..])
    else EscapeUnit(s[0]) + Escape(s[1..])
  }

  function Quoted(s: Text): Text {
    [QUOTE] + Escape(s) + [QUOTE]
  }

  /** Reads a string up to its closing quote (section 7 of RFC 8259); also returns what follows. */
  function ReadString(t: Text): (r: Option<(Text, Text)>)
    ensures r.Some? ==> |r.value.1| < |t|
  {
    if t == [] then None
    else if t[0] == QUOTE then Some(([], t[1..]))
    else if t[0] != BACKSLASH then Prefixed(t[0], ReadString(t[1..]))
    else if |t| < 2 then None
    else if t[1] == 117 then
      if |t| < 6 || HexDigit(t[2]).None? || HexDigit(t[3]).None? || HexDigit(t[4]).None? || HexDigit(t[5]).None? then None
      else
        Prefixed(HexDigit(t[2]).value * 4096 + HexDigit(t[3]).value * 256 + HexDigit(t[4]).value * 16 + HexDigit(t[5]).value,
                 ReadString(t[6..]))
    else if Unescape(t[1]).None? then None
    else Prefixed(Unescape(t[1]).value, ReadString(t[2..]))
  }

  function Prefixed(u: Unit, r: Option<(Text, Text)>): Option<(Text, Text)> {
    if r.None? then None else Some(([u] + r.value.0, r.value.1))
  }

  lemma HexRound(d: nat)
    requires d < 16
    ensures HexDigit(HexUnit(d)) == Some(d)
  {
  }

  lemma HexSum(u: Unit)
    ensures u / 4096 < 16 && u / 4096 * 4096 + u / 256 % 16 * 256 + u / 16 % 16 * 16 + u % 16 == u
  {
    var a, b, c := u / 16, u / 16 / 16, u / 16 / 16 / 16;
    assert b == u / 256 && c == u / 4096;
  }

  lemma {:induction false} UnicodeReadsBack(u: Unit, more: Text)
    ensures ReadString(UnicodeEscape(u) + more) == Prefixed(u, ReadString(more))
  {
    HexSum(u);
    HexRound(u / 4096);
    HexRound(u / 256 % 16);
    HexRound(u / 16 % 16);
    HexRound(u % 16);
    var t := UnicodeEscape(u) + more;
    assert t[6..] == more && t[0] == BACKSLASH && t[1] == 117;
  }

  /** One escaped unit reads back as that unit. */
  lemma {:induction false} UnitReadsBack(u: Unit, more: Text)
    ensures ReadString(EscapeUnit(u) + more) == Prefixed(u, ReadString(more))
  {
    var t := EscapeUnit(u) + more;
    if ShortEscape(u).Some? {
      assert t[2..] == more;
    } else if u < 32 || Surrogate(u) {
      UnicodeReadsBack(u, more);
    } else {
      assert t[1..] == more;
    }
  }

  lemma {:induction false} PairReadsBack(high: Unit, low: Unit, more: Text)
    requires High(high) && Low(low)
    ensures ReadString([high, low] + more) == Prefixed(high, Prefixed(low, ReadString(more)))
  {
    var t := [high, low] + more;
    assert t[1..] == [low] + more && ([low] + more)[1..] == more;
  }

  lemma PrefixedRest(u: Unit, s: Text, rest: Text)
    requires s != [] && s[0] == u
    ensures Prefixed(u, Some((s[1..], rest))) == Some((s, rest))
  {
    assert [u] + s[1..] == s;
  }

  lemma {:induction false} FirstUnitReadsBack(s: Text, tail: Text, rest: Text)
    requires s != [] && !StartsPair(s) && ReadString(Escape(s[1..]) + tail) == Some((s[1..], rest))
    ensures ReadString(Escape(s) + tail) == Some((s, rest))
  {
    var more := Escape(s[1..]) + tail;
    assert Escape(s) + tail == EscapeUnit(s[0]) + more;
    UnitReadsBack(s[0], more);
    PrefixedRest(s[0], s, rest);
  }

  lemma {:induction false} FirstPairReadsBack(s: Text, tail: Text, rest: Text)
    requires StartsPair(s) && ReadString(Escape(s[2..]) + tail) == Some((s[2..], rest))
    ensures ReadString(Escape(s) + tail) == Some((s, rest))
  {
    var more := Escape(s[2..]) + tail;
    assert Escape(s) + tail == [s[0], s[1]] + more;
    PairReadsBack(s[0], s[1], more);
    assert s[1..][1..] == s[2..];
    PrefixedRest(s[1], s[1..], rest);
    PrefixedRest(s[0], s, rest);
  }

  /** A string literal reads back as its string. */
  lemma {:induction false} StringReadsBack(s: Text, rest: Text)
    ensures ReadString(Escape(s) + ([QUOTE] + rest)) == Some((s, rest))
  {
    var tail := [QUOTE] + rest;
    if s == [] {
      assert Escape(s) + tail == tail && tail[1..] == rest;
    } else if StartsPair(s) {
      StringReadsBack(s[2..], rest);
      FirstPairReadsBack(s, tail, rest);
    } else {
      StringReadsBack(s[1..], rest);
      FirstUnitReadsBack(s, tail, rest);
    }
  }

  lemma {:induction false} PlainIsPaired(t: Text)
    requires forall i :: 0 <= i < |t| ==> !Surrogate(t[i])
    ensures Paired(t)
  {
    if t != [] {
      PlainIsPaired(t[1..]);
    }
  }

  /** A string literal never contains half a pair, whatever the string. */
  lemma {:induction false} EscapeIsPaired(s: Text)
    ensures Paired(Escape(s))
  {
    if s == [] {
    } else if StartsPair(s) {
      EscapeIsPaired(s[2..]);
      assert s[..2][2..] == [];
      PairedAppend(s[..2], Escape(s[2..]));
    } else {
      EscapeIsPaired(s[1..]);
      PlainIsPaired(EscapeUnit(s[0]));
      PairedAppend(EscapeUnit(s[0]), Escape(s[1..]));
    }
  }

  lemma QuotedIsPaired(s: Text)
    ensures Paired(Quoted(s))
  {
    EscapeIsPaired(s);
    PlainIsPaired([QUOTE]);
    PairedAppend([QUOTE], Escape(s));
    PairedAppend([QUOTE] + Escape(s), [QUOTE]);
  }

  // ---- order by code point ----

  function FirstPoint(s: Text): nat
    requires s != []
  {
    if StartsPair(s) then 0x10000 + (s[0] as int - 0xD800) * 1024 + (s[1] as int - 0xDC00) else s[0]
  }

  function PointLength(s: Text): nat
    requires s != []
  {
    if StartsPair(s) then 2 else 1
  }

  predicate PointLess(a: Text, b: Text)
    decreases |a|
  {
    b != [] && (a == [] || FirstPoint(a) < FirstPoint(b)
                || (FirstPoint(a) == FirstPoint(b) && PointLess(a[PointLength(a)..], b[PointLength(b)..])))
  }

  /** Where the texts first differ, one has a surrogate and the other a unit above the surrogates. */
  predicate Crossing(a: Text, b: Text) {
    a != [] && b != [] &&
    if a[0] == b[0] then Crossing(a[1..], b[1..])
    else (Surrogate(a[0]) && b[0] >= 0xE000) || (Surrogate(b[0]) && a[0] >= 0xE000)
  }

  /** The code-unit order the code sorts by is the code-point order its documentation names, except across surrogates. */
  lemma {:induction false} OrdersAgree(a: Text, b: Text)
    requires Paired(a) && Paired(b)
    ensures (Less(a, b) <==> PointLess(a, b)) <==> !Crossing(a, b)
    decreases |a|
  {
    if a != [] && b != [] {
      if a[0] == b[0] && StartsPair(a) {
        if a[1] == b[1] {
          OrdersAgree(a[2..], b[2..]);
          assert a[1..][1..] == a[2..] && b[1..][1..] == b[2..];
          assert Less(a[1..], b[1..]) == Less(a[2..], b[2..]);
        }
      } else if a[0] == b[0] {
        OrdersAgree(a[1..], b[1..]);
      }
    }
  }

  /** U+FF61 sorts after U+1F600 by code unit and before it by code point. */
  lemma OrdersDiffer()
    ensures var halfwidthStop: Text, grin: Text := [0xFF61], [0xD83D, 0xDE00];
            Paired(halfwidthStop) && Paired(grin) && Less(grin, halfwidthStop) && PointLess(halfwidthStop, grin)
  {
    var halfwidthStop: Text, grin: Text := [0xFF61], [0xD83D, 0xDE00];
    assert grin[2..] == [] && halfwidthStop[1..] == [];
    assert FirstPoint(grin) == 0x1F600;
  }
}
