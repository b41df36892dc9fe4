/** Client addresses as text, and the key each is throttled under. */
module Ipv6 {
  import opened Ordering

  // ---- text ----

  function Split(s: string, c: char): (parts: seq<string>)
    ensures |parts| >= 1
  {
    if s == "" then [""]
    else if s[0] == c then [""] + Split(s[1..], c)
    else var rest := Split(s[1..], c); [[s[0]] + rest[0]] + rest[1..]
  }

  /** Split at `::`, from the left. */
  function SplitDouble(s: string): (parts: seq<string>)
    ensures |parts| >= 1
  {
    if |s| < 2 then [s]
    else if s[0] == ':' && s[1] == ':' then [""] + SplitDouble(s[2..])
    else var rest := SplitDouble(s[1..]); [[s[0]] + rest[0]] + rest[1..]
  }

  function Join(parts: seq<string>, c: char): string {
    if parts == [] then "" else if |parts| == 1 then parts[0] else parts[0] + [c] + Join(parts[1..], c)
  }

  /** Index just past the last `c`, 0 when there is none. */
  function AfterLast(s: string, c: char): (i: nat)
    ensures i <= |s| && c !in s[i..] && (i > 0 ==> s[i - 1] == c)
  {
    if s == "" then 0
    else if s[|s| - 1] == c then |s|
    else
      var i := AfterLast(s[..|s| - 1], c);
      assert s[i..] == s[..|s| - 1][i..] + [s[|s| - 1]];
      i
  }

  // ---- digits ----

  function DigitOf(c: char): (d: Option<nat>)
    ensures d.Some? ==> d.value < 16
  {
    if '0' <= c <= '9' then Some((c - '0') as nat)
    else if 'a' <= c <= 'f' then Some((c - 'a') as nat + 10)
    else if 'A' <= c <= 'F' then Some((c - 'A') as nat + 10)
    else None
  }

  function CharOf(d: nat): (c: char)
    requires d < 16
    ensures DigitOf(c) == Some(d) && c !in ".:/%"
  {
    "0123456789abcdef"[d]
  }

  predicate AllDigits(s: string) {
    forall i :: 0 <= i < |s| ==> DigitOf(s[i]).Some?
  }

  /** `toString` and `parseInt` are used with these two. */
  type Radix = r: nat | r == 10 || r == 16 witness 10

  function Shift(n: nat, digit: nat, radix: Radix): nat {
    if radix == 10 then n * 10 + digit else n * 16 + digit
  }

  function Quotient(n: nat, radix: Radix): nat {
    if radix == 10 then n / 10 else n / 16
  }

  function Remainder(n: nat, radix: Radix): (d: nat)
    ensures d < radix <= 16
  {
    if radix == 10 then n % 10 else n % 16
  }

  function ValueOf(s: string, radix: Radix): nat
    requires AllDigits(s)
  {
    if s == "" then 0 else Shift(ValueOf(s[..|s| - 1], radix), DigitOf(s[|s| - 1]).value, radix)
  }

  /** `n.toString(radix)`. */
  function TextOf(n: nat, radix: Radix): (s: string)
    ensures s != "" && AllDigits(s) && forall i :: 0 <= i < |s| ==> s[i] !in ".:/%"
    decreases n
  {
    if n < radix then [CharOf(n)] else TextOf(Quotient(n, radix), radix) + [CharOf(Remainder(n, radix))]
  }

  // ---- parsing ----

  predicate IsHexGroup(s: string) {
    1 <= |s| <= 4 && AllDigits(s)
  }

  predicate IsOctet(s: string) {
    && 1 <= |s| <= 3 && (forall i :: 0 <= i < |s| ==> '0' <= s[i] <= '9') && (|s| > 1 ==> s[0] != '0')
    && ValueOf(s, 10) <= 255
  }

  /** Dotted decimal, as node's `isIPv4` accepts it: four octets without leading zeros. */
  predicate IsIpv4(s: string) {
    var parts := Split(s, '.');
    |parts| == 4 && forall i :: 0 <= i < 4 ==> IsOctet(parts[i])
  }

  function GroupsOf(parts: seq<string>): Option<seq<nat>> {
    if parts == [] then Some([])
    else if !IsHexGroup(parts[0]) then None
    else
      var rest := GroupsOf(parts[1..]);
      if rest.None? then None else Some([ValueOf(parts[0], 16)] + rest.value)
  }

  function ParsePart(part: string): Option<seq<nat>> {
    if part == "" then Some([]) else GroupsOf(Split(part, ':'))
  }

  function Prepend(read: seq<nat>, rest: Option<seq<nat>>): Option<seq<nat>> {
    if rest.None? then None else Some(read + rest.value)
  }

  lemma {:induction false} ReadsGroup(parts: seq<string>, i: nat, read: seq<nat>)
    requires i < |parts|
    ensures Prepend(read, GroupsOf(parts[i..])) ==
            if IsHexGroup(parts[i]) then Prepend(read + [ValueOf(parts[i], 16)], GroupsOf(parts[i + 1..])) else None
  {
    DropOne(parts, i);
    var rest := GroupsOf(parts[i + 1..]);
    if IsHexGroup(parts[i]) && rest.Some? { Reassociate(read, [ValueOf(parts[i], 16)], rest.value); }
  }

  lemma {:induction false} ReadsNothing(read: seq<nat>, parts: seq<string>)
    ensures Prepend(read, GroupsOf(parts[|parts|..])) == Some(read) && Prepend([], GroupsOf(parts[0..])) == GroupsOf(parts)
  {
    assert parts[|parts|..] == [] && parts[0..] == parts && read + [] == read;
    var all := GroupsOf(parts);
    if all.Some? { assert [] + all.value == all.value; }
  }

  /** The loop over a part's groups. */
  method ParseGroups(part: string) returns (groups: Option<seq<nat>>)
    ensures groups == ParsePart(part)
  {
    if part == "" { return Some([]); }
    var parts := Split(part, ':');
    var read: seq<nat> := [];
    var i := 0;
    ReadsNothing(read, parts);
    while i < |parts|
      invariant 0 <= i <= |parts|
      invariant GroupsOf(parts) == Prepend(read, GroupsOf(parts[i..]))
    {
      ReadsGroup(parts, i, read);
      if !IsHexGroup(parts[i]) { return None; }
      read := read + [ValueOf(parts[i], 16)];
      i := i + 1;
    }
    ReadsNothing(read, parts);
    return Some(read);
  }

  /** A dotted tail becomes two hexadecimal groups. */
  function WithoutDots(text: string): Option<string> {
    var i := AfterLast(text, ':');
    var tail := text[i..];
    if '.' !in tail then Some(text)
    else if !IsIpv4(tail) then None
    else
      var o := Split(tail, '.');
      var high, low := ValueOf(o[0], 10) * 256 + ValueOf(o[1], 10), ValueOf(o[2], 10) * 256 + ValueOf(o[3], 10);
      Some(text[..i] + TextOf(high, 16) + ":" + TextOf(low, 16))
  }

  function Zeros(n: nat): seq<nat> {
    seq(n, _ => 0)
  }

  function FromHalves(head: seq<nat>, rest: Option<seq<nat>>): Option<seq<nat>> {
    if rest.None? then if |head| == 8 then Some(head) else None
    else if |head| + |rest.value| > 7 then None
    else Some(head + Zeros(8 - |head| - |rest.value|) + rest.value)
  }

  function ParseHexText(text: string): Option<seq<nat>> {
    var halves := SplitDouble(text);
    if |halves| > 2 then None
    else
      var head, rest := ParsePart(halves[0]), if |halves| == 2 then ParsePart(halves[1]) else Some([]);
      if head.None? || rest.None? then None
      else FromHalves(head.value, if |halves| == 1 then None else rest)
  }

  /** The eight 16-bit groups of an address, or `None` when it is not well formed. */
  function Ipv6Groups(address: string): Option<seq<nat>> {
    var text := WithoutDots(Split(address, '%')[0]);
    if text.None? then None else ParseHexText(text.value)
  }

  // ---- throttle keys ----

  predicate AreGroups(g: seq<nat>) {
    |g| == 8 && forall i :: 0 <= i < 8 ==> g[i] < 65536
  }

  /** An IPv4-mapped address, `::ffff:a.b.c.d`. */
  predicate Mapped(g: seq<nat>)
    requires |g| == 8
  {
    (forall i :: 0 <= i < 5 ==> g[i] == 0) && g[5] == 0xffff
  }

  function Quad(high: nat, low: nat): string {
    Join([TextOf(high / 256, 10), TextOf(high % 256, 10), TextOf(low / 256, 10), TextOf(low % 256, 10)], '.')
  }

  function KeyOf(g: seq<nat>): string
    requires |g| == 8
  {
    if Mapped(g) then Quad(g[6], g[7])
    else Join([TextOf(g[0], 16), TextOf(g[1], 16), TextOf(g[2], 16), TextOf(g[3], 16)], ':') + "::/64"
  }

  /** `throttleKeyForIp`; `isIpv6` is node's own test. */
  function ThrottleKeyForIp(isIpv6: string -> bool, ip: string): string {
    if !isIpv6(ip) then ip
    else
      var groups := Ipv6Groups(ip);
      if groups.Some? && |groups.value| == 8 then KeyOf(groups.value) else ip
  }

  // ---- text lemmas ----

  lemma {:induction false} SplitJoin(parts: seq<string>, c: char)
    requires parts != [] && forall i :: 0 <= i < |parts| ==> c !in parts[i]
    ensures Split(Join(parts, c), c) == parts
  {
    if |parts| == 1 {
      SplitPlain(parts[0], c);
    } else {
      var rest := Join(parts[1..], c);
      SplitFirst(parts[0], c, rest);
      SplitJoin(parts[1..], c);
    }
  }

  lemma {:induction false} JoinDetermines(a: seq<string>, b: seq<string>, c: char)
    requires a != [] && b != [] && Join(a, c) == Join(b, c)
    requires (forall i :: 0 <= i < |a| ==> c !in a[i]) && (forall i :: 0 <= i < |b| ==> c !in b[i])
    ensures a == b
  {
    SplitJoin(a, c);
    SplitJoin(b, c);
  }

  lemma {:induction false} SplitPlain(s: string, c: char)
    requires c !in s
    ensures Split(s, c) == [s]
  {
    if s != "" {
      SplitPlain(s[1..], c);
      assert [s[0]] + s[1..] == s;
    }
  }

  lemma {:induction false} SplitFirst(s: string, c: char, rest: string)
    requires c !in s
    ensures Split(s + [c] + rest, c) == [s] + Split(rest, c)
  {
    var t := s + [c] + rest;
    if s == "" {
      assert t[1..] == rest;
    } else {
      assert t[1..] == s[1..] + [c] + rest;
      SplitFirst(s[1..], c, rest);
      assert [s[0]] + s[1..] == s;
    }
  }

  predicate NoDouble(s: string) {
    forall i :: 0 <= i < |s| - 1 ==> !(s[i] == ':' && s[i + 1] == ':')
  }

  lemma NoDoubleTail(s: string)
    requires NoDouble(s) && s != ""
    ensures NoDouble(s[1..])
  {
    forall i | 0 <= i < |s[1..]| - 1 ensures !(s[1..][i] == ':' && s[1..][i + 1] == ':') {
      assert !(s[i + 1] == ':' && s[i + 2] == ':');
    }
  }

  lemma {:induction false} SplitDoublePlain(s: string)
    requires NoDouble(s)
    ensures SplitDouble(s) == [s]
  {
    if |s| >= 2 {
      NoDoubleTail(s);
      SplitDoublePlain(s[1..]);
      assert [s[0]] + s[1..] == s;
    }
  }

  lemma {:induction false} SplitDoubleOnce(head: string, rest: string)
    requires NoDouble(head) && NoDouble(rest) && (head != "" ==> head[|head| - 1] != ':')
    ensures SplitDouble(head + "::" + rest) == [head, rest]
  {
    var t := head + "::" + rest;
    if head == "" {
      assert t[2..] == rest;
      SplitDoublePlain(rest);
    } else {
      assert t[1..] == head[1..] + "::" + rest;
      NoDoubleTail(head);
      assert t[0] == head[0] && (|head| > 1 ==> t[1] == head[1]);
      SplitDoubleOnce(head[1..], rest);
      assert [head[0]] + head[1..] == head;
    }
  }

  /** Groups joined by colons hold no `::`, and neither start nor end with a colon. */
  lemma {:induction false} JoinIsPlain(parts: seq<string>)
    requires forall i :: 0 <= i < |parts| ==> parts[i] != "" && ':' !in parts[i]
    ensures NoDouble(Join(parts, ':'))
    ensures Join(parts, ':') == "" <==> parts == []
    ensures parts != [] ==> Join(parts, ':')[0] != ':' && Join(parts, ':')[|Join(parts, ':')| - 1] != ':'
  {
    if |parts| > 1 {
      JoinIsPlain(parts[1..]);
      var t, rest, p := Join(parts, ':'), Join(parts[1..], ':'), parts[0];
      assert t == p + ":" + rest;
      forall i | 0 <= i < |t| - 1 ensures !(t[i] == ':' && t[i + 1] == ':') {
        if i > |p| { assert t[i] == rest[i - |p| - 1] && t[i + 1] == rest[i - |p|]; }
        else if i < |p| { assert t[i] == p[i]; }
      }
    }
  }

  // ---- digits round trip ----

  lemma DivMod(n: nat, radix: Radix)
    ensures Shift(Quotient(n, radix), Remainder(n, radix), radix) == n
  {
  }

  lemma {:induction false} TextOfRoundTrips(n: nat, radix: Radix)
    ensures ValueOf(TextOf(n, radix), radix) == n
    decreases n
  {
    var s := TextOf(n, radix);
    if n >= radix {
      TextOfRoundTrips(Quotient(n, radix), radix);
      assert s[..|s| - 1] == TextOf(Quotient(n, radix), radix) && s[|s| - 1] == CharOf(Remainder(n, radix));
      DivMod(n, radix);
    } else {
      assert s[..0] == "" && s == [CharOf(n)];
    }
  }

  lemma {:induction false} HexIsShort(n: nat)
    ensures n < 16 ==> |TextOf(n, 16)| == 1
    ensures n < 256 ==> |TextOf(n, 16)| <= 2
    ensures n < 4096 ==> |TextOf(n, 16)| <= 3
    ensures n < 65536 ==> |TextOf(n, 16)| <= 4
  {
    assert n >= 16 ==> |TextOf(n, 16)| == |TextOf(n / 16, 16)| + 1;
    assert n / 16 >= 16 ==> |TextOf(n / 16, 16)| == |TextOf(n / 16 / 16, 16)| + 1;
    assert n / 16 / 16 >= 16 ==> |TextOf(n / 16 / 16, 16)| == |TextOf(n / 16 / 16 / 16, 16)| + 1;
  }

  // ---- every legal spelling ----

  /**
   * A spelling of an address: the written groups, those after a `::` if there is one, a dotted-quad tail in
   * place of the last two groups, and a zone.
   */
  datatype Spelling = Spelling(head: seq<string>, rest: Option<seq<string>>, quad: Option<seq<string>>, zone: Option<string>)

  predicate AreHex(parts: seq<string>) {
    forall i :: 0 <= i < |parts| ==> IsHexGroup(parts[i])
  }

  function Values(parts: seq<string>): (r: seq<nat>)
    requires AreHex(parts)
    ensures |r| == |parts| && forall i :: 0 <= i < |parts| ==> r[i] == ValueOf(parts[i], 16)
  {
    if parts == [] then [] else [ValueOf(parts[0], 16)] + Values(parts[1..])
  }

  predicate AreOctets(o: seq<string>) {
    |o| == 4 && forall i :: 0 <= i < 4 ==> IsOctet(o[i])
  }

  function QuadValues(o: seq<string>): seq<nat>
    requires AreOctets(o)
  {
    [ValueOf(o[0], 10) * 256 + ValueOf(o[1], 10), ValueOf(o[2], 10) * 256 + ValueOf(o[3], 10)]
  }

  predicate WellWritten(sp: Spelling) {
    AreHex(sp.head) && (sp.rest.Some? ==> AreHex(sp.rest.value)) && (sp.quad.Some? ==> AreOctets(sp.quad.value))
  }

  function QuadOf(sp: Spelling): seq<nat>
    requires WellWritten(sp)
  {
    if sp.quad.Some? then QuadValues(sp.quad.value) else []
  }

  /** The groups spelled by the written values, a gap of zeros between them. */
  predicate Fills(head: seq<nat>, rest: Option<seq<nat>>, quad: seq<nat>, g: seq<nat>) {
    var after := if rest.Some? then rest.value else [];
    var gap := 8 - |head| - |after| - |quad|;
    (if rest.Some? then gap >= 1 else gap == 0) && g == head + Zeros(gap) + after + quad
  }

  /** Section 2.2 of RFC 4291: `sp` spells `g`, its `::` standing for one or more zero groups. */
  predicate Spells(sp: Spelling, g: seq<nat>) {
    WellWritten(sp) && |g| == 8 &&
    Fills(Values(sp.head), if sp.rest.Some? then Some(Values(sp.rest.value)) else None, QuadOf(sp), g)
  }

  function WithTail(parts: seq<string>, tail: Option<string>): seq<string> {
    if tail.Some? then parts + [tail.value] else parts
  }

  function Written(head: seq<string>, rest: Option<seq<string>>): string {
    if rest.Some? then Join(head, ':') + "::" + Join(rest.value, ':') else Join(head, ':')
  }

  function Text(sp: Spelling): string {
    var tail := if sp.quad.Some? then Some(Join(sp.quad.value, '.')) else None;
    (if sp.rest.Some? then Written(sp.head, Some(WithTail(sp.rest.value, tail))) else Written(WithTail(sp.head, tail), None))
    + if sp.zone.Some? then "%" + sp.zone.value else ""
  }

  // ---- the written parts, read back ----

  lemma {:induction false} GroupsRead(parts: seq<string>)
    requires AreHex(parts)
    ensures GroupsOf(parts) == Some(Values(parts))
  {
    if parts != [] {
      GroupsRead(parts[1..]);
    }
  }

  lemma HexIsPlain(part: string)
    requires IsHexGroup(part)
    ensures ':' !in part && '.' !in part && '%' !in part && part != ""
  {
  }

  lemma {:induction false} PartReads(parts: seq<string>)
    requires AreHex(parts)
    ensures ParsePart(Join(parts, ':')) == Some(Values(parts))
    ensures NoDouble(Join(parts, ':'))
    ensures Join(parts, ':') != "" ==> Join(parts, ':')[|Join(parts, ':')| - 1] != ':'
  {
    forall i | 0 <= i < |parts| ensures parts[i] != "" && ':' !in parts[i] { HexIsPlain(parts[i]); }
    JoinIsPlain(parts);
    if parts != [] {
      SplitJoin(parts, ':');
      GroupsRead(parts);
    }
  }

  lemma {:induction false} PlainTextReads(head: seq<string>)
    requires AreHex(head) && |head| == 8
    ensures ParseHexText(Join(head, ':')) == Some(Values(head))
  {
    PartReads(head);
    SplitDoublePlain(Join(head, ':'));
  }

  lemma {:induction false} GappedTextReads(head: seq<string>, rest: seq<string>)
    requires AreHex(head) && AreHex(rest) && |head| + |rest| <= 7
    ensures ParseHexText(Join(head, ':') + "::" + Join(rest, ':')) == FromHalves(Values(head), Some(Values(rest)))
  {
    var a, b := Join(head, ':'), Join(rest, ':');
    PartReads(head);
    PartReads(rest);
    SplitDoubleOnce(a, b);
    HalvesRead(a + "::" + b, a, b);
  }

  lemma {:induction false} HalvesRead(text: string, a: string, b: string)
    requires SplitDouble(text) == [a, b] && ParsePart(a).Some? && ParsePart(b).Some?
    ensures ParseHexText(text) == FromHalves(ParsePart(a).value, Some(ParsePart(b).value))
  {
  }

  // ---- the dotted tail ----

  lemma {:induction false} AfterLastAt(prefix: string, tail: string, c: char)
    requires c !in tail && (prefix == "" || prefix[|prefix| - 1] == c)
    ensures AfterLast(prefix + tail, c) == |prefix|
    decreases |tail|
  {
    var t := prefix + tail;
    if tail == "" {
      assert t == prefix;
    } else {
      assert t[..|t| - 1] == prefix + tail[..|tail| - 1];
      AfterLastAt(prefix, tail[..|tail| - 1], c);
    }
  }

  lemma {:induction false} JoinSnoc(parts: seq<string>, last: string, c: char)
    ensures Join(parts + [last], c) == (if parts == [] then "" else Join(parts, c) + [c]) + last
  {
    if parts == [] {
      assert [] + [last] == [last];
    } else {
      assert (parts + [last])[1..] == parts[1..] + [last];
      JoinSnoc(parts[1..], last, c);
    }
  }

  /** What stands before the last written part. */
  function Prefix(head: seq<string>, rest: Option<seq<string>>): string {
    if rest.Some? then Join(head, ':') + "::" + (if rest.value == [] then "" else Join(rest.value, ':') + ":")
    else if head == [] then "" else Join(head, ':') + ":"
  }

  function Extended(head: seq<string>, rest: Option<seq<string>>, more: seq<string>): string {
    if rest.Some? then Written(head, Some(rest.value + more)) else Written(head + more, None)
  }

  lemma ExtendedByOne(head: seq<string>, rest: Option<seq<string>>, last: string)
    ensures Extended(head, rest, [last]) == Prefix(head, rest) + last
  {
    if rest.Some? { JoinSnoc(rest.value, last, ':'); } else { JoinSnoc(head, last, ':'); }
  }

  lemma ExtendedByTwo(head: seq<string>, rest: Option<seq<string>>, a: string, b: string)
    ensures Extended(head, rest, [a, b]) == Prefix(head, rest) + a + ":" + b
  {
    if rest.Some? {
      assert rest.value + [a, b] == (rest.value + [a]) + [b];
      JoinSnoc(rest.value + [a], b, ':');
      JoinSnoc(rest.value, a, ':');
    } else {
      assert head + [a, b] == (head + [a]) + [b];
      JoinSnoc(head + [a], b, ':');
      JoinSnoc(head, a, ':');
    }
  }

  lemma {:induction false} JoinAvoids(parts: seq<string>, sep: char, c: char)
    requires sep != c && forall i :: 0 <= i < |parts| ==> c !in parts[i]
    ensures c !in Join(parts, sep)
  {
    if |parts| > 1 {
      JoinAvoids(parts[1..], sep, c);
    }
  }

  lemma {:induction false} QuadIsIpv4(o: seq<string>)
    requires AreOctets(o)
    ensures var q := Join(o, '.'); IsIpv4(q) && Split(q, '.') == o && '.' in q && ':' !in q && '%' !in q
  {
    SplitJoin(o, '.');
    if '.' !in Join(o, '.') { SplitPlain(Join(o, '.'), '.'); }
    JoinAvoids(o, '.', ':');
    JoinAvoids(o, '.', '%');
  }

  lemma PrefixEnds(head: seq<string>, rest: Option<seq<string>>)
    ensures var p := Prefix(head, rest); p == "" || p[|p| - 1] == ':'
  {
  }

  lemma TailSplits(prefix: string, q: string)
    requires (prefix == "" || prefix[|prefix| - 1] == ':') && ':' !in q
    ensures var t := prefix + q; AfterLast(t, ':') == |prefix| && t[|prefix|..] == q && t[..|prefix|] == prefix
  {
    AfterLastAt(prefix, q, ':');
  }

  lemma {:induction false} DottedTail(text: string, prefix: string, q: string, o: seq<string>)
    requires AfterLast(text, ':') == |prefix| <= |text| && text[|prefix|..] == q && text[..|prefix|] == prefix
    requires AreOctets(o) && IsIpv4(q) && Split(q, '.') == o && '.' in q
    ensures WithoutDots(text) == Some(prefix + TextOf(QuadValues(o)[0], 16) + ":" + TextOf(QuadValues(o)[1], 16))
  {
  }

  lemma {:induction false} QuadBecomesHex(head: seq<string>, rest: Option<seq<string>>, o: seq<string>)
    requires AreOctets(o)
    ensures WithoutDots(Extended(head, rest, [Join(o, '.')])) ==
            Some(Extended(head, rest, [TextOf(QuadValues(o)[0], 16), TextOf(QuadValues(o)[1], 16)]))
  {
    var high, low := TextOf(QuadValues(o)[0], 16), TextOf(QuadValues(o)[1], 16);
    QuadIsIpv4(o);
    PrefixEnds(head, rest);
    TailSplits(Prefix(head, rest), Join(o, '.'));
    DottedTail(Prefix(head, rest) + Join(o, '.'), Prefix(head, rest), Join(o, '.'), o);
    ExtendedByOne(head, rest, Join(o, '.'));
    ExtendedByTwo(head, rest, high, low);
  }

  lemma WrittenAvoids(head: seq<string>, rest: Option<seq<string>>, c: char)
    requires c != ':' && (forall i :: 0 <= i < |head| ==> c !in head[i])
    requires rest.Some? ==> forall i :: 0 <= i < |rest.value| ==> c !in rest.value[i]
    ensures c !in Written(head, rest)
  {
    JoinAvoids(head, ':', c);
    if rest.Some? { JoinAvoids(rest.value, ':', c); }
  }

  lemma HexAvoids(parts: seq<string>, c: char)
    requires AreHex(parts) && c in ".%"
    ensures forall i :: 0 <= i < |parts| ==> c !in parts[i]
  {
    forall i | 0 <= i < |parts| ensures c !in parts[i] { HexIsPlain(parts[i]); }
  }

  /** The text without its zone. */
  function Body(sp: Spelling): string {
    Extended(sp.head, sp.rest, if sp.quad.Some? then [Join(sp.quad.value, '.')] else [])
  }

  lemma BodyAvoids(sp: Spelling, g: seq<nat>)
    requires Spells(sp, g)
    ensures '%' !in Body(sp)
  {
    HexAvoids(sp.head, '%');
    if sp.rest.Some? { HexAvoids(sp.rest.value, '%'); }
    if sp.quad.Some? { QuadIsIpv4(sp.quad.value); }
    var more := if sp.quad.Some? then [Join(sp.quad.value, '.')] else [];
    if sp.rest.Some? { WrittenAvoids(sp.head, Some(sp.rest.value + more), '%'); } else { WrittenAvoids(sp.head + more, None, '%'); }
  }

  lemma TextIsBodyAndZone(sp: Spelling)
    ensures Text(sp) == Body(sp) + if sp.zone.Some? then "%" + sp.zone.value else ""
  {
    assert sp.head + [] == sp.head && (sp.rest.Some? ==> sp.rest.value + [] == sp.rest.value);
  }

  lemma ZoneIsDropped(sp: Spelling, g: seq<nat>)
    requires Spells(sp, g)
    ensures Split(Text(sp), '%')[0] == Body(sp)
  {
    BodyAvoids(sp, g);
    TextIsBodyAndZone(sp);
    if sp.zone.Some? {
      assert Text(sp) == Body(sp) + "%" + sp.zone.value;
      SplitFirst(Body(sp), '%', sp.zone.value);
    } else {
      assert Text(sp) == Body(sp);
      SplitPlain(Body(sp), '%');
    }
  }

  lemma {:induction false} ValuesAppend(a: seq<string>, b: seq<string>)
    requires AreHex(a) && AreHex(b)
    ensures AreHex(a + b) && Values(a + b) == Values(a) + Values(b)
  {
  }

  lemma QuadGroups(o: seq<string>)
    requires AreOctets(o)
    ensures QuadValues(o)[0] < 65536 && QuadValues(o)[1] < 65536
    ensures AreHex([TextOf(QuadValues(o)[0], 16), TextOf(QuadValues(o)[1], 16)])
    ensures Values([TextOf(QuadValues(o)[0], 16), TextOf(QuadValues(o)[1], 16)]) == QuadValues(o)
  {
    var v := QuadValues(o);
    HexIsShort(v[0]);
    HexIsShort(v[1]);
    TextOfRoundTrips(v[0], 16);
    TextOfRoundTrips(v[1], 16);
  }

  /** Every legal spelling of eight groups parses back to those groups. */
  lemma SpellingParses(sp: Spelling, g: seq<nat>)
    requires Spells(sp, g)
    ensures Ipv6Groups(Text(sp)) == Some(g)
  {
    ZoneIsDropped(sp, g);
    var more := if sp.quad.Some? then [TextOf(QuadValues(sp.quad.value)[0], 16), TextOf(QuadValues(sp.quad.value)[1], 16)] else [];
    BodyIsExtended(sp, g, more);
    GroupsOfBody(Text(sp), Body(sp), Extended(sp.head, sp.rest, more));
    SpellingValues(sp, g, more);
  }

  lemma {:induction false} GroupsOfBody(text: string, body: string, hex: string)
    requires Split(text, '%')[0] == body && WithoutDots(body) == Some(hex)
    ensures Ipv6Groups(text) == ParseHexText(hex)
  {
  }

  lemma {:induction false} SpellingValues(sp: Spelling, g: seq<nat>, more: seq<string>)
    requires Spells(sp, g) && AreHex(more) && Values(more) == QuadOf(sp)
    ensures ParseHexText(Extended(sp.head, sp.rest, more)) == Some(g)
  {
    FilledParses(sp.head, sp.rest, more, QuadOf(sp), g);
  }

  lemma {:induction false} FilledParses(head: seq<string>, rest: Option<seq<string>>, more: seq<string>, quad: seq<nat>, g: seq<nat>)
    requires AreHex(head) && (rest.Some? ==> AreHex(rest.value)) && AreHex(more) && Values(more) == quad
    requires Fills(Values(head), if rest.Some? then Some(Values(rest.value)) else None, quad, g)
    ensures ParseHexText(Extended(head, rest, more)) == Some(g)
  {
    ExtendedReads(head, rest, more);
    if rest.Some? { GappedFill(Values(head), Values(rest.value), quad, g); } else { PlainFill(Values(head), quad, g); }
  }

  lemma GappedFill(head: seq<nat>, rest: seq<nat>, quad: seq<nat>, g: seq<nat>)
    requires Fills(head, Some(rest), quad, g)
    ensures FromHalves(head, Some(rest + quad)) == Some(g)
  {
    HalvesMakeGroups(head, rest, quad, g);
  }

  lemma PlainFill(head: seq<nat>, quad: seq<nat>, g: seq<nat>)
    requires Fills(head, None, quad, g)
    ensures FromHalves(head + quad, None) == Some(g)
  {
    HalvesMakeGroups(head, [], quad, g);
  }

  lemma {:induction false} BodyIsExtended(sp: Spelling, g: seq<nat>, more: seq<string>)
    requires Spells(sp, g)
    requires more == if sp.quad.Some? then [TextOf(QuadValues(sp.quad.value)[0], 16), TextOf(QuadValues(sp.quad.value)[1], 16)] else []
    ensures WithoutDots(Body(sp)) == Some(Extended(sp.head, sp.rest, more))
    ensures AreHex(more) && Values(more) == QuadOf(sp)
  {
    if sp.quad.Some? {
      QuadBecomesHex(sp.head, sp.rest, sp.quad.value);
      QuadGroups(sp.quad.value);
    } else {
      DotlessStays(sp, g);
    }
  }

  lemma {:induction false} ExtendedReads(head: seq<string>, rest: Option<seq<string>>, more: seq<string>)
    requires AreHex(head) && (rest.Some? ==> AreHex(rest.value)) && AreHex(more)
    requires rest.Some? ==> |head| + |rest.value| + |more| <= 7
    requires rest.None? ==> |head| + |more| == 8
    ensures ParseHexText(Extended(head, rest, more)) ==
            FromHalves(if rest.Some? then Values(head) else Values(head) + Values(more),
                       if rest.Some? then Some(Values(rest.value) + Values(more)) else None)
  {
    if rest.Some? {
      ValuesAppend(rest.value, more);
      GappedTextReads(head, rest.value + more);
    } else {
      ValuesAppend(head, more);
      PlainTextReads(head + more);
    }
  }

  /** The written values and the gap between them make up the eight groups. */
  lemma HalvesMakeGroups(head: seq<nat>, rest: seq<nat>, quad: seq<nat>, g: seq<nat>)
    requires |head| + |rest| + |quad| <= 8 && g == head + Zeros(8 - |head| - |rest| - |quad|) + rest + quad
    ensures |head| + |rest| + |quad| <= 7 ==> FromHalves(head, Some(rest + quad)) == Some(g)
    ensures |head| + |quad| == 8 ==> FromHalves(head + quad, None) == Some(g)
  {
    assert head + Zeros(8 - |head| - |rest| - |quad|) + rest + quad == head + Zeros(8 - |head| - |rest + quad|) + (rest + quad);
    if |head| + |quad| == 8 { assert rest == [] && g == head + quad; }
  }

  lemma DotlessStays(sp: Spelling, g: seq<nat>)
    requires Spells(sp, g) && sp.quad.None?
    ensures WithoutDots(Body(sp)) == Some(Body(sp))
  {
    HexAvoids(sp.head, '.');
    if sp.rest.Some? { HexAvoids(sp.rest.value, '.'); }
    assert sp.head + [] == sp.head && (sp.rest.Some? ==> sp.rest.value + [] == sp.rest.value);
    WrittenAvoids(sp.head, sp.rest, '.');
  }

  // ---- keys ----

  /** Two addresses share a key exactly when both are mapped from one IPv4 address, or neither is and they share a `/64`. */
  lemma KeysAgree(g: seq<nat>, h: seq<nat>)
    requires AreGroups(g) && AreGroups(h)
    ensures KeyOf(g) == KeyOf(h) <==>
            if Mapped(g) then Mapped(h) && g[6..] == h[6..] else !Mapped(h) && g[..4] == h[..4]
  {
    if Mapped(g) && Mapped(h) {
      QuadDetermines(g[6], g[7], h[6], h[7]);
      assert g[6..] == [g[6], g[7]] && h[6..] == [h[6], h[7]];
    } else if !Mapped(g) && !Mapped(h) {
      PrefixDetermines(g, h);
    } else if Mapped(g) {
      MixedKeysDiffer(g, h);
    } else {
      MixedKeysDiffer(h, g);
    }
  }

  lemma MixedKeysDiffer(g: seq<nat>, h: seq<nat>)
    requires |g| == |h| == 8 && Mapped(g) && !Mapped(h)
    ensures KeyOf(g) != KeyOf(h)
  {
    QuadHasNoSlash(g[6], g[7]);
    assert KeyOf(h)[|KeyOf(h)| - 3] == '/';
  }

  function QuadParts(high: nat, low: nat): seq<string> {
    [TextOf(high / 256, 10), TextOf(high % 256, 10), TextOf(low / 256, 10), TextOf(low % 256, 10)]
  }

  lemma QuadHasNoSlash(high: nat, low: nat)
    ensures '/' !in Quad(high, low)
  {
    JoinAvoids(QuadParts(high, low), '.', '/');
  }

  lemma PartsDetermine(a: nat, b: nat, c: nat, d: nat, s: seq<string>)
    requires s == QuadParts(a, b) == QuadParts(c, d)
    ensures a == c && b == d
  {
    SamePair(a, c, s[0], s[1], s[0], s[1]);
    SamePair(b, d, s[2], s[3], s[2], s[3]);
  }

  lemma QuadHasParts(a: nat, b: nat)
    ensures forall i :: 0 <= i < 4 ==> '.' !in QuadParts(a, b)[i]
  {
  }

  lemma QuadDetermines(a: nat, b: nat, c: nat, d: nat)
    ensures Quad(a, b) == Quad(c, d) <==> a == c && b == d
  {
    if Quad(a, b) == Quad(c, d) {
      QuadHasParts(a, b);
      QuadHasParts(c, d);
      JoinDetermines(QuadParts(a, b), QuadParts(c, d), '.');
      PartsDetermine(a, b, c, d, QuadParts(a, b));
    }
  }

  lemma {:induction false} SamePair(x: nat, y: nat, s: string, t: string, u: string, v: string)
    requires s == TextOf(x / 256, 10) && t == TextOf(x % 256, 10) && u == TextOf(y / 256, 10) && v == TextOf(y % 256, 10)
    requires s == u && t == v
    ensures x == y
  {
    SameNumeral(x / 256, y / 256, 10, s, u);
    SameNumeral(x % 256, y % 256, 10, t, v);
  }

  lemma {:induction false} SameNumeral(x: nat, y: nat, radix: Radix, s: string, t: string)
    requires s == t == TextOf(x, radix) && t == TextOf(y, radix)
    ensures x == y
  {
    TextOfRoundTrips(x, radix);
    TextOfRoundTrips(y, radix);
  }

  function PrefixParts(g: seq<nat>): seq<string>
    requires |g| == 8
  {
    [TextOf(g[0], 16), TextOf(g[1], 16), TextOf(g[2], 16), TextOf(g[3], 16)]
  }

  lemma PrefixDetermines(g: seq<nat>, h: seq<nat>)
    requires |g| == |h| == 8
    ensures Join(PrefixParts(g), ':') + "::/64" == Join(PrefixParts(h), ':') + "::/64" <==> g[..4] == h[..4]
  {
    var a, b := Join(PrefixParts(g), ':'), Join(PrefixParts(h), ':');
    if a + "::/64" == b + "::/64" {
      assert |a| == |b| && a == (a + "::/64")[..|a|] == b;
      JoinDetermines(PrefixParts(g), PrefixParts(h), ':');
      SamePrefix(g, h);
    } else if g[..4] == h[..4] {
      forall i | 0 <= i < 4 ensures g[i] == h[i] { assert g[i] == g[..4][i]; }
    }
  }

  lemma SamePrefix(g: seq<nat>, h: seq<nat>)
    requires |g| == |h| == 8 && PrefixParts(g) == PrefixParts(h)
    ensures g[..4] == h[..4]
  {
    SameNumeral(g[0], h[0], 16, PrefixParts(g)[0], PrefixParts(h)[0]);
    SameNumeral(g[1], h[1], 16, PrefixParts(g)[1], PrefixParts(h)[1]);
    SameNumeral(g[2], h[2], 16, PrefixParts(g)[2], PrefixParts(h)[2]);
    SameNumeral(g[3], h[3], 16, PrefixParts(g)[3], PrefixParts(h)[3]);
  }

  /** The addresses of any two spellings are throttled together exactly when `KeysAgree` says so. */
  lemma SpellingsShareKey(isIpv6: string -> bool, a: Spelling, g: seq<nat>, b: Spelling, h: seq<nat>)
    requires Spells(a, g) && Spells(b, h) && AreGroups(g) && AreGroups(h) && isIpv6(Text(a)) && isIpv6(Text(b))
    ensures ThrottleKeyForIp(isIpv6, Text(a)) == ThrottleKeyForIp(isIpv6, Text(b)) <==>
            if Mapped(g) then Mapped(h) && g[6..] == h[6..] else !Mapped(h) && g[..4] == h[..4]
  {
    SpellingParses(a, g);
    SpellingParses(b, h);
    KeysAgree(g, h);
  }

  /** A mapped address is throttled under its IPv4 address as an IPv4 client would write it. */
  lemma {:induction false} MappedSharesWithIpv4(isIpv6: string -> bool, sp: Spelling, g: seq<nat>, o: seq<string>)
    requires Spells(sp, g) && AreGroups(g) && Mapped(g) && isIpv6(Text(sp))
    requires AreOctets(o) && QuadValues(o) == g[6..] && !isIpv6(Join(o, '.'))
    ensures ThrottleKeyForIp(isIpv6, Text(sp)) == ThrottleKeyForIp(isIpv6, Join(o, '.'))
  {
    SpellingParses(sp, g);
    assert g[6..][0] == g[6] && g[6..][1] == g[7];
    QuadIsCanonical(o);
  }

  lemma Octets(a: nat, b: nat)
    requires b < 256
    ensures (a * 256 + b) / 256 == a && (a * 256 + b) % 256 == b
  {
  }

  /** The text of an octet read from text, one digit list at a time. */
  lemma {:induction false} SameText(n: nat, m: nat, s: string)
    requires n == m && TextOf(m, 10) == s
    ensures TextOf(n, 10) == s
  {
  }

  lemma {:induction false} QuadOfParts(o: seq<string>, high: nat, low: nat)
    requires |o| == 4 && TextOf(high / 256, 10) == o[0] && TextOf(high % 256, 10) == o[1]
    requires TextOf(low / 256, 10) == o[2] && TextOf(low % 256, 10) == o[3]
    ensures Quad(high, low) == Join(o, '.')
  {
    assert [TextOf(high / 256, 10), TextOf(high % 256, 10), TextOf(low / 256, 10), TextOf(low % 256, 10)] == o;
  }

  lemma {:induction false} OctetText(s: string)
    requires IsOctet(s)
    ensures TextOf(ValueOf(s, 10), 10) == s && ValueOf(s, 10) < 256
  {
    NumeralIsCanonical(s);
  }

  lemma {:induction false} OctetPairText(a: string, b: string, n: nat)
    requires IsOctet(a) && IsOctet(b) && n == ValueOf(a, 10) * 256 + ValueOf(b, 10)
    ensures TextOf(n / 256, 10) == a && TextOf(n % 256, 10) == b
  {
    OctetText(a);
    OctetText(b);
    var x, y := ValueOf(a, 10), ValueOf(b, 10);
    Octets(x, y);
    SameText(n / 256, x, a);
    SameText(n % 256, y, b);
  }

  lemma {:induction false} QuadIsCanonical(o: seq<string>)
    requires AreOctets(o)
    ensures Quad(QuadValues(o)[0], QuadValues(o)[1]) == Join(o, '.')
  {
    OctetPairText(o[0], o[1], QuadValues(o)[0]);
    OctetPairText(o[2], o[3], QuadValues(o)[1]);
    QuadOfParts(o, QuadValues(o)[0], QuadValues(o)[1]);
  }

  lemma {:induction false} NumeralIsCanonical(s: string)
    requires s != "" && (forall i :: 0 <= i < |s| ==> '0' <= s[i] <= '9') && (|s| > 1 ==> s[0] != '0')
    ensures TextOf(ValueOf(s, 10), 10) == s && (s[0] != '0' ==> ValueOf(s, 10) >= 1)
  {
    var front, last := s[..|s| - 1], s[|s| - 1];
    assert s == front + [last] && CharOf(DigitOf(last).value) == last;
    if front != "" {
      NumeralIsCanonical(front);
      var v, d := ValueOf(front, 10), DigitOf(last).value;
      assert (v * 10 + d) / 10 == v && (v * 10 + d) % 10 == d;
    } else {
      assert ValueOf(front, 10) == 0;
    }
  }
}
