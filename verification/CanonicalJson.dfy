/** Canonical JSON: the text is a function of the value up to object key order, and determines it. */
module CanonicalJson {
  import opened Ordering
  import opened JsonText

  /** Own enumerable properties in the order the object lists them. */
  datatype Entry = Entry(key: Text, value: Json)

  /**
   * A JavaScript value; a finite number is given by the text `JSON.stringify` writes for it, and
   * `Unserializable` is a non-finite number, `undefined`, a function, a symbol or a bigint.
   */
  datatype Json =
    | Null
    | Bool(b: bool)
    | Num(text: Text)
    | Str(s: Text)
    | Arr(items: seq<Json>)
    | Obj(entries: seq<Entry>)
    | Unserializable

  // ---- printing ----

  function Print(v: Json): Text {
    match v
    case Null => [110, 117, 108, 108]
    case Bool(b) => if b then [116, 114, 117, 101] else [102, 97, 108, 115, 101]
    case Num(text) => text
    case Str(s) => Quoted(s)
    case Arr(items) => [91] + PrintItems(items) + [93]
    case Obj(entries) => [123] + PrintEntries(entries) + [125]
    case Unserializable => []
  }

  function PrintItems(items: seq<Json>): Text {
    if items == [] then [] else if |items| == 1 then Print(items[0]) else Print(items[0]) + [44] + PrintItems(items[1..])
  }

  function PrintEntry(e: Entry): Text {
    Quoted(e.key) + [58] + Print(e.value)
  }

  function PrintEntries(entries: seq<Entry>): Text {
    if entries == [] then [] else if |entries| == 1 then PrintEntry(entries[0]) else PrintEntry(entries[0]) + [44] + PrintEntries(entries[1..])
  }

  // ---- canonical form ----

  function Insert(e: Entry, sorted: seq<Entry>): seq<Entry> {
    if sorted == [] then [e]
    else if Less(sorted[0].key, e.key) then [sorted[0]] + Insert(e, sorted[1..])
    else [e] + sorted
  }

  function Sort(entries: seq<Entry>): seq<Entry> {
    if entries == [] then [] else Insert(entries[0], Sort(entries[1..]))
  }

  function Norm(v: Json): Json {
    match v
    case Arr(items) => Arr(NormItems(items))
    case Obj(entries) => Obj(Sort(NormEntries(entries)))
    case _ => v
  }

  function NormItems(items: seq<Json>): (r: seq<Json>)
    ensures |r| == |items| && forall i :: 0 <= i < |r| ==> r[i] == Norm(items[i])
  {
    if items == [] then [] else [Norm(items[0])] + NormItems(items[1..])
  }

  function NormEntries(entries: seq<Entry>): (r: seq<Entry>)
    ensures |r| == |entries| && forall i :: 0 <= i < |r| ==> r[i] == Entry(entries[i].key, Norm(entries[i].value))
  {
    if entries == [] then [] else [Entry(entries[0].key, Norm(entries[0].value))] + NormEntries(entries[1..])
  }

  predicate Serializable(v: Json) {
    match v
    case Unserializable => false
    case Arr(items) => forall i :: 0 <= i < |items| ==> Serializable(items[i])
    case Obj(entries) => forall i :: 0 <= i < |entries| ==> Serializable(entries[i].value)
    case _ => true
  }

  /** `canonicalizeJson`; `None` is its throw. */
  function Canonicalize(v: Json): Option<Text> {
    if Serializable(v) then Some(Print(Norm(v))) else None
  }

  // ---- values ----

  predicate NumUnit(u: Unit) {
    48 <= u < 58 || u == 45 || u == 43 || u == 46 || u == 101
  }

  predicate NumberText(t: Text) {
    t != [] && forall i :: 0 <= i < |t| ==> NumUnit(t[i])
  }

  predicate KeysDistinct(entries: seq<Entry>) {
    forall i, j :: 0 <= i < j < |entries| ==> entries[i].key != entries[j].key
  }

  /** A serializable value as JavaScript can hold it: no object repeats a key. */
  predicate Valid(v: Json) {
    match v
    case Num(text) => NumberText(text)
    case Arr(items) => forall i :: 0 <= i < |items| ==> Valid(items[i])
    case Obj(entries) => KeysDistinct(entries) && forall i :: 0 <= i < |entries| ==> Valid(entries[i].value)
    case Unserializable => false
    case _ => true
  }

  /** Equal up to the order of object keys. */
  ghost predicate Equiv(a: Json, b: Json) {
    match a
    case Arr(x) => b.Arr? && |x| == |b.items| && forall i :: 0 <= i < |x| ==> Equiv(x[i], b.items[i])
    case Obj(x) =>
      && b.Obj? && |x| == |b.entries|
      && forall i :: 0 <= i < |x| ==>
           exists j :: 0 <= j < |b.entries| && x[i].key == b.entries[j].key && Equiv(x[i].value, b.entries[j].value)
    case _ => a == b
  }

  // ---- parsing ----

  function NumPrefix(t: Text): (n: nat)
    ensures n <= |t| && (forall i :: 0 <= i < n ==> NumUnit(t[i])) && (n < |t| ==> !NumUnit(t[n]))
  {
    if t != [] && NumUnit(t[0]) then 1 + NumPrefix(t[1..]) else 0
  }

  function After(v: Json, word: Text, t: Text): (r: Option<(Json, Text)>)
    requires word != []
    ensures r.Some? ==> |r.value.1| < |t|
  {
    if word <= t then Some((v, t[|word|..])) else None
  }

  /** Reads one value off the front of `t`. */
  function Parse(t: Text): (r: Option<(Json, Text)>)
    ensures r.Some? ==> |r.value.1| < |t|
    decreases |t|, 0
  {
    if t == [] then None
    else if t[0] == 110 then After(Null, [110, 117, 108, 108], t)
    else if t[0] == 116 then After(Bool(true), [116, 114, 117, 101], t)
    else if t[0] == 102 then After(Bool(false), [102, 97, 108, 115, 101], t)
    else if t[0] == QUOTE then
      var s := ReadString(t[1..]);
      if s.None? then None else Some((Str(s.value.0), s.value.1))
    else if t[0] == 91 then
      if |t| > 1 && t[1] == 93 then Some((Arr([]), t[2..]))
      else var r := ParseItems(t[1..]); if r.None? then None else Some((Arr(r.value.0), r.value.1))
    else if t[0] == 123 then
      if |t| > 1 && t[1] == 125 then Some((Obj([]), t[2..]))
      else var r := ParseEntries(t[1..]); if r.None? then None else Some((Obj(r.value.0), r.value.1))
    else
      var n := NumPrefix(t);
      if n == 0 then None else Some((Num(t[..n]), t[n..]))
  }

  function ParseItems(t: Text): (r: Option<(seq<Json>, Text)>)
    ensures r.Some? ==> |r.value.1| < |t|
    decreases |t|, 1
  {
    var first := Parse(t);
    if first.None? || first.value.1 == [] then None
    else if first.value.1[0] == 93 then Some(([first.value.0], first.value.1[1..]))
    else if first.value.1[0] != 44 then None
    else
      var more := ParseItems(first.value.1[1..]);
      if more.None? then None else Some(([first.value.0] + more.value.0, more.value.1))
  }

  function ParseEntry(t: Text): (r: Option<(Entry, Text)>)
    ensures r.Some? ==> |r.value.1| < |t|
    decreases |t|, 1
  {
    if t == [] || t[0] != QUOTE then None
    else
      var key := ReadString(t[1..]);
      if key.None? || key.value.1 == [] || key.value.1[0] != 58 then None
      else
        var value := Parse(key.value.1[1..]);
        if value.None? then None else Some((Entry(key.value.0, value.value.0), value.value.1))
  }

  function ParseEntries(t: Text): (r: Option<(seq<Entry>, Text)>)
    ensures r.Some? ==> |r.value.1| < |t|
    decreases |t|, 2
  {
    var first := ParseEntry(t);
    if first.None? || first.value.1 == [] then None
    else if first.value.1[0] == 125 then Some(([first.value.0], first.value.1[1..]))
    else if first.value.1[0] != 44 then None
    else
      var more := ParseEntries(first.value.1[1..]);
      if more.None? then None else Some(([first.value.0] + more.value.0, more.value.1))
  }
}
