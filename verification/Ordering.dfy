/** Small shared vocabulary: optional values, strictly rising id sequences, ascending enumeration of a set. */
module Ordering {

  datatype Option<+T> = None | Some(value: T)

  predicate Rising(s: seq<nat>) {
    forall i, j :: 0 <= i < j < |s| ==> s[i] < s[j]
  }

  function LastOr(s: seq<nat>, default: nat): nat {
    if s == [] then default else s[|s| - 1]
  }

  predicate IsLeast(s: set<nat>, m: nat) {
    m in s && forall x :: x in s ==> m <= x
  }

  lemma LeastGrows(rest: set<nat>, m: nat, y: nat)
    requires IsLeast(rest, m) && y !in rest
    ensures IsLeast(rest + {y}, if m < y then m else y)
  {
  }

  /** A non-empty set of naturals has a least element. */
  lemma LeastOf(s: set<nat>) returns (m: nat)
    requires s != {}
    ensures IsLeast(s, m)
  {
    var y :| y in s;
    if s == {y} {
      m := y;
    } else {
      var least := LeastOf(s - {y});
      LeastGrows(s - {y}, least, y);
      assert s - {y} + {y} == s;
      m := if least < y then least else y;
    }
  }

  lemma LeastExists(s: set<nat>)
    requires s != {}
    ensures exists m :: IsLeast(s, m)
  {
    var m := LeastOf(s);
  }

  function Least(s: set<nat>): (m: nat)
    requires s != {}
    ensures IsLeast(s, m)
  {
    LeastExists(s);
    var m :| IsLeast(s, m);
    m
  }

  /** The elements of a set in ascending order, as `[...queuedEventIds].sort(...)` lists them. */
  function Ascending(s: set<nat>): (r: seq<nat>)
    ensures Rising(r)
    ensures forall x :: x in r <==> x in s
    decreases |s|
  {
    if s == {} then []
    else
      var m := Least(s);
      var rest := Ascending(s - {m});
      assert forall x :: x in s <==> x == m || x in s - {m};
      assert forall i :: 0 <= i < |rest| ==> rest[i] in s - {m};
      [m] + rest
  }

  lemma AppendRises(s: seq<nat>, e: nat)
    requires Rising(s)
    requires s == [] || s[|s| - 1] < e
    ensures Rising(s + [e])
  {
  }

  // ---- sequences ----

  lemma Reassociate<T>(a: seq<T>, b: seq<T>, c: seq<T>)
    ensures (a + b) + c == a + (b + c)
  {
  }

  lemma DropOne<T>(s: seq<T>, i: nat)
    requires i < |s|
    ensures s[i..] == [s[i]] + s[i + 1..] && s[i..][1..] == s[i + 1..] && s[i..][0] == s[i]
  {
  }

  lemma Around<T>(s: seq<T>, i: nat, x: T)
    requires i < |s|
    ensures s == s[..i] + ([s[i]] + s[i + 1..]) && s[i := x] == s[..i] + ([x] + s[i + 1..])
  {
  }
}
