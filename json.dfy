/**
 * JSON values (RFC 8259) as the configuration documents carry them.
 * An object is an ordered sequence of members, as a Python dict keeps
 * insertion order; numbers are opaque leaves kept as their text.
 */
module JsonValue {
  import opened Wrappers

  datatype Json =
    | JNull
    | JBool(b: bool)
    | JNum(repr: string)
    | JStr(s: string)
    | JArr(items: seq<Json>)
    | JObj(members: seq<Member>)

  type Member = (string, Json)

  /** The keys of an object's members, in order. */
  function KeySeq(m: seq<Member>): (ks: seq<string>)
    ensures |ks| == |m|
    ensures forall i :: 0 <= i < |m| ==> ks[i] == m[i].0
  {
    if m == [] then [] else [m[0].0] + KeySeq(m[1..])
  }

  /** The value of the first member named `k`, as a dict lookup finds it. */
  function Lookup(m: seq<Member>, k: string): (r: Option<Json>)
    ensures r.None? <==> k !in KeySeq(m)
  {
    if m == [] then None
    else if m[0].0 == k then Some(m[0].1)
    else Lookup(m[1..], k)
  }

  /** No key occurs twice: what a Python dict guarantees of its keys. */
  predicate UniqueKeys(m: seq<Member>) {
    forall i, j :: 0 <= i < j < |m| ==> m[i].0 != m[j].0
  }

  /** Every object in the document, at any depth, has unique keys. */
  predicate WellFormed(j: Json) {
    match j
    case JArr(items) => forall i :: 0 <= i < |items| ==> WellFormed(items[i])
    case JObj(m) => UniqueKeys(m) && forall i :: 0 <= i < |m| ==> WellFormed(m[i].1)
    case _ => true
  }

  /** The value reached by following the object keys of `path` from `j`. */
  function Get(j: Json, path: seq<string>): Option<Json>
    decreases |path|
  {
    if path == [] then Some(j)
    else if !j.JObj? then None
    else match Lookup(j.members, path[0])
      case None => None
      case Some(v) => Get(v, path[1..])
  }

  /** Descending one key into an object. */
  lemma GetCons(m: seq<Member>, k: string, rest: seq<string>)
    ensures Get(JObj(m), [k] + rest) ==
      match Lookup(m, k)
      case None => None
      case Some(v) => Get(v, rest)
  {
    assert ([k] + rest)[1..] == rest;
  }

  /** A value found by lookup is the value of one of the members. */
  lemma {:induction false} LookupFound(m: seq<Member>, k: string)
    requires Lookup(m, k).Some?
    ensures exists i :: 0 <= i < |m| && m[i] == (k, Lookup(m, k).value)
  {
    if m[0].0 != k {
      LookupFound(m[1..], k);
      var i :| 0 <= i < |m[1..]| && m[1..][i] == (k, Lookup(m[1..], k).value);
      assert m[i + 1] == m[1..][i];
    }
  }

  /** In an object with unique keys, looking up a member's key finds that member. */
  lemma {:induction false} LookupUnique(m: seq<Member>, i: nat)
    requires UniqueKeys(m) && i < |m|
    ensures Lookup(m, m[i].0) == Some(m[i].1)
  {
    if i > 0 {
      assert UniqueKeys(m[1..]) by {
        forall a, b | 0 <= a < b < |m[1..]| ensures m[1..][a].0 != m[1..][b].0 {
          assert m[1..][a] == m[a + 1] && m[1..][b] == m[b + 1];
        }
      }
      LookupUnique(m[1..], i - 1);
      assert m[0].0 != m[i].0;
    }
  }

  /** Lookup in a concatenation looks in the first part, then in the second. */
  lemma {:induction false} LookupAppend(a: seq<Member>, b: seq<Member>, k: string)
    ensures Lookup(a + b, k) == if k in KeySeq(a) then Lookup(a, k) else Lookup(b, k)
  {
    if a == [] {
      assert a + b == b;
    } else if a[0].0 == k {
      assert (a + b)[0] == a[0];
    } else {
      assert (a + b)[1..] == a[1..] + b;
      assert KeySeq(a) == [a[0].0] + KeySeq(a[1..]);
      LookupAppend(a[1..], b, k);
    }
  }

  lemma KeySeqAppend(a: seq<Member>, b: seq<Member>)
    ensures KeySeq(a + b) == KeySeq(a) + KeySeq(b)
  {
    var l, r := KeySeq(a + b), KeySeq(a) + KeySeq(b);
    assert |l| == |r|;
    forall i | 0 <= i < |l| ensures l[i] == r[i] {
      if i < |a| {
        assert (a + b)[i] == a[i];
      } else {
        assert (a + b)[i] == b[i - |a|];
      }
    }
  }
}
