/**
 * Deep merge of two configuration documents: the global document is the
 * base and the local document the override.  Objects merge key by key,
 * recursively; on a key both sides have, the local value wins (merged
 * further when both values are objects); arrays and scalars are replaced
 * wholesale by the local value.  Base keys keep their order and the keys
 * only the override has are appended in the override's order, as a merge
 * into a copy of an insertion-ordered dict leaves them.
 */
module JsonMerge {
  import opened Wrappers
  import opened JsonValue

  /** Merge `over` into `base`. */
  function Merge(base: Json, over: Json): (r: Json)
    ensures over.JObj? <==> r.JObj?
    ensures !over.JObj? ==> r == over
    decreases base, 2
  {
    if base.JObj? && over.JObj? then JObj(MergeMembers(base.members, over.members))
    else over
  }

  /** Key-wise merge of two objects' members. */
  function MergeMembers(bm: seq<Member>, om: seq<Member>): seq<Member>
    decreases JObj(bm), 1
  {
    Updated(bm, om) + Additions(om, KeySeq(bm))
  }

  /** The base members, each merged with the override's value for its key, if any. */
  function Updated(bm: seq<Member>, om: seq<Member>): (u: seq<Member>)
    ensures |u| == |bm|
    decreases JObj(bm), 0
  {
    seq(|bm|, i requires 0 <= i < |bm| =>
      (bm[i].0, match Lookup(om, bm[i].0) case None => bm[i].1 case Some(o) => Merge(bm[i].1, o)))
  }

  /** The override members whose key the base does not have, in order. */
  function Additions(om: seq<Member>, baseKeys: seq<string>): seq<Member>
  {
    if om == [] then []
    else if om[0].0 in baseKeys then Additions(om[1..], baseKeys)
    else [om[0]] + Additions(om[1..], baseKeys)
  }

  /** What a key holds after merging, given what each side holds there. */
  function Combine(b: Option<Json>, o: Option<Json>): Option<Json> {
    match (b, o)
    case (None, None) => None
    case (Some(bv), None) => Some(bv)
    case (None, Some(ov)) => Some(ov)
    case (Some(bv), Some(ov)) => Some(Merge(bv, ov))
  }

  /**
   * A path is one the override is silent on: the override is an object
   * along the path until a key is missing.  Only there does the base show through.
   */
  predicate Silent(over: Json, path: seq<string>)
    decreases |path|
  {
    path != [] && over.JObj? &&
    match Lookup(over.members, path[0])
    case None => true
    case Some(v) => Silent(v, path[1..])
  }

  /** The override is silent on `[k] + rest` when it lacks `k` or is silent below it. */
  lemma SilentCons(m: seq<Member>, k: string, rest: seq<string>)
    ensures Silent(JObj(m), [k] + rest) <==>
      match Lookup(m, k)
      case None => true
      case Some(v) => Silent(v, rest)
  {
    assert ([k] + rest)[1..] == rest;
  }

  // ---------------------------------------------------------------------
  // Lookup through the pieces of a merge

  lemma UpdatedKeys(bm: seq<Member>, om: seq<Member>)
    ensures KeySeq(Updated(bm, om)) == KeySeq(bm)
  {
  }

  lemma {:induction false} LookupUpdate(bm: seq<Member>, om: seq<Member>, k: string)
    ensures Lookup(Updated(bm, om), k) ==
      match Lookup(bm, k)
      case None => None
      case Some(bv) => Some(match Lookup(om, k) case None => bv case Some(ov) => Merge(bv, ov))
  {
    if bm != [] && bm[0].0 != k {
      assert Updated(bm, om)[1..] == Updated(bm[1..], om);
      LookupUpdate(bm[1..], om, k);
    }
  }

  lemma {:induction false} LookupAdditions(om: seq<Member>, ks: seq<string>, k: string)
    ensures Lookup(Additions(om, ks), k) == if k in ks then None else Lookup(om, k)
  {
    if om != [] {
      LookupAdditions(om[1..], ks, k);
    }
  }

  lemma {:induction false} AdditionsKeys(om: seq<Member>, ks: seq<string>)
    ensures forall k :: k in KeySeq(Additions(om, ks)) <==> k in KeySeq(om) && k !in ks
  {
    if om != [] {
      AdditionsKeys(om[1..], ks);
      assert KeySeq(om) == [om[0].0] + KeySeq(om[1..]);
    }
  }

  // ---------------------------------------------------------------------
  // Properties of the merge

  /**
   * Key by key, the merged object holds the base's value where only the
   * base has the key, the override's where only the override has it, and
   * the merge of the two where both have it.
   */
  lemma MergeLookup(bm: seq<Member>, om: seq<Member>, k: string)
    ensures Lookup(MergeMembers(bm, om), k) == Combine(Lookup(bm, k), Lookup(om, k))
  {
    UpdatedKeys(bm, om);
    LookupAppend(Updated(bm, om), Additions(om, KeySeq(bm)), k);
    LookupUpdate(bm, om, k);
    LookupAdditions(om, KeySeq(bm), k);
  }

  /**
   * The merged object lists the base's keys first, in the base's order,
   * then exactly the keys only the override has.
   */
  lemma MergeKeyOrder(bm: seq<Member>, om: seq<Member>)
    ensures KeySeq(MergeMembers(bm, om))[..|bm|] == KeySeq(bm)
    ensures forall k :: k in KeySeq(MergeMembers(bm, om))[|bm|..] <==> k in KeySeq(om) && k !in KeySeq(bm)
  {
    var u, a := Updated(bm, om), Additions(om, KeySeq(bm));
    UpdatedKeys(bm, om);
    AdditionsKeys(om, KeySeq(bm));
    KeySeqAppend(u, a);
  }

  /**
   * The whole merge, path by path: where the override is silent the base
   * shows through; where the override holds a value, that value stands,
   * merged with the base's value when the base also has the path; where a
   * non-object of the override cuts the path short, nothing is left.
   */
  lemma {:induction false} MergeAtPath(base: Json, over: Json, path: seq<string>)
    ensures Get(Merge(base, over), path) ==
      if Silent(over, path) then Get(base, path)
      else match Get(over, path)
        case None => None
        case Some(ov) => Combine(Get(base, path), Some(ov))
    decreases |path|
  {
    if path != [] && base.JObj? && over.JObj? {
      var k := path[0];
      MergeLookup(base.members, over.members, k);
      match (Lookup(base.members, k), Lookup(over.members, k))
      case (None, None) =>
      case (Some(bv), None) =>
      case (None, Some(ov)) =>
        if Silent(ov, path[1..]) {
          SilentIsAbsent(ov, path[1..]);
        }
      case (Some(bv), Some(ov)) =>
        MergeAtPath(bv, ov, path[1..]);
    } else if Silent(over, path) {
      SilentIsAbsent(over, path);
    }
  }

  lemma {:induction false} SilentIsAbsent(over: Json, path: seq<string>)
    requires Silent(over, path)
    ensures Get(over, path) == None
    decreases |path|
  {
    match Lookup(over.members, path[0])
    case None =>
    case Some(v) => SilentIsAbsent(v, path[1..]);
  }

  /** A value the local document sets at a path, other than an object, is the merged value there. */
  lemma LocalLeafWins(base: Json, over: Json, path: seq<string>, v: Json)
    requires Get(over, path) == Some(v) && !v.JObj?
    ensures Get(Merge(base, over), path) == Some(v)
  {
    MergeAtPath(base, over, path);
    if Silent(over, path) {
      SilentIsAbsent(over, path);
    }
  }

  /** Where the local document is silent, the global document's value is the merged value. */
  lemma GlobalFallback(base: Json, over: Json, path: seq<string>)
    requires Silent(over, path)
    ensures Get(Merge(base, over), path) == Get(base, path)
  {
    MergeAtPath(base, over, path);
  }

  /** Merging a well-formed document with itself gives that document back. */
  lemma {:induction false} MergeIdempotent(d: Json)
    requires WellFormed(d)
    ensures Merge(d, d) == d
  {
    if d.JObj? {
      var m := d.members;
      forall i | 0 <= i < |m| ensures Updated(m, m)[i] == m[i] {
        LookupUnique(m, i);
        MergeIdempotent(m[i].1);
      }
      AdditionsOfOwnKeys(m, KeySeq(m));
    }
  }

  lemma {:induction false} AdditionsOfOwnKeys(om: seq<Member>, ks: seq<string>)
    requires forall i :: 0 <= i < |om| ==> om[i].0 in ks
    ensures Additions(om, ks) == []
  {
    if om != [] {
      AdditionsOfOwnKeys(om[1..], ks);
    }
  }

  /** An absent local layer (the empty object) leaves a global object unchanged. */
  lemma MergeEmptyOverride(bm: seq<Member>)
    ensures Merge(JObj(bm), JObj([])) == JObj(bm)
  {
    assert Updated(bm, []) == bm;
    assert Additions([], KeySeq(bm)) == [];
  }

  /** An absent global layer (the empty object) under a local object gives the local object. */
  lemma MergeEmptyBase(om: seq<Member>)
    ensures Merge(JObj([]), JObj(om)) == JObj(om)
  {
    AdditionsOfNoKeys(om);
  }

  lemma {:induction false} AdditionsOfNoKeys(om: seq<Member>)
    ensures Additions(om, []) == om
  {
    if om != [] {
      AdditionsOfNoKeys(om[1..]);
    }
  }

  /** Merging well-formed documents gives a well-formed document: keys stay unique at every level. */
  lemma {:induction false} MergeWellFormed(base: Json, over: Json)
    requires WellFormed(base) && WellFormed(over)
    ensures WellFormed(Merge(base, over))
    decreases base
  {
    if base.JObj? && over.JObj? {
      var bm, om := base.members, over.members;
      var u, a := Updated(bm, om), Additions(om, KeySeq(bm));
      UpdatedKeys(bm, om);
      AdditionsFromOverride(om, KeySeq(bm));
      forall i | 0 <= i < |u| ensures WellFormed(u[i].1) {
        match Lookup(om, bm[i].0)
        case None =>
        case Some(ov) =>
          LookupFound(om, bm[i].0);
          MergeWellFormed(bm[i].1, ov);
      }
      assert UniqueKeys(u) by {
        forall x, y | 0 <= x < y < |u| ensures u[x].0 != u[y].0 {
          assert u[x].0 == bm[x].0 && u[y].0 == bm[y].0;
        }
      }
      UniqueKeysAppend(u, a);
      forall i | 0 <= i < |u + a| ensures WellFormed((u + a)[i].1) {
        if i >= |u| {
          assert (u + a)[i] == a[i - |u|];
        }
      }
    }
  }

  /** The additions are members of the override, with keys unique when the override's are. */
  lemma {:induction false} AdditionsFromOverride(om: seq<Member>, ks: seq<string>)
    ensures forall i :: 0 <= i < |Additions(om, ks)| ==>
      Additions(om, ks)[i] in om && Additions(om, ks)[i].0 !in ks
    ensures UniqueKeys(om) ==> UniqueKeys(Additions(om, ks))
  {
    if om != [] {
      var rest := Additions(om[1..], ks);
      AdditionsFromOverride(om[1..], ks);
      assert forall x :: x in om[1..] ==> x in om;
      if UniqueKeys(om) {
        assert UniqueKeys(om[1..]) by {
          forall x, y | 0 <= x < y < |om[1..]| ensures om[1..][x].0 != om[1..][y].0 {
            assert om[1..][x] == om[x + 1] && om[1..][y] == om[y + 1];
          }
        }
        if om[0].0 !in ks {
          forall y | 0 <= y < |rest| ensures rest[y].0 != om[0].0 {
            var j :| 0 <= j < |om[1..]| && om[1..][j] == rest[y];
            assert om[j + 1] == rest[y];
          }
          assert Additions(om, ks) == [om[0]] + rest;
          forall x, y | 0 <= x < y < |[om[0]] + rest| ensures ([om[0]] + rest)[x].0 != ([om[0]] + rest)[y].0 {
            assert ([om[0]] + rest)[y] == rest[y - 1];
            if x > 0 {
              assert ([om[0]] + rest)[x] == rest[x - 1];
            }
          }
        }
      }
    }
  }

  lemma UniqueKeysAppend(a: seq<Member>, b: seq<Member>)
    requires UniqueKeys(a) && UniqueKeys(b)
    requires forall i :: 0 <= i < |b| ==> b[i].0 !in KeySeq(a)
    ensures UniqueKeys(a + b)
  {
    forall x, y | 0 <= x < y < |a + b| ensures (a + b)[x].0 != (a + b)[y].0 {
      if y >= |a| {
        assert (a + b)[y] == b[y - |a|];
        if x < |a| {
          assert (a + b)[x] == a[x];
          assert KeySeq(a)[x] == a[x].0;
        } else {
          assert (a + b)[x] == b[x - |a|];
        }
      } else {
        assert (a + b)[x] == a[x] && (a + b)[y] == a[y];
      }
    }
  }
}
