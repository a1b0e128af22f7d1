/** Python's `dict` with string keys, in insertion order: a sequence of
    key/value pairs. Assigning to a present key keeps its position; a new key
    goes to the end; `d.update(o)` assigns o's pairs in o's order. */
module Dicts {
  import opened Values

  type Dict = seq<(string, Json)>

  function KeySet(d: Dict): (ks: set<string>) {
    set p | p in d :: p.0
  }

  predicate UniqueKeys(d: Dict) {
    forall i, j :: 0 <= i < j < |d| ==> d[i].0 != d[j].0
  }

  /** `d.get(k)`. */
  function Lookup(d: Dict, k: string): (v: Option<Json>)
    ensures v.Some? ==> (k, v.value) in d
    ensures v.None? ==> forall p :: p in d ==> p.0 != k
  {
    if d == [] then None
    else if d[0].0 == k then Some(d[0].1)
    else Lookup(d[1..], k)
  }

  /** `d[k] = v`. */
  function Assign(d: Dict, k: string, v: Json): (r: Dict)
    ensures (k, v) in r
    ensures |r| == |d| || |r| == |d| + 1
  {
    if d == [] then [(k, v)]
    else if d[0].0 == k then [(k, v)] + d[1..]
    else [d[0]] + Assign(d[1..], k, v)
  }

  /** `d.update(o)`. */
  function Update(d: Dict, o: Dict): (r: Dict)
    ensures |d| <= |r| <= |d| + |o|
    decreases |o|
  {
    if o == [] then d else Update(Assign(d, o[0].0, o[0].1), o[1..])
  }

  lemma {:induction false} LookupPresent(d: Dict, k: string)
    ensures Lookup(d, k).Some? <==> k in KeySet(d)
  {
    if d != [] {
      LookupPresent(d[1..], k);
      assert KeySet(d) == {d[0].0} + KeySet(d[1..]) by {
        assert forall p :: p in d <==> p == d[0] || p in d[1..];
      }
    }
  }

  lemma {:induction false} AssignLookup(d: Dict, k: string, v: Json, k': string)
    ensures Lookup(Assign(d, k, v), k') == if k' == k then Some(v) else Lookup(d, k')
  {
    if d != [] && d[0].0 != k {
      AssignLookup(d[1..], k, v, k');
    }
  }

  lemma KeySetCons(p: (string, Json), rest: Dict)
    ensures KeySet([p] + rest) == {p.0} + KeySet(rest)
  {
    assert forall q :: q in [p] + rest <==> q == p || q in rest;
  }

  lemma {:induction false} AssignKeys(d: Dict, k: string, v: Json)
    ensures KeySet(Assign(d, k, v)) == KeySet(d) + {k}
  {
    if d == [] {
      KeySetCons((k, v), d);
      assert Assign(d, k, v) == [(k, v)] + d;
    } else {
      KeySetCons(d[0], d[1..]);
      assert d == [d[0]] + d[1..];
      if d[0].0 == k {
        KeySetCons((k, v), d[1..]);
      } else {
        AssignKeys(d[1..], k, v);
        KeySetCons(d[0], Assign(d[1..], k, v));
      }
    }
  }

  /** Assigning never moves a key: the old pairs' keys keep their positions. */
  lemma {:induction false} AssignKeepsPositions(d: Dict, k: string, v: Json)
    ensures |Assign(d, k, v)| >= |d|
    ensures forall i :: 0 <= i < |d| ==> Assign(d, k, v)[i].0 == d[i].0
  {
    if d != [] && d[0].0 != k {
      AssignKeepsPositions(d[1..], k, v);
    }
  }

  lemma {:induction false} AssignUnique(d: Dict, k: string, v: Json)
    requires UniqueKeys(d)
    ensures UniqueKeys(Assign(d, k, v))
  {
    if d != [] && d[0].0 != k {
      AssignUnique(d[1..], k, v);
      AssignKeys(d[1..], k, v);
      var a := Assign(d, k, v);
      assert d[0].0 !in KeySet(d[1..]) by {
        forall p | p in d[1..] ensures p.0 != d[0].0 {
          var j :| 0 <= j < |d[1..]| && d[1..][j] == p;
          assert d[j + 1] == p;
        }
      }
      var rest := Assign(d[1..], k, v);
      assert a == [d[0]] + rest;
      forall i, j | 0 <= i < j < |a| ensures a[i].0 != a[j].0 {
        if i == 0 {
          assert a[j] == rest[j - 1];
          assert a[j] in rest;
          assert a[j].0 in KeySet(rest);
        } else {
          assert a[i] == rest[i - 1] && a[j] == rest[j - 1];
        }
      }
    }
  }

  /** A key absent from d is appended at the end. */
  lemma {:induction false} AssignAppends(d: Dict, k: string, v: Json)
    requires k !in KeySet(d)
    ensures Assign(d, k, v) == d + [(k, v)]
  {
    if d != [] {
      assert d[0] in d;
      assert k !in KeySet(d[1..]) by {
        forall p | p in d[1..] ensures p.0 != k { assert p in d; }
      }
      AssignAppends(d[1..], k, v);
      assert d == [d[0]] + d[1..];
    }
  }

  /** `d.update(o)`: a key of o gets o's value, any other key keeps d's. */
  lemma {:induction false} UpdateLookup(d: Dict, o: Dict, k: string)
    requires UniqueKeys(o)
    ensures Lookup(Update(d, o), k) == if k in KeySet(o) then Lookup(o, k) else Lookup(d, k)
    decreases |o|
  {
    LookupPresent(o, k);
    if o != [] {
      var d' := Assign(d, o[0].0, o[0].1);
      assert UniqueKeys(o[1..]);
      UpdateLookup(d', o[1..], k);
      AssignLookup(d, o[0].0, o[0].1, k);
      LookupPresent(o[1..], k);
      if k == o[0].0 {
        assert k !in KeySet(o[1..]) by {
          forall p | p in o[1..] ensures p.0 != k {
            var j :| 0 <= j < |o[1..]| && o[1..][j] == p;
            assert o[j + 1] == p;
          }
        }
      }
    }
  }

  lemma {:induction false} UpdateKeys(d: Dict, o: Dict)
    ensures KeySet(Update(d, o)) == KeySet(d) + KeySet(o)
    decreases |o|
  {
    if o != [] {
      AssignKeys(d, o[0].0, o[0].1);
      UpdateKeys(Assign(d, o[0].0, o[0].1), o[1..]);
      assert forall p :: p in o <==> p == o[0] || p in o[1..];
    }
  }

  lemma {:induction false} UpdateUnique(d: Dict, o: Dict)
    requires UniqueKeys(d)
    ensures UniqueKeys(Update(d, o))
    decreases |o|
  {
    if o != [] {
      AssignUnique(d, o[0].0, o[0].1);
      UpdateUnique(Assign(d, o[0].0, o[0].1), o[1..]);
    }
  }

  /** `d.update(o)` never moves a key of d. */
  lemma {:induction false} UpdateKeepsPositions(d: Dict, o: Dict)
    ensures |Update(d, o)| >= |d|
    ensures forall i :: 0 <= i < |d| ==> Update(d, o)[i].0 == d[i].0
    decreases |o|
  {
    if o != [] {
      AssignKeepsPositions(d, o[0].0, o[0].1);
      UpdateKeepsPositions(Assign(d, o[0].0, o[0].1), o[1..]);
    }
  }

  /** Updating with a dict whose keys are all new appends it unchanged. */
  lemma {:induction false} UpdateDisjoint(d: Dict, o: Dict)
    requires UniqueKeys(o)
    requires KeySet(d) !! KeySet(o)
    ensures Update(d, o) == d + o
    decreases |o|
  {
    if o != [] {
      assert o[0] in o;
      AssignAppends(d, o[0].0, o[0].1);
      var d' := d + [o[0]];
      assert KeySet(d') !! KeySet(o[1..]) by {
        forall p | p in d' ensures p.0 !in KeySet(o[1..]) {
          if p == o[0] {
            forall q | q in o[1..] ensures q.0 != p.0 {
              var j :| 0 <= j < |o[1..]| && o[1..][j] == q;
              assert o[j + 1] == q;
            }
          } else {
            assert p in d;
            assert p.0 in KeySet(d);
            forall q | q in o[1..] ensures q.0 != p.0 {
              assert q in o;
              assert q.0 in KeySet(o);
            }
          }
        }
      }
      assert UniqueKeys(o[1..]);
      UpdateDisjoint(d', o[1..]);
      assert d' + o[1..] == d + o;
    }
  }
}
