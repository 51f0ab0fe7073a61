/**
 Insertion-ordered dictionaries (Python's `OrderedDict` and `dict`) and the write-recency
 discipline the listener's bounded collections put on top of them: a write moves its key to the
 end, and a new key entering a full collection pushes out the key at the front.
 */
module Recency {

  ghost predicate NoDup<K>(s: seq<K>) {
    forall i, j :: 0 <= i < j < |s| ==> s[i] != s[j]
  }

  function Members<K>(s: seq<K>): set<K> {
    set k | k in s
  }

  /** The sequence with every occurrence of `k` taken out. */
  function Without<K(==)>(s: seq<K>, k: K): seq<K> {
    if s == [] then []
    else if s[0] == k then Without(s[1..], k)
    else [s[0]] + Without(s[1..], k)
  }

  /** A write of `k` into a collection holding at most `max` keys, least recently written first. */
  function Touch<K(==)>(order: seq<K>, max: nat, k: K): seq<K>
    requires max >= 1
  {
    if k in order then Without(order, k) + [k]
    else if |order| >= max then order[1..] + [k]
    else order + [k]
  }

  /** The keys written after `k`'s own last write. */
  function After<K(==)>(order: seq<K>, k: K): set<K> {
    if order == [] then {}
    else if order[0] == k then Members(order[1..])
    else After(order[1..], k)
  }

  // ---------------------------------------------------------------------------------------------
  // Dictionaries
  // ---------------------------------------------------------------------------------------------

  datatype Dict<K, V> = Dict(order: seq<K>, vals: map<K, V>)

  ghost predicate WellFormed<K, V>(d: Dict<K, V>) {
    NoDup(d.order) && Members(d.order) == d.vals.Keys
  }

  function Empty<K, V>(): Dict<K, V> {
    Dict([], map[])
  }

  /** A plain `dict` assignment: an existing key keeps its place. */
  function Put<K(==), V>(d: Dict<K, V>, k: K, v: V): Dict<K, V> {
    Dict(if k in d.vals then d.order else d.order + [k], d.vals[k := v])
  }

  function Remove<K(==), V>(d: Dict<K, V>, k: K): Dict<K, V> {
    Dict(Without(d.order, k), d.vals - {k})
  }

  /** `BoundedDict.__setitem__`. */
  function SetItem<K(==), V>(d: Dict<K, V>, max: nat, k: K, v: V): Dict<K, V>
    requires max >= 1
  {
    if k !in d.vals && |d.order| >= max
    then Dict(d.order[1..] + [k], (d.vals - {d.order[0]})[k := v])
    else Dict(if k in d.vals then Without(d.order, k) + [k] else d.order + [k], d.vals[k := v])
  }

  // ---------------------------------------------------------------------------------------------
  // Elementary facts
  // ---------------------------------------------------------------------------------------------

  lemma {:induction false} WithoutMembers<K>(s: seq<K>, k: K)
    ensures Members(Without(s, k)) == Members(s) - {k}
    ensures |Without(s, k)| <= |s|
    ensures k in s ==> |Without(s, k)| < |s|
    ensures k !in s ==> Without(s, k) == s
  {
    if s != [] {
      WithoutMembers(s[1..], k);
      assert s == [s[0]] + s[1..];
      assert Members(s) == {s[0]} + Members(s[1..]);
      if s[0] != k {
        assert Members([s[0]] + Without(s[1..], k)) == {s[0]} + Members(Without(s[1..], k));
      }
    }
  }

  lemma {:induction false} WithoutNoDup<K>(s: seq<K>, k: K)
    requires NoDup(s)
    ensures NoDup(Without(s, k))
    ensures k in s ==> |Without(s, k)| == |s| - 1
  {
    if s != [] {
      WithoutNoDup(s[1..], k);
      WithoutMembers(s[1..], k);
      if s[0] == k {
        assert k !in s[1..];
      } else {
        assert s[0] !in Members(Without(s[1..], k));
      }
    }
  }

  lemma {:induction false} WithoutConcat<K>(s: seq<K>, t: seq<K>, k: K)
    ensures Without(s + t, k) == Without(s, k) + Without(t, k)
  {
    if s == [] {
      assert s + t == t;
    } else {
      assert (s + t)[1..] == s[1..] + t;
      WithoutConcat(s[1..], t, k);
    }
  }

  lemma {:induction false} MembersCount<K>(s: seq<K>)
    requires NoDup(s)
    ensures |Members(s)| == |s|
  {
    if s != [] {
      MembersCount(s[1..]);
      assert Members(s) == {s[0]} + Members(s[1..]);
      assert s[0] !in Members(s[1..]);
    }
  }

  lemma {:induction false} SubsetCount<T>(a: set<T>, b: set<T>)
    requires a <= b
    ensures |a| <= |b|
  {
    assert b == a + (b - a);
  }

  lemma {:induction false} TouchMembers<K>(order: seq<K>, max: nat, k: K)
    requires max >= 1
    ensures Members(Touch(order, max, k)) <= Members(order) + {k}
    ensures k in order || |order| < max ==> Members(Touch(order, max, k)) == Members(order) + {k}
  {
    WithoutMembers(order, k);
    if k in order {
      assert Members(Without(order, k) + [k]) == Members(Without(order, k)) + {k};
      assert k in Members(order);
    } else if |order| >= max {
      assert Members(order[1..] + [k]) == Members(order[1..]) + {k};
    } else {
      assert Members(order + [k]) == Members(order) + {k};
    }
  }

  lemma {:induction false} PutValid<K, V>(d: Dict<K, V>, k: K, v: V)
    requires WellFormed(d)
    ensures WellFormed(Put(d, k, v))
  {
  }

  lemma {:induction false} RemoveOfPut<K, V>(d: Dict<K, V>, k: K, v: V)
    requires k in d.vals
    ensures Remove(Put(d, k, v), k) == Remove(d, k)
  {
  }

  lemma {:induction false} RemoveValid<K, V>(d: Dict<K, V>, k: K)
    requires WellFormed(d)
    ensures WellFormed(Remove(d, k))
    ensures |Remove(d, k).order| == |d.order| - (if k in d.vals then 1 else 0)
  {
    WithoutMembers(d.order, k);
    WithoutNoDup(d.order, k);
    assert k in d.vals <==> k in Members(d.order);
  }

  lemma {:induction false} SetItemValid<K, V>(d: Dict<K, V>, max: nat, k: K, v: V)
    requires max >= 1 && WellFormed(d) && |d.order| <= max
    ensures WellFormed(SetItem(d, max, k, v))
    ensures |SetItem(d, max, k, v).order| <= max
    ensures SetItem(d, max, k, v).order == Touch(d.order, max, k)
  {
    assert k in d.vals <==> k in Members(d.order);
    var d' := SetItem(d, max, k, v);
    if k in d.vals {
      WithoutMembers(d.order, k);
      WithoutNoDup(d.order, k);
      assert Members(d'.order) == Members(Without(d.order, k)) + {k};
      assert k !in Members(Without(d.order, k));
    } else if |d.order| >= max {
      assert d.order == [d.order[0]] + d.order[1..];
      assert Members(d.order) == {d.order[0]} + Members(d.order[1..]);
      assert Members(d'.order) == Members(d.order[1..]) + {k};
    } else {
      assert Members(d'.order) == Members(d.order) + {k};
    }
  }

  // ---------------------------------------------------------------------------------------------
  // A history of writes
  // ---------------------------------------------------------------------------------------------

  /** The distinct keys of a write history, in the order of their last writes. */
  ghost function ByLastWrite<K>(ws: seq<K>): seq<K> {
    if ws == [] then []
    else if ws[0] in ws[1..] then ByLastWrite(ws[1..])
    else [ws[0]] + ByLastWrite(ws[1..])
  }

  ghost function Newest<K>(s: seq<K>, n: nat): seq<K> {
    if |s| <= n then s else s[|s| - n..]
  }

  /** What a `BoundedSet` of size `max` holds after adding `ws` in turn. */
  ghost function AddAll<K>(max: nat, ws: seq<K>): seq<K>
    requires max >= 1
  {
    if ws == [] then [] else Touch(AddAll(max, ws[..|ws| - 1]), max, ws[|ws| - 1])
  }

  /** What a `BoundedDict` of size `max` holds after the writes `ws`. */
  ghost function WriteAll<K, V>(max: nat, ws: seq<(K, V)>): Dict<K, V>
    requires max >= 1
  {
    if ws == [] then Empty()
    else
      var (k, v) := ws[|ws| - 1];
      SetItem(WriteAll(max, ws[..|ws| - 1]), max, k, v)
  }

  ghost function KeysOf<K, V>(ws: seq<(K, V)>): seq<K> {
    seq(|ws|, i requires 0 <= i < |ws| => ws[i].0)
  }

  lemma {:induction false} ByLastWriteFacts<K>(ws: seq<K>)
    ensures NoDup(ByLastWrite(ws)) && Members(ByLastWrite(ws)) == Members(ws)
  {
    if ws != [] {
      ByLastWriteFacts(ws[1..]);
      assert ws == [ws[0]] + ws[1..];
      assert Members(ws) == {ws[0]} + Members(ws[1..]);
      if ws[0] !in ws[1..] {
        assert ws[0] !in Members(ByLastWrite(ws[1..]));
        assert Members([ws[0]] + ByLastWrite(ws[1..])) == {ws[0]} + Members(ByLastWrite(ws[1..]));
      } else {
        assert ws[0] in Members(ws[1..]);
      }
    }
  }

  lemma {:induction false} ByLastWriteSnoc<K>(ws: seq<K>, k: K)
    ensures ByLastWrite(ws + [k]) == Without(ByLastWrite(ws), k) + [k]
  {
    if ws == [] {
      assert ws + [k] == [k] && [k][1..] == [];
    } else {
      assert (ws + [k])[1..] == ws[1..] + [k];
      ByLastWriteSnoc(ws[1..], k);
      ByLastWriteFacts(ws[1..]);
      if ws[0] == k {
        WithoutMembers(ByLastWrite(ws[1..]), k);
        if ws[0] !in ws[1..] {
          assert k !in Members(ByLastWrite(ws[1..]));
        }
      }
    }
  }

  lemma {:induction false} NewestConcat<K>(p: seq<K>, q: seq<K>)
    ensures Newest(p + q, |q|) == q
  {
  }

  lemma {:induction false} TouchNewest<K>(s: seq<K>, max: nat, k: K)
    requires max >= 1 && NoDup(s)
    ensures Touch(Newest(s, max), max, k) == Newest(Without(s, k) + [k], max)
  {
    if |s| <= max {
      WithoutMembers(s, k);
      if k !in s && |s| == max {
        NewestConcat([s[0]], s[1..] + [k]);
        assert s + [k] == [s[0]] + (s[1..] + [k]);
      }
    } else {
      TouchNewestFull(s[..|s| - max], s[|s| - max..], k);
      assert s == s[..|s| - max] + s[|s| - max..];
    }
  }

  lemma {:induction false} NoDupSuffix<K>(p: seq<K>, q: seq<K>)
    requires NoDup(p + q)
    ensures NoDup(q)
  {
    assert forall i :: 0 <= i < |q| ==> q[i] == (p + q)[|p| + i];
  }

  lemma {:induction false} TouchNewestKept<K>(stale: seq<K>, kept: seq<K>, k: K)
    requires |kept| >= 1 && NoDup(kept) && k in kept
    ensures Touch(kept, |kept|, k) == Newest(Without(stale + kept, k) + [k], |kept|)
  {
    WithoutConcat(stale, kept, k);
    WithoutNoDup(kept, k);
    NewestSplit(Without(stale, k), Without(kept, k), Touch(kept, |kept|, k), k);
  }

  lemma {:induction false} TouchNewestFull<K>(stale: seq<K>, kept: seq<K>, k: K)
    requires |kept| >= 1 && NoDup(stale + kept)
    ensures Touch(kept, |kept|, k) == Newest(Without(stale + kept, k) + [k], |kept|)
  {
    NoDupSuffix(stale, kept);
    if k in kept {
      TouchNewestKept(stale, kept, k);
    } else {
      WithoutConcat(stale, kept, k);
      WithoutMembers(kept, k);
      assert Without(stale, k) + kept == (Without(stale, k) + [kept[0]]) + kept[1..];
      NewestSplit(Without(stale, k) + [kept[0]], kept[1..], Touch(kept, |kept|, k), k);
    }
  }

  lemma {:induction false} NewestSplit<K>(p: seq<K>, r: seq<K>, q: seq<K>, k: K)
    requires q == r + [k]
    ensures Newest((p + r) + [k], |q|) == q
  {
  }

  /**
   After any history of additions a `BoundedSet` holds exactly the last `max` distinct items, in
   the order they were last added.
   */
  lemma {:induction false} AddAllKeepsNewest<K>(max: nat, ws: seq<K>)
    requires max >= 1
    ensures AddAll(max, ws) == Newest(ByLastWrite(ws), max)
  {
    if ws != [] {
      var n := |ws| - 1;
      AddAllKeepsNewest(max, ws[..n]);
      assert ws == ws[..n] + [ws[n]];
      ByLastWriteSnoc(ws[..n], ws[n]);
      ByLastWriteFacts(ws[..n]);
      TouchNewest(ByLastWrite(ws[..n]), max, ws[n]);
    }
  }

  /** `i` is the last position of the history that writes `k`. */
  ghost predicate IsLastWrite<K, V>(ws: seq<(K, V)>, k: K, i: nat) {
    i < |ws| && ws[i].0 == k && forall j :: i < j < |ws| ==> ws[j].0 != k
  }

  lemma {:induction false} WriteAllOrder<K, V>(max: nat, ws: seq<(K, V)>)
    requires max >= 1
    ensures WellFormed(WriteAll(max, ws)) && |WriteAll(max, ws).order| <= max
    ensures WriteAll(max, ws).order == AddAll(max, KeysOf(ws))
  {
    if ws == [] {
      assert KeysOf(ws) == [];
    } else {
      var n := |ws| - 1;
      WriteAllOrder(max, ws[..n]);
      assert KeysOf(ws)[..n] == KeysOf(ws[..n]);
      SetItemValid(WriteAll(max, ws[..n]), max, ws[n].0, ws[n].1);
    }
  }

  lemma {:induction false} WriteAllValue<K, V>(max: nat, ws: seq<(K, V)>, k: K, i: nat)
    requires max >= 1 && IsLastWrite(ws, k, i) && k in WriteAll(max, ws).vals
    ensures WriteAll(max, ws).vals[k] == ws[i].1
  {
    var n := |ws| - 1;
    if i < n {
      assert ws[n].0 != k;
      assert IsLastWrite(ws[..n], k, i);
      WriteAllValue(max, ws[..n], k, i);
    }
  }

  /**
   After any history of writes a `BoundedDict` holds exactly the last `max` distinct keys in the
   order of their last writes, each with the value of its last write.
   */
  lemma {:induction false} WriteAllKeepsNewest<K, V>(max: nat, ws: seq<(K, V)>)
    requires max >= 1
    ensures WellFormed(WriteAll(max, ws))
    ensures WriteAll(max, ws).order == Newest(ByLastWrite(KeysOf(ws)), max)
    ensures forall k, i: nat ::
               IsLastWrite(ws, k, i) && k in WriteAll(max, ws).vals ==> WriteAll(max, ws).vals[k] == ws[i].1
  {
    WriteAllOrder(max, ws);
    AddAllKeepsNewest(max, KeysOf(ws));
    forall k, i: nat | IsLastWrite(ws, k, i) && k in WriteAll(max, ws).vals
      ensures WriteAll(max, ws).vals[k] == ws[i].1
    {
      WriteAllValue(max, ws, k, i);
    }
  }

  // ---------------------------------------------------------------------------------------------
  // A history of writes and pops
  // ---------------------------------------------------------------------------------------------

  datatype Access<K, V> = Write(key: K, value: V) | Pop(key: K)

  ghost function RunOps<K, V>(max: nat, ops: seq<Access<K, V>>): Dict<K, V>
    requires max >= 1
  {
    if ops == [] then Empty()
    else
      var d := RunOps(max, ops[..|ops| - 1]);
      match ops[|ops| - 1]
      case Write(k, v) => SetItem(d, max, k, v)
      case Pop(k) => Remove(d, k)
  }

  /** `at` is the last operation on `k`, and it wrote `v`. */
  ghost predicate LastOpWrote<K, V>(ops: seq<Access<K, V>>, k: K, v: V, at: nat) {
    at < |ops| && ops[at] == Write(k, v) && forall j :: at < j < |ops| ==> ops[j].key != k
  }

  ghost predicate Increasing(at: seq<nat>) {
    forall i, j :: 0 <= i < j < |at| ==> at[i] < at[j]
  }

  /** `at` names, key by key, the operations that last wrote the keys of `order`, oldest first. */
  ghost predicate WrittenAt<K, V>(ops: seq<Access<K, V>>, order: seq<K>, vals: map<K, V>, at: seq<nat>) {
    && |at| == |order|
    && Increasing(at)
    && (forall i :: 0 <= i < |order| ==> order[i] in vals && LastOpWrote(ops, order[i], vals[order[i]], at[i]))
  }

  lemma {:induction false} WithoutWrittenAt<K, V>(ops: seq<Access<K, V>>, s: seq<K>, vals: map<K, V>, at: seq<nat>,
          k: K)
    returns (r: seq<nat>)
    requires WrittenAt(ops, s, vals, at)
    ensures WrittenAt(ops, Without(s, k), vals, r)
    ensures s != [] && r != [] ==> at[0] <= r[0]
  {
    if s == [] {
      r := [];
    } else {
      var tail := WithoutWrittenAt(ops, s[1..], vals, at[1..], k);
      r := if s[0] == k then tail else [at[0]] + tail;
    }
  }

  /** Later operations on other keys leave the evidence for the remaining keys in place. */
  lemma {:induction false} KeepWrittenAt<K, V>(ops: seq<Access<K, V>>, op: Access<K, V>, s: seq<K>, vals: map<K, V>,
          vals': map<K, V>, at: seq<nat>)
    requires WrittenAt(ops, s, vals, at) && op.key !in s
    requires forall x :: x in s ==> x in vals' && vals'[x] == vals[x]
    ensures WrittenAt(ops + [op], s, vals', at)
  {
  }

  lemma {:induction false} AppendWrittenAt<K, V>(ops: seq<Access<K, V>>, k: K, v: V, s: seq<K>, vals: map<K, V>,
          vals': map<K, V>, at: seq<nat>)
    requires WrittenAt(ops, s, vals, at) && k !in s
    requires forall x :: x in s ==> x in vals' && vals'[x] == vals[x]
    requires k in vals' && vals'[k] == v
    ensures WrittenAt(ops + [Write(k, v)], s + [k], vals', at + [|ops|])
  {
  }

  lemma {:induction false} WriteWrittenAt<K, V>(ops: seq<Access<K, V>>, d: Dict<K, V>, max: nat, k: K, v: V,
          at: seq<nat>) returns (r: seq<nat>)
    requires max >= 1 && WellFormed(d) && WrittenAt(ops, d.order, d.vals, at)
    ensures WrittenAt(ops + [Write(k, v)], SetItem(d, max, k, v).order, SetItem(d, max, k, v).vals, r)
  {
    assert k in d.vals <==> k in Members(d.order);
    var s := if k in d.vals then Without(d.order, k) else if |d.order| >= max then d.order[1..] else d.order;
    if k in d.vals {
      r := WithoutWrittenAt(ops, d.order, d.vals, at, k);
      WithoutMembers(d.order, k);
      assert k !in Members(s);
    } else if |d.order| >= max {
      r := at[1..];
    } else {
      r := at;
    }
    AppendWrittenAt(ops, k, v, s, d.vals, SetItem(d, max, k, v).vals, r);
    r := r + [|ops|];
  }

  /**
   With pops mixed in, a `BoundedDict` never outgrows `max`, never repeats a key, holds for each
   key the value of its last operation (a write), and lists its keys in the order of those writes.
   */
  lemma {:induction false} RunOpsInRecencyOrder<K, V>(max: nat, ops: seq<Access<K, V>>) returns (at: seq<nat>)
    requires max >= 1
    ensures WellFormed(RunOps(max, ops)) && |RunOps(max, ops).order| <= max
    ensures WrittenAt(ops, RunOps(max, ops).order, RunOps(max, ops).vals, at)
  {
    if ops == [] {
      at := [];
    } else {
      var n := |ops| - 1;
      assert ops == ops[..n] + [ops[n]];
      var d := RunOps(max, ops[..n]);
      at := RunOpsInRecencyOrder(max, ops[..n]);
      match ops[n]
      case Write(k, v) =>
        SetItemValid(d, max, k, v);
        at := WriteWrittenAt(ops[..n], d, max, k, v, at);
      case Pop(k) =>
        RemoveValid(d, k);
        at := WithoutWrittenAt(ops[..n], d.order, d.vals, at, k);
        WithoutMembers(d.order, k);
        assert forall x :: x in Without(d.order, k) ==> x in Members(Without(d.order, k));
        KeepWrittenAt(ops[..n], ops[n], Without(d.order, k), d.vals, d.vals - {k}, at);
    }
  }

  // ---------------------------------------------------------------------------------------------
  // Keys newer than a given one
  // ---------------------------------------------------------------------------------------------

  lemma {:induction false} AfterWithin<K>(order: seq<K>, k: K)
    ensures After(order, k) <= Members(order)
    ensures k !in order ==> After(order, k) == {}
    ensures NoDup(order) ==> |After(order, k)| < |order| || order == []
  {
    if order != [] {
      AfterWithin(order[1..], k);
      if order[0] == k && NoDup(order) {
        MembersCount(order[1..]);
      }
    }
  }

  lemma {:induction false} AfterConcat<K>(s: seq<K>, t: seq<K>, k: K)
    ensures After(s + t, k) == if k in s then After(s, k) + Members(t) else After(t, k)
  {
    if s == [] {
      assert s + t == t;
    } else {
      assert (s + t)[1..] == s[1..] + t;
      assert s == [s[0]] + s[1..];
      AfterConcat(s[1..], t, k);
      if s[0] == k {
        assert Members(s[1..] + t) == Members(s[1..]) + Members(t);
      }
    }
  }

  lemma {:induction false} AfterWithout<K>(s: seq<K>, k: K, v: K)
    requires k != v
    ensures After(Without(s, v), k) == After(s, k) - {v}
  {
    if s != [] {
      AfterWithout(s[1..], k, v);
      WithoutMembers(s[1..], v);
      if s[0] != v {
        assert ([s[0]] + Without(s[1..], v))[1..] == Without(s[1..], v);
      }
    }
  }

  /** A write of another key can only add that key to the keys newer than `k`. */
  lemma {:induction false} AfterTouch<K>(order: seq<K>, max: nat, k: K, v: K)
    requires max >= 1 && NoDup(order) && k != v && k in order
    requires v in order || |order| < max || |After(order, k)| < max - 1
    ensures k in Touch(order, max, v)
    ensures After(Touch(order, max, v), k) == After(order, k) + {v}
  {
    var s := if v in order then Without(order, v) else if |order| >= max then order[1..] else order;
    assert Touch(order, max, v) == s + [v];
    assert k in s && After(s, k) + {v} == After(order, k) + {v} by {
      if v in order {
        AfterWithout(order, k, v);
        WithoutMembers(order, v);
        assert k in Members(s);
      } else if |order| >= max {
        AfterDrop(order, max, k);
      }
    }
    AfterSnoc(s, k, v);
  }

  lemma {:induction false} AfterSnoc<K>(s: seq<K>, k: K, v: K)
    requires k in s
    ensures k in s + [v] && After(s + [v], k) == After(s, k) + {v}
  {
    AfterConcat(s, [v], k);
    assert Members([v]) == {v};
  }

  lemma {:induction false} AfterDrop<K>(order: seq<K>, max: nat, k: K)
    requires NoDup(order) && k in order && |order| >= max >= 1
    requires |After(order, k)| < max - 1
    ensures k in order[1..] && After(order[1..], k) == After(order, k)
  {
    assert NoDup(order[1..]);
    if order[0] == k {
      MembersCount(order[1..]);
    }
  }

  /** A written key is the newest one. */
  lemma {:induction false} AfterTouchSelf<K>(order: seq<K>, max: nat, k: K)
    requires max >= 1 && NoDup(order)
    ensures k in Touch(order, max, k) && After(Touch(order, max, k), k) == {}
  {
    var s := if k in order then Without(order, k) else if |order| >= max then order[1..] else order;
    WithoutMembers(order, k);
    assert k !in Members(s);
    AfterConcat(s, [k], k);
  }
}
