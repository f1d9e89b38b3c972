/**
 The LRU cache with a time to live, and the recency list it refines.
 */
module LruCache {
  import opened Basics

  /** An entry of the recency list; the least recently used entry comes first. */
  datatype Entry<V> = Entry(key: string, value: V, added: int)

  type Recency<V> = seq<Entry<V>>

  ghost predicate DistinctKeys<V>(s: Recency<V>) {
    forall i, j | 0 <= i < j < |s| :: s[i].key != s[j].key
  }

  predicate HasKey<V>(s: Recency<V>, key: string) {
    exists i | 0 <= i < |s| :: s[i].key == key
  }

  function Index<V>(s: Recency<V>, key: string): (i: nat)
    requires HasKey(s, key)
    ensures i < |s| && s[i].key == key && forall j | 0 <= j < i :: s[j].key != key
  {
    if s[0].key == key then 0
    else
      assert HasKey(s[1..], key) by {
        var k :| 0 <= k < |s| && s[k].key == key;
        assert s[1..][k - 1] == s[k];
      }
      var k := Index(s[1..], key);
      assert forall j | 0 < j < 1 + k :: s[j] == s[1..][j - 1];
      1 + k
  }

  function RemoveAt<T>(s: seq<T>, d: nat): (r: seq<T>)
    requires d < |s|
    ensures |r| == |s| - 1
    ensures forall i | 0 <= i < d :: r[i] == s[i]
    ensures forall i | d <= i < |r| :: r[i] == s[i + 1]
  {
    s[..d] + s[d + 1..]
  }

  function Drop<V>(s: Recency<V>, key: string): (r: Recency<V>) {
    if !HasKey(s, key) then s else RemoveAt(s, Index(s, key))
  }

  // --- the specification: a recency list of bounded length ------------------------------------

  function SetSpec<V>(s: Recency<V>, key: string, value: V, now: int, size: int): Recency<V> {
    var t := Drop(s, key) + [Entry(key, value, now)];
    if |t| <= size then t else t[1..]
  }

  function GetSpec<V>(s: Recency<V>, key: string, now: int, ttl: int): (Recency<V>, Option<V>) {
    if !HasKey(s, key) then (s, None)
    else
      var e := s[Index(s, key)];
      if now - e.added >= ttl then (Drop(s, key), None) else (Drop(s, key) + [e], Some(e.value))
  }

  ghost predicate WellFormed<V>(s: Recency<V>, size: int) {
    DistinctKeys(s) && |s| <= (if size < 0 then 0 else size)
  }

  lemma DropFacts<V>(s: Recency<V>, key: string)
    requires DistinctKeys(s)
    ensures DistinctKeys(Drop(s, key)) && !HasKey(Drop(s, key), key)
    ensures |Drop(s, key)| == if HasKey(s, key) then |s| - 1 else |s|
    ensures forall e :: e in Drop(s, key) <==> e in s && e.key != key
  {
  }

  lemma PushDistinct<V>(r: Recency<V>, x: Entry<V>)
    requires DistinctKeys(r) && !HasKey(r, x.key)
    ensures DistinctKeys(r + [x]) && DistinctKeys((r + [x])[1..])
  {
  }

  lemma SpecKeepsWellFormed<V>(s: Recency<V>, key: string, value: V, now: int, ttl: int, size: int)
    requires WellFormed(s, size)
    ensures WellFormed(SetSpec(s, key, value, now, size), size)
    ensures WellFormed(GetSpec(s, key, now, ttl).0, size)
    ensures WellFormed(Drop(s, key), size)
  {
    DropFacts(s, key);
    PushDistinct(Drop(s, key), Entry(key, value, now));
    if HasKey(s, key) { PushDistinct(Drop(s, key), s[Index(s, key)]); }
  }

  // --- histories --------------------------------------------------------------------------------

  datatype Op<V> = Set(key: string, value: V, now: int) | Get(key: string, now: int) | Delete(key: string)

  function Apply<V>(s: Recency<V>, op: Op<V>, ttl: int, size: int): Recency<V> {
    match op
    case Set(k, v, now) => SetSpec(s, k, v, now, size)
    case Get(k, now) => GetSpec(s, k, now, ttl).0
    case Delete(k) => Drop(s, k)
  }

  function Replay<V>(s: Recency<V>, h: seq<Op<V>>, ttl: int, size: int): Recency<V> {
    if h == [] then s else Apply(Replay(s, h[..|h| - 1], ttl, size), h[|h| - 1], ttl, size)
  }

  /** The last value set for the key and not deleted since, with its time. */
  function LastSet<V>(h: seq<Op<V>>, key: string): Option<(V, int)> {
    if h == [] then None
    else
      var op := h[|h| - 1];
      if op.Set? && op.key == key then Some((op.value, op.now))
      else if op.Delete? && op.key == key then None
      else LastSet(h[..|h| - 1], key)
  }

  lemma {:induction false} ReplayWellFormed<V>(s: Recency<V>, h: seq<Op<V>>, ttl: int, size: int)
    requires WellFormed(s, size)
    ensures WellFormed(Replay(s, h, ttl, size), size)
  {
    if h != [] {
      ReplayWellFormed(s, h[..|h| - 1], ttl, size);
      var op := h[|h| - 1];
      var before := Replay(s, h[..|h| - 1], ttl, size);
      match op
      case Set(k, v, now) => SpecKeepsWellFormed(before, k, v, now, ttl, size);
      case Get(k, now) =>
        DropFacts(before, k);
        if HasKey(before, k) { SpecKeepsWellFormed(before, k, before[Index(before, k)].value, now, ttl, size); }
      case Delete(k) => DropFacts(before, k);
    }
  }

  /** Whatever is in the cache was the last value set under its key. */
  lemma {:induction false} HoldsLastValue<V>(h: seq<Op<V>>, ttl: int, size: int, e: Entry<V>)
    requires e in Replay([], h, ttl, size)
    ensures LastSet(h, e.key) == Some((e.value, e.added))
  {
    if h != [] {
      var front := h[..|h| - 1];
      var op := h[|h| - 1];
      var before := Replay([], front, ttl, size);
      ReplayWellFormed([], front, ttl, size);
      DropFacts(before, op.key);
      if e in before && !(op.Set? && op.key == e.key) {
        HoldsLastValue(front, ttl, size, e);
      }
    }
  }

  /** A hit returns the last value set for the key, set less than a ttl ago. */
  lemma HitIsFreshAndLast<V>(h: seq<Op<V>>, key: string, now: int, ttl: int, size: int)
    requires GetSpec(Replay([], h, ttl, size), key, now, ttl).1.Some?
    ensures LastSet(h, key).Some? && now - LastSet(h, key).value.1 < ttl
    ensures GetSpec(Replay([], h, ttl, size), key, now, ttl).1.value == LastSet(h, key).value.0
  {
    var s := Replay([], h, ttl, size);
    HoldsLastValue(h, ttl, size, s[Index(s, key)]);
  }

  // --- which keys survive ----------------------------------------------------------------------

  function Keys<V>(h: seq<Op<V>>): set<string> { set i | 0 <= i < |h| :: h[i].key }

  function KeySet<V>(s: Recency<V>): set<string> { set i | 0 <= i < |s| :: s[i].key }

  lemma {:induction false} KeySetCount<V>(s: Recency<V>)
    ensures |KeySet(s)| <= |s|
    ensures DistinctKeys(s) ==> |KeySet(s)| == |s|
  {
    if s != [] {
      var front, last := s[..|s| - 1], s[|s| - 1].key;
      KeySetCount(front);
      assert KeySet(s) == KeySet(front) + {last} by {
        forall key | key in KeySet(s) ensures key in KeySet(front) + {last} {
          var i :| 0 <= i < |s| && s[i].key == key;
          if i < |s| - 1 { assert front[i].key == key; }
        }
        forall key | key in KeySet(front) ensures key in KeySet(s) {
          var i :| 0 <= i < |front| && front[i].key == key;
          assert s[i].key == key;
        }
        assert s[|s| - 1].key == last;
      }
    }
  }

  lemma KeysSnoc<V>(h: seq<Op<V>>)
    requires h != []
    ensures Keys(h) == Keys(h[..|h| - 1]) + {h[|h| - 1].key}
  {
  }

  /** e is present, and everything more recent has a key in `touched`. */
  ghost predicate Ahead<V>(s: Recency<V>, e: Entry<V>, touched: set<string>) {
    exists i | 0 <= i < |s| :: s[i] == e && forall j | i < j < |s| :: s[j].key in touched
  }

  lemma RemoveAhead<V>(s: Recency<V>, e: Entry<V>, touched: set<string>, d: nat)
    requires d < |s| && s[d].key != e.key && Ahead(s, e, touched)
    ensures Ahead(RemoveAt(s, d), e, touched)
  {
    var i :| 0 <= i < |s| && s[i] == e && forall j | i < j < |s| :: s[j].key in touched;
    var r := RemoveAt(s, d);
    var i' := if d < i then i - 1 else i;
    assert r[i'] == e;
    forall j | i' < j < |r| ensures r[j].key in touched { assert r[j] == s[if j < d then j else j + 1]; }
  }

  lemma DropAhead<V>(s: Recency<V>, e: Entry<V>, touched: set<string>, key: string)
    requires Ahead(s, e, touched) && key != e.key
    ensures Ahead(Drop(s, key), e, touched)
  {
    if HasKey(s, key) { RemoveAhead(s, e, touched, Index(s, key)); }
  }

  /** One more operation on another key does not evict e while fewer than `size` keys were touched. */
  lemma AheadStep<V>(s: Recency<V>, e: Entry<V>, touched: set<string>, op: Op<V>, ttl: int, size: int)
    requires WellFormed(s, size) && Ahead(s, e, touched) && op.key != e.key && |touched + {op.key}| < size
    ensures Ahead(Apply(s, op, ttl, size), e, touched + {op.key})
  {
    var more := touched + {op.key};
    DropAhead(s, e, touched, op.key);
    DropFacts(s, op.key);
    var r := Drop(s, op.key);
    assert Ahead(r, e, more);
    if op.Set? {
      PushAhead(r, e, touched, Entry(op.key, op.value, op.now), size);
    } else if op.Get? && HasKey(s, op.key) {
      PushAhead(r, e, touched, s[Index(s, op.key)], size);
    } else if op.Get? {
      assert Apply(s, op, ttl, size) == s == r;
    }
  }

  lemma PushAhead<V>(r: Recency<V>, e: Entry<V>, touched: set<string>, x: Entry<V>, size: int)
    requires DistinctKeys(r) && !HasKey(r, x.key) && Ahead(r, e, touched) && |touched + {x.key}| < size
    ensures Ahead(r + [x], e, touched + {x.key})
    ensures |r| + 1 > size ==> Ahead((r + [x])[1..], e, touched + {x.key})
  {
    var more := touched + {x.key};
    var t := r + [x];
    var i :| 0 <= i < |r| && r[i] == e && forall j | i < j < |r| :: r[j].key in touched;
    assert t[i] == e && forall j | i < j < |t| :: t[j].key in more;
    if |t| > size {
      if i == 0 {
        var rest := t[1..];
        PushDistinct(r, x);
        KeySetCount(rest);
        SubsetCount(KeySet(rest), more);
        assert false;
      }
      assert t[1..][i - 1] == e;
    }
  }

  /**
   A key that was just used keeps its entry through any operations on fewer than `size` other keys.
   */
  lemma {:induction false} SurvivesFewOthers<V>(s: Recency<V>, h: seq<Op<V>>, ttl: int, size: int)
    requires WellFormed(s, size) && s != []
    requires s[|s| - 1].key !in Keys(h) && |Keys(h)| < size
    ensures s[|s| - 1] in Replay(s, h, ttl, size) && Ahead(Replay(s, h, ttl, size), s[|s| - 1], Keys(h))
  {
    var e := s[|s| - 1];
    if h == [] {
      assert s[|s| - 1] == e;
    } else {
      var front := h[..|h| - 1];
      KeysSnoc(h);
      SubsetCount(Keys(front), Keys(h));
      SurvivesFewOthers(s, front, ttl, size);
      ReplayWellFormed(s, front, ttl, size);
      AheadStep(Replay(s, front, ttl, size), e, Keys(front), h[|h| - 1], ttl, size);
    }
  }

  /** Every key in `touched` is present, and more recent than the key k, if k is present. */
  ghost predicate Behind<V>(s: Recency<V>, k: string, touched: set<string>) {
    forall i | 0 <= i < |s| && s[i].key == k :: forall q | q in touched :: After(s, i, q)
  }

  predicate After<V>(s: Recency<V>, i: int, q: string) {
    exists j :: 0 <= j < |s| && i < j && s[j].key == q
  }

  lemma RemoveBehind<V>(s: Recency<V>, k: string, touched: set<string>, d: nat)
    requires d < |s| && s[d].key != k && Behind(s, k, touched)
    ensures Behind(RemoveAt(s, d), k, touched - {s[d].key})
  {
    var r := RemoveAt(s, d);
    forall i, q | 0 <= i < |r| && r[i].key == k && q in touched - {s[d].key} ensures After(r, i, q) {
      var i' := if i < d then i else i + 1;
      assert s[i'] == r[i] && After(s, i', q);
      var j :| 0 <= j < |s| && i' < j && s[j].key == q;
      assert r[if j < d then j else j - 1].key == q;
    }
  }

  lemma DropBehind<V>(s: Recency<V>, k: string, touched: set<string>, key: string)
    requires Behind(s, k, touched) && key != k
    ensures Behind(Drop(s, key), k, touched - {key})
  {
    if HasKey(s, key) { RemoveBehind(s, k, touched, Index(s, key)); }
  }

  lemma PushBehind<V>(r: Recency<V>, k: string, touched: set<string>, x: Entry<V>)
    requires Behind(r, k, touched) && x.key != k
    ensures Behind(r + [x], k, touched + {x.key})
  {
    var t := r + [x];
    forall i, q | 0 <= i < |t| && t[i].key == k && q in touched + {x.key} ensures After(t, i, q) {
      if q == x.key {
        assert t[|r|].key == q;
      } else {
        assert After(r, i, q);
        var j :| 0 <= j < |r| && i < j && r[j].key == q;
        assert t[j].key == q;
      }
    }
  }

  lemma CutBehind<V>(t: Recency<V>, k: string, touched: set<string>)
    requires t != [] && Behind(t, k, touched)
    ensures Behind(t[1..], k, touched)
  {
  }

  lemma BehindStep<V>(s: Recency<V>, k: string, touched: set<string>, op: Op<V>, ttl: int, size: int)
    requires Behind(s, k, touched) && op.Set? && op.key != k
    ensures Behind(Apply(s, op, ttl, size), k, touched + {op.key})
  {
    var x := Entry(op.key, op.value, op.now);
    var r := Drop(s, op.key);
    DropBehind(s, k, touched, op.key);
    PushBehind(r, k, touched - {op.key}, x);
    assert touched - {op.key} + {op.key} == touched + {op.key};
    CutBehind(r + [x], k, touched + {op.key});
  }

  lemma {:induction false} SetsAreBehind<V>(s: Recency<V>, h: seq<Op<V>>, ttl: int, size: int, k: string)
    requires WellFormed(s, size) && k !in Keys(h) && forall i | 0 <= i < |h| :: h[i].Set?
    ensures Behind(Replay(s, h, ttl, size), k, Keys(h))
  {
    if h != [] {
      var front := h[..|h| - 1];
      KeysSnoc(h);
      SetsAreBehind(s, front, ttl, size, k);
      ReplayWellFormed(s, front, ttl, size);
      BehindStep(Replay(s, front, ttl, size), k, Keys(front), h[|h| - 1], ttl, size);
    }
  }

  /** A key that is held after Sets of other keys has left room for all of them. */
  lemma HeldAfterFew<V>(s: Recency<V>, h: seq<Op<V>>, ttl: int, size: int, k: string)
    requires WellFormed(s, size) && k !in Keys(h) && (forall i | 0 <= i < |h| :: h[i].Set?)
    requires HasKey(Replay(s, h, ttl, size), k)
    ensures |Keys(h)| < size
  {
    var r := Replay(s, h, ttl, size);
    ReplayWellFormed(s, h, ttl, size);
    SetsAreBehind(s, h, ttl, size, k);
    KeysAreHeld(r, k, Keys(h));
    SubsetCount(Keys(h) + {k}, KeySet(r));
    KeySetCount(r);
    assert |Keys(h) + {k}| == |Keys(h)| + 1;
  }

  lemma KeysAreHeld<V>(r: Recency<V>, k: string, touched: set<string>)
    requires HasKey(r, k) && Behind(r, k, touched)
    ensures touched + {k} <= KeySet(r)
  {
    var i := Index(r, k);
    assert r[i].key in KeySet(r);
    forall q | q in touched ensures q in KeySet(r) {
      assert After(r, i, q);
      var j :| 0 <= j < |r| && i < j && r[j].key == q;
      assert r[j].key in KeySet(r);
    }
  }

  /**
   Least recently used, exactly: after its use, a key survives a series of Sets of other keys if
   and only if fewer than `size` different keys are set.
   */
  lemma SurvivesIff<V>(s: Recency<V>, h: seq<Op<V>>, ttl: int, size: int)
    requires WellFormed(s, size) && s != []
    requires s[|s| - 1].key !in Keys(h) && forall i | 0 <= i < |h| :: h[i].Set?
    ensures HasKey(Replay(s, h, ttl, size), s[|s| - 1].key) <==> |Keys(h)| < size
  {
    var k := s[|s| - 1].key;
    if |Keys(h)| < size { SurvivesFewOthers(s, h, ttl, size); }
    if HasKey(Replay(s, h, ttl, size), k) { HeldAfterFew(s, h, ttl, size, k); }
  }

  // --- histories again: a hit is a use ----------------------------------------------------------

  lemma {:induction false} ReplayConcat<V>(s: Recency<V>, h: seq<Op<V>>, more: seq<Op<V>>, ttl: int, size: int)
    ensures Replay(s, h + more, ttl, size) == Replay(Replay(s, h, ttl, size), more, ttl, size)
  {
    if more == [] {
      assert h + more == h;
    } else {
      var front := more[..|more| - 1];
      ReplayConcat(s, h, front, ttl, size);
      assert (h + more)[..|h + more| - 1] == h + front;
    }
  }

  /** Whether a Get after this history returns a value. */
  predicate Hits<V>(h: seq<Op<V>>, key: string, now: int, ttl: int, size: int) {
    GetSpec(Replay([], h, ttl, size), key, now, ttl).1.Some?
  }

  /** A Get hits exactly when the key is held and its last Set is younger than the ttl. */
  lemma HitsIff<V>(h: seq<Op<V>>, key: string, now: int, ttl: int, size: int)
    ensures Hits(h, key, now, ttl, size) <==>
      HasKey(Replay([], h, ttl, size), key) && LastSet(h, key).Some? && now - LastSet(h, key).value.1 < ttl
  {
    var s := Replay([], h, ttl, size);
    if HasKey(s, key) { HoldsLastValue(h, ttl, size, s[Index(s, key)]); }
  }

  /** A Get that misses leaves nothing under the key. */
  lemma MissIsGone<V>(h: seq<Op<V>>, key: string, now: int, ttl: int, size: int)
    requires !Hits(h, key, now, ttl, size)
    ensures !HasKey(Replay([], h + [Get(key, now)], ttl, size), key)
  {
    assert (h + [Get(key, now)])[..|h|] == h;
    ReplayWellFormed([], h, ttl, size);
    DropFacts(Replay([], h, ttl, size), key);
  }

  /** The operation, after this history, is a use of its key: it sets it or hits it. */
  predicate Uses<V>(h: seq<Op<V>>, op: Op<V>, ttl: int, size: int) {
    (op.Set? && size >= 1) || (op.Get? && Hits(h, op.key, op.now, ttl, size))
  }

  lemma UsedIsLast<V>(h: seq<Op<V>>, op: Op<V>, ttl: int, size: int)
    requires Uses(h, op, ttl, size)
    ensures var s := Replay([], h + [op], ttl, size);
      && WellFormed(s, size) && s != [] && s[|s| - 1].key == op.key
      && LastSet(h + [op], op.key) == Some((s[|s| - 1].value, s[|s| - 1].added))
  {
    assert (h + [op])[..|h|] == h;
    ReplayWellFormed([], h + [op], ttl, size);
    var s := Replay([], h + [op], ttl, size);
    HoldsLastValue(h + [op], ttl, size, s[|s| - 1]);
  }

  /**
   Whether it was set or read last, a key keeps its entry through any further operations on fewer than
   `size` other keys.
   */
  lemma UsedSurvives<V>(h: seq<Op<V>>, op: Op<V>, more: seq<Op<V>>, ttl: int, size: int)
    requires Uses(h, op, ttl, size) && op.key !in Keys(more) && |Keys(more)| < size
    ensures var last := LastSet(h + [op], op.key);
      last.Some? && Entry(op.key, last.value.0, last.value.1) in Replay([], h + [op] + more, ttl, size)
  {
    UsedIsLast(h, op, ttl, size);
    ReplayConcat([], h + [op], more, ttl, size);
    var s := Replay([], h + [op], ttl, size);
    SurvivesFewOthers(s, more, ttl, size);
    assert s[|s| - 1] == Entry(op.key, s[|s| - 1].value, s[|s| - 1].added);
  }

  /** ... and through Sets of other keys exactly then. */
  lemma UsedSurvivesIff<V>(h: seq<Op<V>>, op: Op<V>, more: seq<Op<V>>, ttl: int, size: int)
    requires Uses(h, op, ttl, size) && op.key !in Keys(more) && forall i | 0 <= i < |more| :: more[i].Set?
    ensures HasKey(Replay([], h + [op] + more, ttl, size), op.key) <==> |Keys(more)| < size
  {
    UsedIsLast(h, op, ttl, size);
    ReplayConcat([], h + [op], more, ttl, size);
    SurvivesIff(Replay([], h + [op], ttl, size), more, ttl, size);
  }

  // --- the cache itself -------------------------------------------------------------------------

  datatype Cell<V> = Cell(value: V, added: int)

  /** The entries in the order of the evict list. */
  ghost function ViewOf<V>(cells: map<string, Cell<V>>, order: seq<string>): Recency<V>
    requires forall i | 0 <= i < |order| :: order[i] in cells
  {
    seq(|order|, i requires 0 <= i < |order| => Entry(order[i], cells[order[i]].value, cells[order[i]].added))
  }

  ghost predicate Distinct(order: seq<string>) {
    forall i, j | 0 <= i < j < |order| :: order[i] != order[j]
  }

  /** The evict list lists exactly the cached keys, each once. */
  ghost predicate Coherent<V>(cells: map<string, Cell<V>>, order: seq<string>) {
    && Distinct(order)
    && (forall i | 0 <= i < |order| :: order[i] in cells)
    && (forall k | k in cells :: k in order)
    && |cells| == |order|
  }

  /** What a walk that removes the first element with this key leaves; it stopped at d. */
  ghost predicate Removed(before: seq<string>, key: string, d: nat, after: seq<string>) {
    if d < |before| then before[d] == key && after == RemoveAt(before, d) else key !in before && after == before
  }

  lemma DistinctView<V>(cells: map<string, Cell<V>>, order: seq<string>)
    requires Coherent(cells, order)
    ensures DistinctKeys(ViewOf(cells, order))
  {
  }

  lemma ViewHas<V>(cells: map<string, Cell<V>>, order: seq<string>, key: string)
    requires Coherent(cells, order)
    ensures HasKey(ViewOf(cells, order), key) <==> key in cells
  {
    var v := ViewOf(cells, order);
    if key in cells {
      var i :| 0 <= i < |order| && order[i] == key;
      assert v[i].key == key;
    }
    if HasKey(v, key) { assert order[Index(v, key)] == key; }
  }

  lemma DropIsRemoveAt<V>(v: Recency<V>, d: nat)
    requires DistinctKeys(v) && d < |v|
    ensures Drop(v, v[d].key) == RemoveAt(v, d)
  {
  }

  lemma RemovedView<V>(cells: map<string, Cell<V>>, order: seq<string>, key: string, d: nat, after: seq<string>)
    requires Coherent(cells, order) && Removed(order, key, d, after)
    ensures Coherent(cells - {key}, after) && |after| <= |order|
    ensures ViewOf(cells - {key}, after) == Drop(ViewOf(cells, order), key)
  {
    if d < |order| {
      DistinctView(cells, order);
      RemovedCoherent(cells, order, d);
      RemovedAt(cells, order, d);
      assert ViewOf(cells, order)[d].key == key;
      DropIsRemoveAt(ViewOf(cells, order), d);
    } else {
      ViewHas(cells, order, key);
      assert cells - {key} == cells;
    }
  }

  lemma RemovedAt<V>(cells: map<string, Cell<V>>, order: seq<string>, d: nat)
    requires Coherent(cells, order) && d < |order|
    requires Coherent(cells - {order[d]}, RemoveAt(order, d))
    ensures ViewOf(cells - {order[d]}, RemoveAt(order, d)) == RemoveAt(ViewOf(cells, order), d)
  {
    var after := RemoveAt(order, d);
    var v, w := ViewOf(cells, order), ViewOf(cells - {order[d]}, after);
    assert |w| == |RemoveAt(v, d)|;
    forall i | 0 <= i < |w| ensures w[i] == RemoveAt(v, d)[i] {
      assert after[i] == order[if i < d then i else i + 1];
    }
  }

  lemma RemovedCoherent<V>(cells: map<string, Cell<V>>, order: seq<string>, d: nat)
    requires Coherent(cells, order) && d < |order|
    ensures Coherent(cells - {order[d]}, RemoveAt(order, d))
  {
  }

  lemma PushedView<V>(cells: map<string, Cell<V>>, order: seq<string>, key: string, cell: Cell<V>)
    requires Coherent(cells, order) && key !in cells
    ensures Coherent(cells[key := cell], order + [key])
    ensures ViewOf(cells[key := cell], order + [key]) == ViewOf(cells, order) + [Entry(key, cell.value, cell.added)]
  {
  }

  /** Removing a key and pushing it again: what both a hit and a Set do to the two structures. */
  lemma Repushed<V>(cells: map<string, Cell<V>>, order: seq<string>, key: string, d: nat, rest: seq<string>, cell: Cell<V>)
    requires Coherent(cells, order) && Removed(order, key, d, rest)
    ensures Coherent(cells[key := cell], rest + [key])
    ensures ViewOf(cells[key := cell], rest + [key])
         == Drop(ViewOf(cells, order), key) + [Entry(key, cell.value, cell.added)]
  {
    PutBack(cells, key, cell);
    RemovedView(cells, order, key, d, rest);
    var left := cells - {key};
    assert key !in left;
    PushedView(left, rest, key, cell);
  }

  lemma PutBack<V>(cells: map<string, Cell<V>>, key: string, cell: Cell<V>)
    ensures (cells - {key})[key := cell] == cells[key := cell]
  {
  }

  lemma SameCell<V>(cells: map<string, Cell<V>>, key: string)
    requires key in cells
    ensures cells[key := cells[key]] == cells
  {
  }

  class Cache<V> {
    var cache: map<string, Cell<V>>
    var evictList: seq<string>
    const size: int
    const ttl: int

    ghost predicate Valid() reads this {
      Coherent(cache, evictList) && |evictList| <= (if size < 0 then 0 else size)
    }

    ghost function View(): Recency<V>
      requires Valid()
      reads this
    {
      ViewOf(cache, evictList)
    }

    constructor (size: int, ttl: int)
      ensures Valid() && View() == [] && this.size == size && this.ttl == ttl
    {
      cache, evictList := map[], [];
      this.size, this.ttl := size, ttl;
    }

    /** The time is read once, by the staleness test. */
    method Get(key: string, now: int) returns (value: Option<V>)
      requires Valid()
      modifies this
      ensures Valid()
      ensures (View(), value) == GetSpec(old(View()), key, now, ttl)
    {
      ViewHas(cache, evictList, key);
      if key !in cache { return None; }
      ghost var s := View();
      var cell := cache[key];
      assert s[Index(s, key)] == Entry(key, cell.value, cell.added);
      var live := EvictStale(cell, key, now);
      if !live { return None; }
      UpdateAccessed(key);
      return Some(cell.value);
    }

    method Set(key: string, value: V, now: int)
      requires Valid()
      modifies this
      ensures Valid()
      ensures View() == SetSpec(old(View()), key, value, now, size)
    {
      ghost var cells, order := cache, evictList;
      cache := cache[key := Cell(value, now)];
      ghost var d := RemoveFromEvictList(key);
      Repushed(cells, order, key, d, evictList, Cell(value, now));
      evictList := evictList + [key];
      PurgeSize();
    }

    method Delete(key: string)
      requires Valid()
      modifies this
      ensures Valid()
      ensures View() == Drop(old(View()), key)
    {
      ghost var d := RemoveFromEvictList(key);
      RemovedView(cache, old(evictList), key, d, evictList);
      cache := cache - {key};
    }

    /** Walks the list to the key and moves its element to the back. */
    method UpdateAccessed(key: string)
      requires Valid() && key in cache
      modifies this`evictList
      ensures Valid()
      ensures View() == Drop(old(View()), key) + [Entry(key, cache[key].value, cache[key].added)]
    {
      var i := Position(key);
      var rest := RemoveAt(evictList, i);
      Repushed(cache, evictList, key, i, rest, cache[key]);
      SameCell(cache, key);
      evictList := rest + [key];
    }

    /** Walks the list from the front to the key. */
    method Position(key: string) returns (i: nat)
      requires key in evictList
      ensures i < |evictList| && evictList[i] == key
    {
      i := 0;
      while evictList[i] != key
        invariant i < |evictList| && key in evictList[i..]
        decreases |evictList| - i
      {
        assert key in evictList[i..][1..];
        i := i + 1;
      }
    }

    method RemoveFromEvictList(key: string) returns (ghost d: nat)
      modifies this`evictList
      ensures Removed(old(evictList), key, d, evictList)
    {
      var i := 0;
      while i < |evictList|
        invariant 0 <= i <= |evictList| && evictList == old(evictList)
        invariant key !in evictList[..i]
      {
        if evictList[i] == key {
          evictList := RemoveAt(evictList, i);
          return i;
        }
        i := i + 1;
      }
      return |evictList|;
    }

    method EvictStale(cell: Cell<V>, key: string, now: int) returns (ok: bool)
      requires Valid() && key in cache && cache[key] == cell
      modifies this
      ensures Valid() && (ok <==> now - cell.added < ttl)
      ensures ok ==> cache == old(cache) && View() == old(View())
      ensures !ok ==> View() == Drop(old(View()), key)
    {
      if now - cell.added >= ttl {
        Delete(key);
        return false;
      }
      return true;
    }

    /**
     Evicts from the front while the cache is too large. A removed list element has no successor, so
     the walk ends after one eviction; one is enough, because Set adds at most one entry.
     */
    method PurgeSize()
      requires Coherent(cache, evictList)
      modifies this
      ensures Coherent(cache, evictList)
      ensures var s := old(ViewOf(cache, evictList));
              ViewOf(cache, evictList) == if |s| <= size || s == [] then s else s[1..]
    {
      var elem := if evictList == [] then None else Some(evictList[0]);
      ghost var cells, order := cache, evictList;
      while elem.Some?
        invariant elem.Some? ==> cache == cells && evictList == order && order != [] && elem.value == order[0]
        invariant elem.None? && order == [] ==> cache == cells && evictList == order
        invariant elem.None? && order != [] ==> |order| > size && cache == cells - {order[0]} && evictList == RemoveAt(order, 0)
        decreases if elem.Some? then 1 else 0
      {
        if |cache| <= size { return; }
        var key := elem.value;
        evictList := evictList[1..];
        cache := cache - {key};
        assert RemoveAt(order, 0) == order[1..];
        elem := None;
      }
      if order != [] {
        RemovedCoherent(cells, order, 0);
        RemovedAt(cells, order, 0);
      }
    }
  }
}
