/** The governed memory: a store keyed by strings, a store keyed by tuples,
    their write gates, ranking and decay. */
module Memory {
  import opened Prelude
  import opened Rounding

  datatype MemoryType = Episodic | Semantic | Procedural | Working

  datatype Scope = Agent | Team | Global

  /** Content is what the stores look at: the words of its values. */
  datatype Item<C> = Item(
    namespace: string, entityKey: string, memoryType: MemoryType, content: C, words: set<string>, scope: Scope,
    trust: real, decay: real, verified: bool, createdAt: real, lastAccessed: real)

  datatype TupleKey = TupleKey(namespace: string, entityKey: string, memoryType: MemoryType)

  const MIN_SEMANTIC_TRUST: real := 0.6
  const DECAY_TOLERANCE: real := 0.0001

  function TypeName(t: MemoryType): string {
    match t
    case Episodic => "episodic"
    case Semantic => "semantic"
    case Procedural => "procedural"
    case Working => "working"
  }

  function TupleOf<C>(item: Item<C>): TupleKey {
    TupleKey(item.namespace, item.entityKey, item.memoryType)
  }

  function StringKey(key: TupleKey): string {
    key.namespace + ":" + key.entityKey + ":" + TypeName(key.memoryType)
  }

  // ------------------------------------------------------------------- keys

  predicate ColonFree(s: string) {
    ':' !in s
  }

  /** Two splits at a colon behind colon-free heads are the same split. */
  lemma FirstColon(a: string, x: string, b: string, y: string)
    requires ColonFree(a) && ColonFree(b)
    requires a + ":" + x == b + ":" + y
    ensures a == b && x == y
  {
    var s, t := a + ":" + x, b + ":" + y;
    assert s[|a|] == ':' && t[|b|] == ':';
    assert s[..|a|] == a && t[..|b|] == b;
    assert s[|a| + 1..] == x && t[|b| + 1..] == y;
  }

  /** The same from the other end. */
  lemma LastColon(a: string, x: string, b: string, y: string)
    requires ColonFree(x) && ColonFree(y)
    requires a + ":" + x == b + ":" + y
    ensures a == b && x == y
  {
    var s, t := a + ":" + x, b + ":" + y;
    assert s[|a|] == ':' && t[|b|] == ':';
    assert s[..|a|] == a && t[..|b|] == b;
    assert s[|a| + 1..] == x && t[|b| + 1..] == y;
  }

  lemma TypeNamesDiffer(t: MemoryType, u: MemoryType)
    ensures ColonFree(TypeName(t))
    ensures TypeName(t) == TypeName(u) <==> t == u
  {
    assert TypeName(Episodic)[0] == 'e' && TypeName(Semantic)[0] == 's';
    assert TypeName(Procedural)[0] == 'p' && TypeName(Working)[0] == 'w';
  }

  /** Neither namespace, followed by a colon, begins the other. */
  predicate Separate(n: string, m: string) {
    n == m || !(n + ":" <= m || m + ":" <= n)
  }

  lemma LongerExtends(n: string, x: string, m: string, y: string)
    requires n + ":" + x == m + ":" + y && |n| < |m|
    ensures n + ":" <= m
  {
    var s := n + ":" + x;
    assert s[..|n| + 1] == n + ":";
    assert s[..|m|] == m;
  }

  /** On separate namespaces the string key identifies the tuple, although
      entity keys may contain colons. */
  lemma StringKeyInjective(a: TupleKey, b: TupleKey)
    requires Separate(a.namespace, b.namespace)
    ensures StringKey(a) == StringKey(b) <==> a == b
  {
    if StringKey(a) == StringKey(b) {
      var n, x, m, y := a.namespace, a.entityKey, b.namespace, b.entityKey;
      TypeNamesDiffer(a.memoryType, b.memoryType);
      TypeNamesDiffer(b.memoryType, a.memoryType);
      LastColon(n + ":" + x, TypeName(a.memoryType), m + ":" + y, TypeName(b.memoryType));
      if |n| < |m| {
        LongerExtends(n, x, m, y);
      } else if |m| < |n| {
        LongerExtends(m, y, n, x);
      } else {
        assert (n + ":" + x)[..|n|] == n && (m + ":" + y)[..|m|] == m;
        assert (n + ":" + x)[|n| + 1..] == x && (m + ":" + y)[|m| + 1..] == y;
      }
    }
  }

  /** Two namespaces admit the same string key exactly when one of them,
      followed by a colon, begins the other. */
  lemma NamespacesClashIff(n: string, m: string)
    requires n != m
    ensures (exists a: TupleKey, b: TupleKey :: a.namespace == n && b.namespace == m && StringKey(a) == StringKey(b)) <==>
              n + ":" <= m || m + ":" <= n
  {
    if n + ":" <= m {
      var a, b := Clash(n, m);
    } else if m + ":" <= n {
      var a, b := Clash(m, n);
    } else {
      forall a: TupleKey, b: TupleKey | a.namespace == n && b.namespace == m ensures StringKey(a) != StringKey(b) {
        StringKeyInjective(a, b);
      }
    }
  }

  lemma Clash(n: string, m: string) returns (a: TupleKey, b: TupleKey)
    requires n + ":" <= m
    ensures a.namespace == n && b.namespace == m && StringKey(a) == StringKey(b)
  {
    var rest := m[|n| + 1..];
    a, b := TupleKey(n, rest + ":" + "e", Working), TupleKey(m, "e", Working);
    assert m == n + ":" + rest;
    assert n + ":" + (rest + ":" + "e") + ":" + TypeName(Working) == n + ":" + rest + ":" + "e" + ":" + TypeName(Working);
  }

  lemma StringKeyCollides()
    ensures exists a, b :: a != b && StringKey(a) == StringKey(b)
  {
    var a, b := Clash("a", "a:b");
    assert a.namespace[1..] == "" && b.namespace[1..] == ":b";
  }

  // ------------------------------------------------------- the two stores

  /** The write gate; `taken` says whether the key already has an item. */
  predicate Admits<C>(item: Item<C>, taken: bool) {
    && (item.memoryType == Semantic ==> item.trust >= MIN_SEMANTIC_TRUST)
    && (item.memoryType == Episodic ==> !taken)
  }

  function PutByString<C>(items: map<string, Item<C>>, item: Item<C>): map<string, Item<C>> {
    if Admits(item, StringKey(TupleOf(item)) in items) then items[StringKey(TupleOf(item)) := item] else items
  }

  /** On conflict every column but the creation time is replaced. */
  function Merged<C>(rows: map<TupleKey, Item<C>>, item: Item<C>): Item<C> {
    if TupleOf(item) in rows then item.(createdAt := rows[TupleOf(item)].createdAt) else item
  }

  function PutByTuple<C>(rows: map<TupleKey, Item<C>>, item: Item<C>): map<TupleKey, Item<C>> {
    if Admits(item, TupleOf(item) in rows) then rows[TupleOf(item) := Merged(rows, item)] else rows
  }

  /** A history of validated writes. */
  function ByString<C>(writes: seq<Item<C>>): map<string, Item<C>> {
    if writes == [] then map[] else PutByString(ByString(writes[..|writes| - 1]), writes[|writes| - 1])
  }

  function ByTuple<C>(writes: seq<Item<C>>): map<TupleKey, Item<C>> {
    if writes == [] then map[] else PutByTuple(ByTuple(writes[..|writes| - 1]), writes[|writes| - 1])
  }

  ghost predicate SameButBirth<C>(a: Item<C>, b: Item<C>) {
    a.(createdAt := 0.0) == b.(createdAt := 0.0)
  }

  /** The rows' namespaces are separate from this one. */
  ghost predicate SeparateRows<C>(rows: map<TupleKey, Item<C>>, namespace: string) {
    forall key :: key in rows ==> Separate(key.namespace, namespace)
  }

  /** Both stores hold the same items under corresponding keys. */
  ghost predicate Agree<C>(items: map<string, Item<C>>, rows: map<TupleKey, Item<C>>) {
    && (forall key :: key in rows ==> StringKey(key) in items && SameButBirth(items[StringKey(key)], rows[key]))
    && (forall s :: s in items ==> StringKey(TupleOf(items[s])) == s && TupleOf(items[s]) in rows)
  }

  lemma PutAgrees<C>(items: map<string, Item<C>>, rows: map<TupleKey, Item<C>>, item: Item<C>)
    requires Agree(items, rows) && SeparateRows(rows, item.namespace)
    ensures StringKey(TupleOf(item)) in items <==> TupleOf(item) in rows
    ensures Agree(PutByString(items, item), PutByTuple(rows, item))
  {
    var key := TupleOf(item);
    forall other | other in rows ensures StringKey(other) == StringKey(key) <==> other == key {
      StringKeyInjective(other, key);
    }
    if StringKey(key) in items {
      assert TupleOf(items[StringKey(key)]) in rows;
    }
    var items', rows' := PutByString(items, item), PutByTuple(rows, item);
    forall s | s in items' ensures StringKey(TupleOf(items'[s])) == s && TupleOf(items'[s]) in rows' {
      if s != StringKey(key) || items' == items {
        assert s in items && items'[s] == items[s];
      }
    }
  }

  lemma {:induction false} RowsWereWritten<C>(writes: seq<Item<C>>, key: TupleKey)
    requires key in ByTuple(writes)
    ensures exists i :: 0 <= i < |writes| && TupleOf(writes[i]) == key
    decreases |writes|
  {
    var n := |writes| - 1;
    if key in ByTuple(writes[..n]) {
      RowsWereWritten(writes[..n], key);
      var i :| 0 <= i < n && TupleOf(writes[..n][i]) == key;
      assert TupleOf(writes[i]) == key;
    } else {
      assert TupleOf(writes[n]) == key;
    }
  }

  lemma WrittenSeparate<C>(writes: seq<Item<C>>, namespace: string)
    requires forall i :: 0 <= i < |writes| ==> Separate(writes[i].namespace, namespace)
    ensures SeparateRows(ByTuple(writes), namespace)
  {
    forall key | key in ByTuple(writes) ensures Separate(key.namespace, namespace) {
      RowsWereWritten(writes, key);
    }
  }

  lemma {:induction false} SeparateWritesAgree<C>(writes: seq<Item<C>>)
    requires forall i, j :: 0 <= i < |writes| && 0 <= j < |writes| ==> Separate(writes[i].namespace, writes[j].namespace)
    ensures Agree(ByString(writes), ByTuple(writes))
    decreases |writes|
  {
    if writes != [] {
      var n := |writes| - 1;
      assert forall i :: 0 <= i < n ==> writes[..n][i] == writes[i];
      SeparateWritesAgree(writes[..n]);
      WrittenSeparate(writes[..n], writes[n].namespace);
      PutAgrees(ByString(writes[..n]), ByTuple(writes[..n]), writes[n]);
    }
  }

  /** Over any history of validated writes to pairwise separate namespaces the
      two stores accept the same writes and hold the same items. */
  lemma {:induction false} StoresAgree<C>(writes: seq<Item<C>>)
    requires forall i, j :: 0 <= i < |writes| && 0 <= j < |writes| ==> Separate(writes[i].namespace, writes[j].namespace)
    ensures Agree(ByString(writes), ByTuple(writes))
    ensures forall item: Item<C> :: (forall i :: 0 <= i < |writes| ==> Separate(writes[i].namespace, item.namespace)) ==>
              (Admits(item, StringKey(TupleOf(item)) in ByString(writes)) <==>
               Admits(item, TupleOf(item) in ByTuple(writes)))
  {
    SeparateWritesAgree(writes);
    forall item: Item<C> | forall i :: 0 <= i < |writes| ==> Separate(writes[i].namespace, item.namespace)
      ensures StringKey(TupleOf(item)) in ByString(writes) <==> TupleOf(item) in ByTuple(writes)
    {
      WrittenSeparate(writes, item.namespace);
      PutAgrees(ByString(writes), ByTuple(writes), item);
    }
  }

  /** Every history of writes to two namespaces leaves the stores in agreement
      exactly when the namespaces are separate. */
  lemma StoresAgreeIff<C>(n: string, m: string, content: C)
    ensures (forall writes: seq<Item<C>> :: (forall i :: 0 <= i < |writes| ==> writes[i].namespace in {n, m}) ==>
              Agree(ByString(writes), ByTuple(writes))) <==>
            Separate(n, m)
  {
    if Separate(n, m) {
      forall writes: seq<Item<C>> | forall i :: 0 <= i < |writes| ==> writes[i].namespace in {n, m}
        ensures Agree(ByString(writes), ByTuple(writes))
      {
        StoresAgree(writes);
      }
    } else {
      NamespacesClashIff(n, m);
      var a: TupleKey, b: TupleKey :| a.namespace == n && b.namespace == m && StringKey(a) == StringKey(b);
      var writes := ClashingWrites(a, b, content);
      assert forall i :: 0 <= i < |writes| ==> writes[i].namespace in {n, m};
    }
  }

  /** The second write replaces the first in one store and joins it in the other. */
  lemma ClashingWrites<C>(a: TupleKey, b: TupleKey, content: C) returns (writes: seq<Item<C>>)
    requires a != b && StringKey(a) == StringKey(b)
    ensures |writes| == 2 && TupleOf(writes[0]) == a && TupleOf(writes[1]) == b
    ensures !Agree(ByString(writes), ByTuple(writes))
  {
    var x := Item(a.namespace, a.entityKey, a.memoryType, content, {}, Team, 1.0, 1.0, true, 0.0, 0.0);
    var y := Item(b.namespace, b.entityKey, b.memoryType, content, {}, Team, 1.0, 1.0, true, 0.0, 0.0);
    SameKeySameType(a, b);
    writes := [x, y];
    assert writes[..1] == [x] && [x][..0] == [];
    assert ByTuple([x]) == map[a := x] && ByString([x]) == map[StringKey(a) := x];
    assert a in ByTuple(writes);
    if a.memoryType == Episodic {
      assert ByString(writes) == map[StringKey(a) := x] && b in ByTuple(writes);
      assert TupleOf(ByString(writes)[StringKey(b)]) == a;
    } else {
      assert ByString(writes)[StringKey(a)] == y && TupleOf(y) == b;
    }
  }

  /** The string key ends with the type, so the type is not lost. */
  lemma SameKeySameType(a: TupleKey, b: TupleKey)
    requires StringKey(a) == StringKey(b)
    ensures a.memoryType == b.memoryType
  {
    TypeNamesDiffer(a.memoryType, b.memoryType);
    TypeNamesDiffer(b.memoryType, a.memoryType);
    LastColon(a.namespace + ":" + a.entityKey, TypeName(a.memoryType), b.namespace + ":" + b.entityKey, TypeName(b.memoryType));
  }

  /** Whatever is written later, an episodic item stays as it is, and every
      semantic item was trusted. */
  lemma {:induction false} GatedHistory<C>(writes: seq<Item<C>>, later: seq<Item<C>>)
    ensures forall key :: key in ByTuple(writes) && key.memoryType == Episodic ==>
              key in ByTuple(writes + later) && ByTuple(writes + later)[key] == ByTuple(writes)[key]
    ensures forall key :: key in ByTuple(writes + later) ==>
              && TupleOf(ByTuple(writes + later)[key]) == key
              && (key.memoryType == Semantic ==> ByTuple(writes + later)[key].trust >= MIN_SEMANTIC_TRUST)
    decreases |writes| + |later|
  {
    if later != [] {
      var n := |later| - 1;
      assert (writes + later)[..|writes + later| - 1] == writes + later[..n];
      GatedHistory(writes, later[..n]);
    } else {
      assert writes + later == writes;
      if writes != [] {
        var front := writes[..|writes| - 1];
        GatedHistory(front, []);
        assert front + [] == front;
      }
    }
  }

  /** The same of the in-memory store, whatever the namespaces. */
  lemma {:induction false} GatedHistoryByString<C>(writes: seq<Item<C>>, later: seq<Item<C>>)
    ensures forall s :: s in ByString(writes) && ByString(writes)[s].memoryType == Episodic ==>
              s in ByString(writes + later) && ByString(writes + later)[s] == ByString(writes)[s]
    ensures forall s :: s in ByString(writes + later) ==>
              var item := ByString(writes + later)[s];
              StringKey(TupleOf(item)) == s && (item.memoryType == Semantic ==> item.trust >= MIN_SEMANTIC_TRUST)
    decreases |writes| + |later|
  {
    if later != [] {
      var n := |later| - 1;
      assert (writes + later)[..|writes + later| - 1] == writes + later[..n];
      GatedHistoryByString(writes, later[..n]);
      PutKeepsEpisodic(ByString(writes + later[..n]), later[n]);
    } else {
      assert writes + later == writes;
      if writes != [] {
        var front := writes[..|writes| - 1];
        GatedHistoryByString(front, []);
        assert front + [] == front;
      }
    }
  }

  lemma PutKeepsEpisodic<C>(items: map<string, Item<C>>, item: Item<C>)
    requires forall s :: s in items ==> StringKey(TupleOf(items[s])) == s
    ensures forall s :: s in items && items[s].memoryType == Episodic ==>
              s in PutByString(items, item) && PutByString(items, item)[s] == items[s]
  {
    var key := StringKey(TupleOf(item));
    if key in items {
      SameKeySameType(TupleOf(items[key]), TupleOf(item));
    }
  }

  // ------------------------------------------------------------------ decay

  /** The weight is any function of the time since the last access. */
  function WeightOf<C>(item: Item<C>, weight: real -> real, now: real): real {
    weight(now - item.lastAccessed)
  }

  function Distance(a: real, b: real): real {
    if a < b then b - a else a - b
  }

  /** In memory the exact weight is compared, and the rounded one stored. */
  predicate Drifted<C>(item: Item<C>, weight: real -> real, now: real) {
    Distance(WeightOf(item, weight, now), item.decay) > DECAY_TOLERANCE
  }

  function Decayed<C>(item: Item<C>, weight: real -> real, now: real): Item<C> {
    if Drifted(item, weight, now) then item.(decay := Round4(WeightOf(item, weight, now))) else item
  }

  /** How many of the listed items have drifted. */
  function DriftCount<C>(items: map<string, Item<C>>, keys: seq<string>, weight: real -> real, now: real): nat {
    if keys == [] then 0
    else
      var n := |keys| - 1;
      DriftCount(items, keys[..n], weight, now) +
      if keys[n] in items && Drifted(items[keys[n]], weight, now) then 1 else 0
  }

  /** The store with the listed items decayed. */
  function DecayedOn<C>(items: map<string, Item<C>>, keys: seq<string>, weight: real -> real, now: real): map<string, Item<C>> {
    map s | s in items :: if s in keys then Decayed(items[s], weight, now) else items[s]
  }

  lemma DecayedOnSnoc<C>(items: map<string, Item<C>>, keys: seq<string>, key: string, weight: real -> real, now: real)
    requires key in items
    ensures DecayedOn(items, keys + [key], weight, now) ==
              DecayedOn(items, keys, weight, now)[key := Decayed(items[key], weight, now)]
    ensures key !in keys && !Drifted(items[key], weight, now) ==>
              DecayedOn(items, keys + [key], weight, now) == DecayedOn(items, keys, weight, now)
    ensures DriftCount(items, keys + [key], weight, now) ==
              DriftCount(items, keys, weight, now) + if Drifted(items[key], weight, now) then 1 else 0
  {
    assert (keys + [key])[..|keys|] == keys;
  }

  /** One turn of the loop, on the items as decayed so far. */
  lemma DecayTurn<C>(was: map<string, Item<C>>, order: seq<string>, i: nat, weight: real -> real, now: real)
    requires i < |order| && Distinct(order) && order[i] in was
    ensures var items, key := DecayedOn(was, order[..i], weight, now), order[i];
            && key in items && items[key] == was[key]
            && DecayedOn(was, order[..i + 1], weight, now) ==
                 (if Drifted(items[key], weight, now) then items[key := Decayed(items[key], weight, now)] else items)
    ensures DriftCount(was, order[..i + 1], weight, now) ==
              DriftCount(was, order[..i], weight, now) + if Drifted(was[order[i]], weight, now) then 1 else 0
  {
    assert order[..i + 1] == order[..i] + [order[i]] && order[i] !in order[..i];
    DecayedOnSnoc(was, order[..i], order[i], weight, now);
  }

  lemma DecayStarts<C>(items: map<string, Item<C>>, order: seq<string>, weight: real -> real, now: real)
    ensures DecayedOn(items, order[..0], weight, now) == items && DriftCount(items, order[..0], weight, now) == 0
  {
  }

  lemma DecayEnds<C>(items: map<string, Item<C>>, order: seq<string>, weight: real -> real, now: real)
    requires forall s :: s in items ==> s in order
    ensures DecayedOn(items, order, weight, now) == map s | s in items :: Decayed(items[s], weight, now)
  {
  }

  lemma DecayKeepsKeys<C>(items: map<string, Item<C>>, keys: seq<string>, weight: real -> real, now: real)
    ensures forall s :: s in items ==> TupleOf(DecayedOn(items, keys, weight, now)[s]) == TupleOf(items[s])
  {
  }

  /** In the table the rounded weight is compared and stored. */
  predicate RowDrifted<C>(item: Item<C>, weight: real -> real, now: real) {
    Distance(Round4(WeightOf(item, weight, now)), item.decay) > DECAY_TOLERANCE
  }

  function RowDecayed<C>(item: Item<C>, weight: real -> real, now: real): Item<C> {
    if RowDrifted(item, weight, now) then item.(decay := Round4(WeightOf(item, weight, now))) else item
  }

  /** The table with every row decayed that is not left to do. */
  function RowsDecayedBut<C>(rows: map<TupleKey, Item<C>>, left: set<TupleKey>, weight: real -> real, now: real):
    map<TupleKey, Item<C>>
  {
    map key | key in rows :: if key in left then rows[key] else RowDecayed(rows[key], weight, now)
  }

  ghost function DriftedRows<C>(rows: map<TupleKey, Item<C>>, weight: real -> real, now: real): set<TupleKey> {
    set key | key in rows && RowDrifted(rows[key], weight, now)
  }

  lemma RowsDecayedStep<C>(rows: map<TupleKey, Item<C>>, left: set<TupleKey>, key: TupleKey, weight: real -> real, now: real)
    requires key in left && left <= rows.Keys
    ensures RowsDecayedBut(rows, left - {key}, weight, now) ==
              if RowDrifted(rows[key], weight, now) then
                RowsDecayedBut(rows, left, weight, now)[key := RowDecayed(rows[key], weight, now)]
              else RowsDecayedBut(rows, left, weight, now)
    ensures |DriftedRows(rows, weight, now) - (left - {key})| ==
              |DriftedRows(rows, weight, now) - left| + if RowDrifted(rows[key], weight, now) then 1 else 0
  {
    var drifted := DriftedRows(rows, weight, now);
    assert drifted - (left - {key}) == (drifted - left) + if key in drifted then {key} else {};
  }

  lemma RowsDecayedEnds<C>(rows: map<TupleKey, Item<C>>, weight: real -> real, now: real)
    ensures RowsDecayedBut(rows, rows.Keys, weight, now) == rows
    ensures RowsDecayedBut(rows, {}, weight, now) == map key | key in rows :: RowDecayed(rows[key], weight, now)
  {
  }

  /** At a fixed clock a second pass finds nothing to update, in either store:
      rounding to four digits moves a weight by at most half the tolerance. */
  lemma DecaySettles<C>(item: Item<C>, weight: real -> real, now: real)
    ensures !Drifted(Decayed(item, weight, now), weight, now)
    ensures !RowDrifted(RowDecayed(item, weight, now), weight, now)
  {
    Round4Close(WeightOf(item, weight, now));
  }

  /** Four decimals. */
  ghost predicate FourDecimals(x: real) {
    x * 10000.0 == (x * 10000.0).Floor as real
  }

  /** What a pass does to an item: one whose weight is off by more than the
      tolerance gets the weight rounded to four decimals, any other none. */
  lemma DecayedTells<C>(item: Item<C>, weight: real -> real, now: real)
    ensures var exact, after := weight(now - item.lastAccessed), Decayed(item, weight, now);
            && after.(decay := item.decay) == item
            && if item.decay - exact > 0.0001 || exact - item.decay > 0.0001
               then FourDecimals(after.decay) && -0.00005 <= after.decay - exact <= 0.00005 else after == item
  {
    Round4Tells(WeightOf(item, weight, now));
  }

  /** In the table: what is no further off than the rounding is left, what is
      changed gets the rounded weight, and nothing ends further off than the
      tolerance and the rounding. */
  lemma RowDecayedTells<C>(item: Item<C>, weight: real -> real, now: real)
    ensures var exact, after := weight(now - item.lastAccessed), RowDecayed(item, weight, now);
            && after.(decay := item.decay) == item
            && (-0.00005 <= item.decay - exact <= 0.00005 ==> after == item)
            && (after != item ==> FourDecimals(after.decay) && -0.00005 <= after.decay - exact <= 0.00005)
            && -0.00015 <= after.decay - exact <= 0.00015
  {
    Round4Tells(WeightOf(item, weight, now));
  }

  lemma Round4Tells(x: real)
    ensures FourDecimals(Round4(x)) && -0.00005 <= Round4(x) - x <= 0.00005
  {
    Round4Close(x);
    var n := RoundHalfEven(x * 10000.0);
    assert Round4(x) * 10000.0 == n as real;
    assert (n as real).Floor == n;
  }

  lemma {:induction false} SecondPassIdle<C>(items: map<string, Item<C>>, keys: seq<string>, weight: real -> real, now: real)
    ensures DriftCount(map s | s in items :: Decayed(items[s], weight, now), keys, weight, now) == 0
    decreases |keys|
  {
    if keys != [] {
      var n := |keys| - 1;
      SecondPassIdle(items, keys[..n], weight, now);
      if keys[n] in items {
        DecaySettles(items[keys[n]], weight, now);
      }
    }
  }

  lemma SecondRowPassIdle<C>(rows: map<TupleKey, Item<C>>, weight: real -> real, now: real)
    ensures DriftedRows(map key | key in rows :: RowDecayed(rows[key], weight, now), weight, now) == {}
  {
    forall key | key in rows ensures !RowDrifted(RowDecayed(rows[key], weight, now), weight, now) {
      DecaySettles(rows[key], weight, now);
    }
  }

  // ----------------------------------------------------------------- search

  datatype Query = Query(
    words: set<string>, namespace: string, memoryType: Option<MemoryType>, k: nat, decayWeighted: bool,
    minTrust: real, scope: Option<Scope>)

  /** Shared words over all words. */
  function Similarity(query: set<string>, text: set<string>): real {
    if query == {} || text == {} then 0.0
    else
      assert |query + text| > 0 by { var w :| w in query; assert w in query + text; }
      |query * text| as real / |query + text| as real
  }

  function Score<C>(q: Query, item: Item<C>, weight: real -> real, now: real): real {
    var sim := Similarity(q.words, item.words);
    if q.decayWeighted then sim * WeightOf(item, weight, now) else sim
  }

  predicate Passes<C>(q: Query, item: Item<C>, weight: real -> real, now: real) {
    && q.namespace <= item.namespace
    && (q.memoryType.Some? ==> item.memoryType == q.memoryType.value)
    && item.trust >= q.minTrust
    && (q.scope.Some? ==> item.scope == q.scope.value)
    && Score(q, item, weight, now) > 0.0
  }

  /** Words of the item that the query does not have. */
  function Foreign(query: set<string>, text: set<string>): set<string> {
    text - query
  }

  lemma SmallerFactor(x: real, y: real, c: real)
    requires c > 0.0 && x * c < y * c
    ensures x < y
  {
  }

  lemma QuotientOrder(a: nat, b: nat, c: nat, d: nat)
    requires b > 0 && d > 0 && a as real * d as real < c as real * b as real
    ensures a as real / b as real < c as real / d as real
  {
    var x, y, bd := a as real / b as real, c as real / d as real, b as real * d as real;
    assert x * bd == x * b as real * d as real && y * bd == y * d as real * b as real;
    SmallerFactor(x, y, bd);
  }

  lemma SubsetSizes(a: set<string>, b: set<string>)
    requires a <= b
    ensures |a| <= |b| && (|a| == |b| <==> a == b)
  {
    assert b == a + (b - a) && a !! b - a;
    assert |b| == |a| + |b - a|;
  }

  lemma SharedIsAll(query: set<string>, text: set<string>)
    ensures query * text <= query + text
    ensures query * text == query + text <==> query == text
  {
    if query * text == query + text {
      assert forall w :: w in query ==> w in query + text;
      assert forall w :: w in text ==> w in query + text;
    }
  }

  /** Similarity is a fraction and symmetric, 0 exactly without a shared word,
      and 1 exactly for equal sets of words. */
  lemma SimilarityRange(query: set<string>, text: set<string>)
    ensures 0.0 <= Similarity(query, text) <= 1.0
    ensures Similarity(query, text) == Similarity(text, query)
    ensures Similarity(query, text) == 0.0 <==> query * text == {}
    ensures Similarity(query, text) == 1.0 <==> query == text && query != {}
  {
    assert query * text == text * query && query + text == text + query;
    if query != {} && text != {} {
      SharedIsAll(query, text);
      SubsetSizes(query * text, query + text);
      var w :| w in query;
      assert w in query + text;
      QuotientRange(|query * text|, |query + text|);
    }
  }

  /** The shared words are that fraction of the query's words and the foreign
      ones of the item. */
  lemma SimilarityIs(query: set<string>, text: set<string>)
    ensures Similarity(query, text) * (|query| + |Foreign(query, text)|) as real == |query * text| as real
  {
    assert query + text == query + Foreign(query, text) && |query + text| == |query| + |Foreign(query, text)|;
    if query == {} || text == {} {
      assert query * text == {};
    } else {
      var w :| w in query;
      assert w in query + text;
      QuotientBack(|query * text|, |query + text|);
    }
  }

  lemma QuotientBack(part: nat, whole: nat)
    requires whole > 0
    ensures part as real / whole as real * whole as real == part as real
  {
  }

  /** With decay a score is in proportion to the weight, and at weight 1 what it
      is without decay. */
  lemma ScoreScales<C>(q: Query, item: Item<C>, weight: real -> real, other: real -> real, c: real, now: real)
    requires q.decayWeighted && other(now - item.lastAccessed) == c * weight(now - item.lastAccessed)
    ensures Score(q, item, other, now) == c * Score(q, item, weight, now)
    ensures weight(now - item.lastAccessed) == 1.0 ==> Score(q, item, weight, now) == Score(q.(decayWeighted := false), item, weight, now)
    ensures Score(q.(decayWeighted := false), item, weight, now) == Similarity(q.words, item.words)
  {
  }

  lemma QuotientRange(part: nat, whole: nat)
    requires whole > 0 && part <= whole
    ensures 0.0 <= part as real / whole as real <= 1.0
    ensures part as real / whole as real == 0.0 <==> part == 0
    ensures part as real / whole as real == 1.0 <==> part == whole
  {
  }

  /** Of two items with the same shared words, at least one, the one with
      more foreign words is less similar. */
  lemma {:induction false} FewerForeign(query: set<string>, text: set<string>, other: set<string>)
    requires query * text == query * other != {} && |Foreign(query, text)| < |Foreign(query, other)|
    ensures Similarity(query, other) < Similarity(query, text)
  {
    assert query + text == query + Foreign(query, text) && query + other == query + Foreign(query, other);
    var a, b, d := |query * text|, |query + other|, |query + text|;
    assert d == |query| + |Foreign(query, text)| && b == |query| + |Foreign(query, other)|;
    var w :| w in query * text;
    assert query != {} && text != {} && other != {} by { assert w in query && w in text && w in query * other; }
    assert a > 0 && d > 0 by { assert w in query * text && w in query + text; }
    assert a as real * d as real < a as real * b as real;
    QuotientOrder(a, b, a, d);
  }

  /** One more shared word, or one more foreign word, and nothing else. */
  lemma ForeignWord(query: set<string>, text: set<string>, word: string)
    requires word !in text && word !in query && query * text != {}
    ensures Similarity(query, text + {word}) < Similarity(query, text)
  {
    assert query * (text + {word}) == query * text;
    assert Foreign(query, text + {word}) == Foreign(query, text) + {word};
    FewerForeign(query, text, text + {word});
  }

  lemma SharedWord(query: set<string>, text: set<string>, word: string)
    requires word !in text && word in query
    ensures Similarity(query, text) < Similarity(query, text + {word})
  {
    var more := text + {word};
    assert query * more == query * text + {word} && query + more == query + text && word in query + text;
    assert |query * more| == |query * text| + 1;
    SimilarityRange(query, text);
    SimilarityRange(query, more);
    if text != {} {
      var a, n := |query * text|, |query + text|;
      assert n > 0 && a as real * n as real < (a + 1) as real * n as real;
      QuotientOrder(a, n, a + 1, n);
    } else {
      assert word in query * more;
    }
  }

  /** A foreign word in an item that shares one lowers the similarity; a
      further shared one raises it. */
  lemma {:induction false} WordsRank(query: set<string>, text: set<string>, word: string)
    requires word !in text
    ensures word !in query && query * text != {} ==> Similarity(query, text + {word}) < Similarity(query, text)
    ensures word in query ==> Similarity(query, text) < Similarity(query, text + {word})
  {
    if word in query {
      SharedWord(query, text, word);
    } else if query * text != {} {
      ForeignWord(query, text, word);
    }
  }

  /** How results rank: without decay, one with more foreign words never
      stands in front of one with the same shared words; and with a weight that
      falls with age, one accessed earlier never in front of one with the same
      words. */
  ghost predicate RankedWell<C>(q: Query, weight: real -> real, results: seq<Item<C>>) {
    forall i, j :: 0 <= i < j < |results| ==> MayPrecede(q, weight, results[i], results[j])
  }

  ghost predicate MayPrecede<C>(q: Query, weight: real -> real, a: Item<C>, b: Item<C>) {
    && (!q.decayWeighted && q.words * a.words == q.words * b.words ==> |Foreign(q.words, a.words)| <= |Foreign(q.words, b.words)|)
    && (q.decayWeighted && a.words == b.words && Falls(weight) ==> a.lastAccessed >= b.lastAccessed)
  }

  ghost predicate Falls(weight: real -> real) {
    forall x, y :: x < y ==> weight(y) < weight(x)
  }

  lemma OlderScoresLower<C>(q: Query, weight: real -> real, now: real, a: Item<C>, b: Item<C>)
    requires q.decayWeighted && a.words == b.words && Falls(weight) && a.lastAccessed < b.lastAccessed
    requires Similarity(q.words, a.words) > 0.0
    ensures Score(q, a, weight, now) < Score(q, b, weight, now)
  {
    var sim, x, y := Similarity(q.words, a.words), WeightOf(a, weight, now), WeightOf(b, weight, now);
    assert x < y;
    assert sim * y - sim * x == sim * (y - x) > 0.0;
  }

  lemma BetterMayPrecede<C>(q: Query, weight: real -> real, now: real, a: Item<C>, b: Item<C>)
    requires Passes(q, a, weight, now) && Passes(q, b, weight, now) && Score(q, a, weight, now) >= Score(q, b, weight, now)
    ensures MayPrecede(q, weight, a, b)
  {
    SimilarityRange(q.words, a.words);
    SimilarityRange(q.words, b.words);
    if !q.decayWeighted && q.words * a.words == q.words * b.words && |Foreign(q.words, b.words)| < |Foreign(q.words, a.words)| {
      FewerForeign(q.words, b.words, a.words);
    }
    if q.decayWeighted && a.words == b.words && Falls(weight) && a.lastAccessed < b.lastAccessed {
      OlderScoresLower(q, weight, now, a, b);
    }
  }

  lemma RanksWell<C>(q: Query, weight: real -> real, now: real, results: seq<Item<C>>)
    requires forall item :: item in results ==> Passes(q, item, weight, now)
    requires Descending(results, ByScore(q, weight, now))
    ensures RankedWell(q, weight, results)
  {
    forall i, j | 0 <= i < j < |results| ensures MayPrecede(q, weight, results[i], results[j]) {
      assert Passes(q, results[i], weight, now) && Passes(q, results[j], weight, now);
      BetterMayPrecede(q, weight, now, results[i], results[j]);
    }
  }

  /** The filters, spelled out. */
  ghost predicate Matches<C>(q: Query, item: Item<C>) {
    && |q.namespace| <= |item.namespace| && item.namespace[..|q.namespace|] == q.namespace
    && (q.memoryType == None || q.memoryType == Some(item.memoryType))
    && q.minTrust <= item.trust
    && (q.scope == None || q.scope == Some(item.scope))
    && exists w :: w in q.words && w in item.words
  }

  /** With positive weights, or without decay, exactly these pass. */
  lemma PassesIff<C>(q: Query, item: Item<C>, weight: real -> real, now: real)
    requires q.decayWeighted ==> WeightOf(item, weight, now) > 0.0
    ensures Passes(q, item, weight, now) <==> Matches(q, item)
  {
    SimilarityRange(q.words, item.words);
    var sim, x := Similarity(q.words, item.words), WeightOf(item, weight, now);
    if q.decayWeighted {
      assert sim > 0.0 ==> sim * x > 0.0;
      assert sim == 0.0 ==> sim * x == 0.0;
    }
    assert forall w :: w in q.words * item.words <==> w in q.words && w in item.words;
  }

  /** A result passes every filter only if it shares a word with the query. */
  lemma PassingSharesWord<C>(q: Query, item: Item<C>, weight: real -> real, now: real)
    requires Passes(q, item, weight, now)
    ensures exists w :: w in q.words && w in item.words
  {
    assert 0.0 * WeightOf(item, weight, now) == 0.0;
    assert Similarity(q.words, item.words) != 0.0;
    var w :| w in q.words * item.words;
  }

  ghost predicate Descending<C>(items: seq<Item<C>>, score: Item<C> -> real) {
    forall i, j :: 0 <= i < j < |items| ==> score(items[i]) >= score(items[j])
  }

  /** Stable descending insertion: behind everything that scores as high. */
  function Insert<C>(sorted: seq<Item<C>>, item: Item<C>, score: Item<C> -> real): seq<Item<C>> {
    if sorted == [] then [item]
    else if score(sorted[|sorted| - 1]) >= score(item) then sorted + [item]
    else Insert(sorted[..|sorted| - 1], item, score) + [sorted[|sorted| - 1]]
  }

  function SortDescending<C>(items: seq<Item<C>>, score: Item<C> -> real): seq<Item<C>> {
    if items == [] then []
    else Insert(SortDescending(items[..|items| - 1], score), items[|items| - 1], score)
  }

  lemma {:induction false} InsertKeeps<C>(sorted: seq<Item<C>>, item: Item<C>, score: Item<C> -> real)
    ensures multiset(Insert(sorted, item, score)) == multiset(sorted) + multiset{item}
    decreases |sorted|
  {
    if sorted != [] {
      var front, last := sorted[..|sorted| - 1], sorted[|sorted| - 1];
      assert sorted == front + [last];
      InsertKeeps(front, item, score);
    }
  }

  lemma {:induction false} InsertSorts<C>(sorted: seq<Item<C>>, item: Item<C>, score: Item<C> -> real)
    requires Descending(sorted, score)
    ensures Descending(Insert(sorted, item, score), score)
    ensures forall i :: 0 <= i < |Insert(sorted, item, score)| ==>
              score(Insert(sorted, item, score)[i]) >= score(item) ||
              (sorted != [] && score(Insert(sorted, item, score)[i]) >= score(sorted[|sorted| - 1]))
    decreases |sorted|
  {
    if sorted != [] && score(sorted[|sorted| - 1]) < score(item) {
      InsertSorts(sorted[..|sorted| - 1], item, score);
    }
  }

  lemma {:induction false} SortSorts<C>(items: seq<Item<C>>, score: Item<C> -> real)
    ensures Descending(SortDescending(items, score), score)
    ensures multiset(SortDescending(items, score)) == multiset(items)
    decreases |items|
  {
    if items != [] {
      var front, last := items[..|items| - 1], items[|items| - 1];
      assert items == front + [last];
      SortSorts(front, score);
      InsertSorts(SortDescending(front, score), last, score);
      InsertKeeps(SortDescending(front, score), last, score);
    }
  }

  ghost predicate ComesBefore<T>(xs: seq<T>, a: T, b: T) {
    exists i, j :: 0 <= i < j < |xs| && xs[i] == a && xs[j] == b
  }

  lemma ComesBeforeSnoc<T>(xs: seq<T>, x: T, a: T)
    ensures forall b :: ComesBefore(xs, a, b) ==> ComesBefore(xs + [x], a, b)
    ensures a in xs ==> ComesBefore(xs + [x], a, x)
  {
    forall b | ComesBefore(xs, a, b) ensures ComesBefore(xs + [x], a, b) {
      var i, j :| 0 <= i < j < |xs| && xs[i] == a && xs[j] == b;
      assert (xs + [x])[i] == a && (xs + [x])[j] == b;
    }
    if a in xs {
      var i :| 0 <= i < |xs| && xs[i] == a;
      assert (xs + [x])[i] == a && (xs + [x])[|xs|] == x;
    }
  }

  /** Where an item is inserted: behind everything that does not score less. */
  lemma {:induction false} InsertedAt<C>(sorted: seq<Item<C>>, item: Item<C>, score: Item<C> -> real) returns (k: nat)
    ensures k <= |sorted| && Insert(sorted, item, score) == sorted[..k] + [item] + sorted[k..]
    ensures forall m :: k <= m < |sorted| ==> score(sorted[m]) < score(item)
    decreases |sorted|
  {
    if sorted == [] || score(sorted[|sorted| - 1]) >= score(item) {
      k := |sorted|;
    } else {
      var n := |sorted| - 1;
      k := InsertedAt(sorted[..n], item, score);
      assert sorted[..n][..k] == sorted[..k] && sorted[..n][k..] + [sorted[n]] == sorted[k..];
    }
  }

  /** Items that score the same stay in their order. */
  ghost predicate Stable<C>(sorted: seq<Item<C>>, items: seq<Item<C>>, score: Item<C> -> real) {
    forall i, j :: 0 <= i < j < |sorted| && score(sorted[i]) == score(sorted[j]) ==> ComesBefore(items, sorted[i], sorted[j])
  }

  lemma {:induction false} SortIsStable<C>(items: seq<Item<C>>, score: Item<C> -> real)
    ensures Stable(SortDescending(items, score), items, score)
    ensures forall item :: item in SortDescending(items, score) ==> item in items
    decreases |items|
  {
    if items != [] {
      var front, x := items[..|items| - 1], items[|items| - 1];
      SortIsStable(front, score);
      assert items == front + [x];
      InsertIsStable(SortDescending(front, score), front, x, score);
    }
  }

  lemma InsertIsStable<C>(sorted: seq<Item<C>>, front: seq<Item<C>>, x: Item<C>, score: Item<C> -> real)
    requires Stable(sorted, front, score) && forall item :: item in sorted ==> item in front
    ensures Stable(Insert(sorted, x, score), front + [x], score)
    ensures forall item :: item in Insert(sorted, x, score) ==> item in front + [x]
  {
    var k := InsertedAt(sorted, x, score);
    var all := Insert(sorted, x, score);
    forall i, j | 0 <= i < j < |all| && score(all[i]) == score(all[j]) ensures ComesBefore(front + [x], all[i], all[j]) {
      ComesBeforeSnoc(front, x, all[i]);
      if j == k {
        assert all[i] in sorted;
      } else if i != k {
        var a, b := if i < k then i else i - 1, if j < k then j else j - 1;
        assert all[i] == sorted[a] && all[j] == sorted[b];
      }
    }
  }

  function ByScore<C>(q: Query, weight: real -> real, now: real): Item<C> -> real {
    (item: Item<C>) => Score(q, item, weight, now)
  }

  /** The first k of the sorted list: all of it, or k items none of which
      scores less than an omitted one. */
  function TopK<C>(q: Query, found: seq<Item<C>>, weight: real -> real, now: real): seq<Item<C>> {
    var sorted := SortDescending(found, ByScore(q, weight, now));
    if |sorted| <= q.k then sorted else sorted[..q.k]
  }

  lemma TakeContained<T>(items: seq<T>, k: nat)
    requires k <= |items|
    ensures multiset(items[..k]) <= multiset(items)
  {
    assert items == items[..k] + items[k..];
  }

  /** Nothing is returned more often than it was found. */
  lemma TopKContained<C>(q: Query, found: seq<Item<C>>, weight: real -> real, now: real)
    ensures multiset(TopK(q, found, weight, now)) <= multiset(found)
  {
    var sorted := SortDescending(found, ByScore(q, weight, now));
    SortSorts(found, ByScore(q, weight, now));
    if |sorted| > q.k {
      TakeContained(sorted, q.k);
    }
  }

  lemma TopKIsStable<C>(q: Query, found: seq<Item<C>>, weight: real -> real, now: real)
    ensures Stable(TopK(q, found, weight, now), found, ByScore(q, weight, now))
  {
    SortIsStable(found, ByScore(q, weight, now));
  }

  lemma SameMembers<T>(xs: seq<T>, ys: seq<T>)
    requires multiset(xs) == multiset(ys)
    ensures forall i :: 0 <= i < |xs| ==> xs[i] in ys
    ensures forall i :: 0 <= i < |ys| ==> ys[i] in xs
  {
    forall i | 0 <= i < |xs| ensures xs[i] in ys {
      assert xs[i] in multiset(ys);
    }
    forall i | 0 <= i < |ys| ensures ys[i] in xs {
      assert ys[i] in multiset(xs);
    }
  }

  lemma SortKeepsMembers<C>(found: seq<Item<C>>, score: Item<C> -> real)
    ensures |SortDescending(found, score)| == |found|
    ensures forall item :: item in SortDescending(found, score) <==> item in found
  {
    SortSorts(found, score);
    assert |multiset(SortDescending(found, score))| == |multiset(found)|;
    SameMembers(SortDescending(found, score), found);
  }

  lemma OmittedScoresLess<C>(sorted: seq<Item<C>>, n: nat, score: Item<C> -> real, item: Item<C>, j: nat)
    requires Descending(sorted, score) && j < n <= |sorted|
    requires item in sorted && item !in sorted[..n]
    ensures score(sorted[j]) >= score(item)
  {
    var i :| 0 <= i < |sorted| && sorted[i] == item;
  }

  lemma FirstAreBest<C>(sorted: seq<Item<C>>, n: nat, score: Item<C> -> real)
    requires Descending(sorted, score) && n <= |sorted|
    ensures Descending(sorted[..n], score)
    ensures forall item :: item in sorted[..n] ==> item in sorted
    ensures forall item, r :: item in sorted && item !in sorted[..n] && r in sorted[..n] ==> score(r) >= score(item)
  {
    forall item, r | item in sorted && item !in sorted[..n] && r in sorted[..n] ensures score(r) >= score(item) {
      var j :| 0 <= j < n && sorted[j] == r;
      OmittedScoresLess(sorted, n, score, item, j);
    }
  }

  lemma TopKTakes<C>(q: Query, found: seq<Item<C>>, weight: real -> real, now: real) returns (n: nat)
    ensures var sorted := SortDescending(found, ByScore(q, weight, now));
            n <= |sorted| && n <= q.k && (n == |sorted| || n == q.k) && TopK(q, found, weight, now) == sorted[..n]
  {
    var sorted := SortDescending(found, ByScore(q, weight, now));
    n := if |sorted| <= q.k then |sorted| else q.k;
    assert sorted[..|sorted|] == sorted;
  }

  /** No better choice of k: everything found, or k items none of which scores
      less than an omitted one, best first. */
  ghost predicate BestOf<C>(top: seq<Item<C>>, q: Query, found: seq<Item<C>>, weight: real -> real, now: real) {
    && |top| <= q.k
    && Descending(top, ByScore(q, weight, now))
    && (forall item :: item in top ==> item in found)
    && (forall item, r :: item in found && item !in top && r in top ==>
          |top| == q.k && Score(q, r, weight, now) >= Score(q, item, weight, now))
    && (|top| < q.k ==> forall item :: item in found ==> item in top)
  }

  lemma FirstAreBestOf<C>(sorted: seq<Item<C>>, n: nat, q: Query, found: seq<Item<C>>, weight: real -> real, now: real)
    requires Descending(sorted, ByScore(q, weight, now)) && n <= |sorted| && n <= q.k && (n == |sorted| || n == q.k)
    requires forall item :: item in sorted <==> item in found
    ensures BestOf(sorted[..n], q, found, weight, now)
  {
    FirstAreBest(sorted, n, ByScore(q, weight, now));
    if n == |sorted| {
      assert sorted[..n] == sorted;
    } else {
      forall item, r | item in found && item !in sorted[..n] && r in sorted[..n]
        ensures Score(q, r, weight, now) >= Score(q, item, weight, now)
      {
        assert ByScore(q, weight, now)(r) >= ByScore(q, weight, now)(item);
      }
    }
  }

  lemma TopKIsBest<C>(q: Query, found: seq<Item<C>>, weight: real -> real, now: real)
    ensures BestOf(TopK(q, found, weight, now), q, found, weight, now)
  {
    var n := TopKTakes(q, found, weight, now);
    SortSorts(found, ByScore(q, weight, now));
    SortKeepsMembers(found, ByScore(q, weight, now));
    FirstAreBestOf(SortDescending(found, ByScore(q, weight, now)), n, q, found, weight, now);
  }

  /** The items stand in the order of their keys. */
  ghost predicate InOrder<C>(found: seq<Item<C>>, keys: seq<string>) {
    && (forall item :: item in found ==> StringKey(TupleOf(item)) in keys)
    && (forall i, j :: 0 <= i < j < |found| ==> ComesBefore(keys, StringKey(TupleOf(found[i])), StringKey(TupleOf(found[j]))))
  }

  lemma InOrderSnoc<C>(found: seq<Item<C>>, keys: seq<string>, item: Item<C>, key: string)
    requires InOrder(found, keys) && StringKey(TupleOf(item)) == key
    ensures InOrder(found, keys + [key]) && InOrder(found + [item], keys + [key])
  {
    var all := found + [item];
    forall i, j | 0 <= i < j < |all| ensures ComesBefore(keys + [key], StringKey(TupleOf(all[i])), StringKey(TupleOf(all[j]))) {
      ComesBeforeSnoc(keys, key, StringKey(TupleOf(found[i])));
      assert found[i] in found;
    }
    forall i, j | 0 <= i < j < |found| ensures ComesBefore(keys + [key], StringKey(TupleOf(found[i])), StringKey(TupleOf(found[j]))) {
      assert all[i] == found[i] && all[j] == found[j];
    }
  }

  lemma TiesInOrder<C>(q: Query, results: seq<Item<C>>, found: seq<Item<C>>, keys: seq<string>, weight: real -> real, now: real)
    requires Stable(results, found, ByScore(q, weight, now)) && InOrder(found, keys)
    ensures forall i, j :: 0 <= i < j < |results| && Score(q, results[i], weight, now) == Score(q, results[j], weight, now) ==>
              ComesBefore(keys, StringKey(TupleOf(results[i])), StringKey(TupleOf(results[j])))
  {
    var score: Item<C> -> real := ByScore(q, weight, now);
    forall i, j | 0 <= i < j < |results| && Score(q, results[i], weight, now) == Score(q, results[j], weight, now)
      ensures ComesBefore(keys, StringKey(TupleOf(results[i])), StringKey(TupleOf(results[j])))
    {
      assert score(results[i]) == score(results[j]);
      var a, b :| 0 <= a < b < |found| && found[a] == results[i] && found[b] == results[j];
    }
  }

  /** Each of these items is stored and passes. */
  ghost predicate AllPass<C>(items: map<string, Item<C>>, q: Query, found: seq<Item<C>>, weight: real -> real, now: real) {
    forall item :: item in found ==>
      StringKey(TupleOf(item)) in items && items[StringKey(TupleOf(item))] == item && Passes(q, item, weight, now)
  }

  /** Of the items under these keys, exactly those that pass were found, in the
      order of their keys. */
  ghost predicate FoundIn<C>(items: map<string, Item<C>>, keys: seq<string>, q: Query, found: seq<Item<C>>,
                             weight: real -> real, now: real) {
    && AllPass(items, q, found, weight, now) && Distinct(found) && InOrder(found, keys)
    && (forall s :: s in keys && s in items && Passes(q, items[s], weight, now) ==> items[s] in found)
  }

  lemma FoundSnoc<C>(items: map<string, Item<C>>, keys: seq<string>, key: string, q: Query, found: seq<Item<C>>,
                     weight: real -> real, now: real)
    requires FoundIn(items, keys, q, found, weight, now) && key !in keys
    requires key in items && StringKey(TupleOf(items[key])) == key && Passes(q, items[key], weight, now)
    ensures FoundIn(items, keys + [key], q, found + [items[key]], weight, now)
  {
    var item := items[key];
    InOrderSnoc(found, keys, item, key);
    assert item !in found;
    assert AllPass(items, q, found + [item], weight, now);
    forall s | s in keys + [key] && s in items && Passes(q, items[s], weight, now) ensures items[s] in found + [item] {
      assert s == key || s in keys;
    }
  }

  lemma FoundSkip<C>(items: map<string, Item<C>>, keys: seq<string>, key: string, q: Query, found: seq<Item<C>>,
                     weight: real -> real, now: real)
    requires FoundIn(items, keys, q, found, weight, now)
    requires key in items && StringKey(TupleOf(items[key])) == key && !Passes(q, items[key], weight, now)
    ensures FoundIn(items, keys + [key], q, found, weight, now)
  {
    InOrderSnoc(found, keys, items[key], key);
    forall s | s in keys + [key] && s in items && Passes(q, items[s], weight, now) ensures items[s] in found {
      assert s in keys;
    }
  }

  /** The stored items that pass, in the order of their keys. */
  function Hits<C>(items: map<string, Item<C>>, keys: seq<string>, q: Query, weight: real -> real, now: real): seq<Item<C>> {
    if keys == [] then []
    else
      var hits, key := Hits(items, keys[..|keys| - 1], q, weight, now), keys[|keys| - 1];
      if key in items && Passes(q, items[key], weight, now) then hits + [items[key]] else hits
  }

  lemma HitsNext<C>(items: map<string, Item<C>>, order: seq<string>, i: nat, q: Query, weight: real -> real, now: real)
    requires i < |order| && order[i] in items
    ensures Hits(items, order[..i + 1], q, weight, now) ==
              Hits(items, order[..i], q, weight, now) + if Passes(q, items[order[i]], weight, now) then [items[order[i]]] else []
  {
    assert order[..i + 1][..i] == order[..i];
  }

  lemma {:induction false} HitsAreFound<C>(items: map<string, Item<C>>, keys: seq<string>, q: Query, weight: real -> real, now: real)
    requires Distinct(keys) && forall s :: s in keys ==> s in items && StringKey(TupleOf(items[s])) == s
    ensures FoundIn(items, keys, q, Hits(items, keys, q, weight, now), weight, now)
    decreases |keys|
  {
    if keys != [] {
      var front, key := keys[..|keys| - 1], keys[|keys| - 1];
      HitsAreFound(items, front, q, weight, now);
      assert front + [key] == keys && key !in front;
      if Passes(q, items[key], weight, now) {
        FoundSnoc(items, front, key, q, Hits(items, front, q, weight, now), weight, now);
      } else {
        FoundSkip(items, front, key, q, Hits(items, front, q, weight, now), weight, now);
      }
    }
  }

  lemma TopKIsDistinct<C>(q: Query, found: seq<Item<C>>, weight: real -> real, now: real)
    requires Distinct(found)
    ensures Distinct(TopK(q, found, weight, now))
  {
    TopKContained(q, found, weight, now);
    DistinctCounts(found);
    FewerCountsDistinct(TopK(q, found, weight, now), found);
  }

  /** The best of what was found are the best of all that pass. */
  lemma TopKAnswers<C>(items: map<string, Item<C>>, keys: seq<string>, q: Query, found: seq<Item<C>>, weight: real -> real, now: real)
    requires FoundIn(items, keys, q, found, weight, now) && forall s :: s in items ==> s in keys
    ensures var results := TopK(q, found, weight, now);
            && |results| <= q.k && Descending(results, ByScore(q, weight, now)) && Distinct(results)
            && (forall item :: item in results ==>
                  && StringKey(TupleOf(item)) in items && items[StringKey(TupleOf(item))] == item
                  && Passes(q, item, weight, now))
            && (forall s, r :: s in items && Passes(q, items[s], weight, now) && items[s] !in results && r in results ==>
                  |results| == q.k && Score(q, r, weight, now) >= Score(q, items[s], weight, now))
            && (|results| < q.k ==> forall s :: s in items && Passes(q, items[s], weight, now) ==> items[s] in results)
  {
    TopKIsBest(q, found, weight, now);
    TopKIsDistinct(q, found, weight, now);
  }

  /** How the results rank, among each other and against what is omitted. */
  lemma TopKRanks<C>(items: map<string, Item<C>>, keys: seq<string>, q: Query, found: seq<Item<C>>, weight: real -> real, now: real)
    requires FoundIn(items, keys, q, found, weight, now) && forall s :: s in items ==> s in keys
    ensures var results := TopK(q, found, weight, now);
            && RankedWell(q, weight, results)
            && (forall s, r :: s in items && Passes(q, items[s], weight, now) && items[s] !in results && r in results ==>
                  MayPrecede(q, weight, r, items[s]))
            && (forall i, j :: 0 <= i < j < |results| && Score(q, results[i], weight, now) == Score(q, results[j], weight, now) ==>
                  ComesBefore(keys, StringKey(TupleOf(results[i])), StringKey(TupleOf(results[j]))))
  {
    var results := TopK(q, found, weight, now);
    TopKIsBest(q, found, weight, now);
    RanksWell(q, weight, now, results);
    TopKIsStable(q, found, weight, now);
    TiesInOrder(q, results, found, keys, weight, now);
    forall s, r | s in items && Passes(q, items[s], weight, now) && items[s] !in results && r in results
      ensures MayPrecede(q, weight, r, items[s])
    {
      BetterMayPrecede(q, weight, now, r, items[s]);
    }
  }

  lemma {:induction false} DistinctCounts<T>(xs: seq<T>)
    requires Distinct(xs)
    ensures forall x :: multiset(xs)[x] <= 1
    decreases |xs|
  {
    if xs != [] {
      var n := |xs| - 1;
      DistinctCounts(xs[..n]);
      assert xs == xs[..n] + [xs[n]];
      assert xs[n] !in xs[..n];
    }
  }

  lemma FewerCountsDistinct<T>(xs: seq<T>, ys: seq<T>)
    requires multiset(xs) <= multiset(ys) && forall x :: multiset(ys)[x] <= 1
    ensures Distinct(xs)
  {
    forall i, j | 0 <= i < j < |xs| ensures xs[i] != xs[j] {
      assert xs == xs[..i] + [xs[i]] + xs[i + 1..j] + [xs[j]] + xs[j + 1..];
      assert multiset(xs) == multiset(xs[..i]) + multiset{xs[i]} + multiset(xs[i + 1..j]) + multiset{xs[j]} + multiset(xs[j + 1..]);
      assert multiset(xs)[xs[i]] <= multiset(ys)[xs[i]] <= 1;
    }
  }

  // --------------------------------------------------------------- the class

  /** The in-memory store: a dictionary and the order of its keys. */
  class InMemoryStore<C(==)> {
    var items: map<string, Item<C>>
    var order: seq<string>

    ghost predicate Valid()
      reads this
    {
      && Distinct(order)
      && (forall s :: s in order <==> s in items)
      && (forall s :: s in items ==> StringKey(TupleOf(items[s])) == s)
    }

    constructor ()
      ensures Valid() && items == map[] && order == []
    {
      items, order := map[], [];
    }

    method Upsert(item: Item<C>, validate: bool) returns (accepted: bool)
      requires Valid()
      modifies this
      ensures Valid()
      ensures accepted <==> !validate || Admits(item, StringKey(TupleOf(item)) in old(items))
      ensures accepted <==> !validate || ((item.memoryType == Semantic ==> item.trust >= 0.6) &&
                                          (item.memoryType == Episodic ==> StringKey(TupleOf(item)) !in old(items)))
      ensures items == if accepted then old(items)[StringKey(TupleOf(item)) := item] else old(items)
      ensures validate ==> items == PutByString(old(items), item)
      ensures order == if accepted && StringKey(TupleOf(item)) !in old(items)
                       then old(order) + [StringKey(TupleOf(item))] else old(order)
    {
      var key := StringKey(TupleOf(item));
      if validate {
        if item.memoryType == Semantic && item.trust < MIN_SEMANTIC_TRUST {
          return false;
        }
        if item.memoryType == Episodic && key in items {
          return false;
        }
      }
      if key !in items {
        order := order + [key];
      }
      items := items[key := item];
      return true;
    }

    /** Every item decayed; the count is that of the items that had drifted. */
    method DecayPass(weight: real -> real, now: real) returns (updated: nat)
      requires Valid()
      modifies this
      ensures Valid() && order == old(order)
      ensures items == map s | s in old(items) :: Decayed(old(items)[s], weight, now)
      ensures updated == DriftCount(old(items), old(order), weight, now)
    {
      updated := 0;
      ghost var was := items;
      DecayStarts(was, order, weight, now);
      for i := 0 to |order|
        invariant order == old(order)
        invariant items == DecayedOn(was, order[..i], weight, now)
        invariant updated == DriftCount(was, order[..i], weight, now)
      {
        var key := order[i];
        DecayTurn(was, order, i, weight, now);
        if Drifted(items[key], weight, now) {
          items := items[key := Decayed(items[key], weight, now)];
          updated := updated + 1;
        }
      }
      assert order[..|order|] == order;
      DecayEnds(was, order, weight, now);
      DecayKeepsKeys(was, order, weight, now);
    }

    /** Best first, at most k, all passing, and nothing left out that scores
        higher than something returned. */
    method Search(q: Query, weight: real -> real, now: real) returns (results: seq<Item<C>>)
      requires Valid()
      ensures |results| <= q.k
      ensures Descending(results, ByScore(q, weight, now))
      ensures forall item :: item in results ==>
                && StringKey(TupleOf(item)) in items && items[StringKey(TupleOf(item))] == item
                && Passes(q, item, weight, now)
      ensures Distinct(results)
      ensures forall s, r :: s in items && Passes(q, items[s], weight, now) && items[s] !in results && r in results ==>
                |results| == q.k && Score(q, r, weight, now) >= Score(q, items[s], weight, now)
      ensures |results| < q.k ==> forall s :: s in items && Passes(q, items[s], weight, now) ==> items[s] in results
      ensures RankedWell(q, weight, results)
      ensures forall i, j :: 0 <= i < j < |results| && Score(q, results[i], weight, now) == Score(q, results[j], weight, now) ==>
                ComesBefore(order, StringKey(TupleOf(results[i])), StringKey(TupleOf(results[j])))
      ensures forall s, r :: s in items && Passes(q, items[s], weight, now) && items[s] !in results && r in results ==>
                MayPrecede(q, weight, r, items[s])
    {
      var found: seq<Item<C>> := [];
      for i := 0 to |order|
        invariant found == Hits(items, order[..i], q, weight, now)
      {
        var item := items[order[i]];
        HitsNext(items, order, i, q, weight, now);
        if !(q.namespace <= item.namespace) { continue; }
        if q.memoryType.Some? && item.memoryType != q.memoryType.value { continue; }
        if item.trust < q.minTrust { continue; }
        if q.scope.Some? && item.scope != q.scope.value { continue; }
        if Score(q, item, weight, now) > 0.0 {
          found := found + [item];
        }
      }
      assert order[..|order|] == order;
      results := TopK(q, found, weight, now);
      HitsAreFound(items, order, q, weight, now);
      TopKAnswers(items, order, q, found, weight, now);
      TopKRanks(items, order, q, found, weight, now);
    }
  }

  /** The table memory_items, keyed by its unique constraint. */
  class PostgresMemoryStore<C(==)> {
    var rows: map<TupleKey, Item<C>>

    constructor ()
      ensures rows == map[]
    {
      rows := map[];
    }

    method Upsert(item: Item<C>, validate: bool) returns (accepted: bool)
      modifies this
      ensures accepted <==> !validate || Admits(item, TupleOf(item) in old(rows))
      ensures accepted <==> !validate || ((item.memoryType == Semantic ==> item.trust >= 0.6) &&
                                          (item.memoryType == Episodic ==> TupleOf(item) !in old(rows)))
      ensures accepted ==>
                && TupleOf(item) in rows
                && rows[TupleOf(item)].(createdAt := item.createdAt) == item
                && rows[TupleOf(item)].createdAt ==
                     if TupleOf(item) in old(rows) then old(rows)[TupleOf(item)].createdAt else item.createdAt
      ensures rows == if accepted then old(rows)[TupleOf(item) := Merged(old(rows), item)] else old(rows)
      ensures validate ==> rows == PutByTuple(old(rows), item)
    {
      if validate {
        if item.memoryType == Semantic && item.trust < MIN_SEMANTIC_TRUST {
          return false;
        }
        if item.memoryType == Episodic && TupleOf(item) in rows {
          return false;
        }
      }
      rows := rows[TupleOf(item) := Merged(rows, item)];
      return true;
    }

    method DecayPass(weight: real -> real, now: real) returns (updated: nat)
      modifies this
      ensures rows == map key | key in old(rows) :: RowDecayed(old(rows)[key], weight, now)
      ensures updated == |DriftedRows(old(rows), weight, now)|
    {
      updated := 0;
      var fetched := rows;
      var left := fetched.Keys;
      ghost var drifted := DriftedRows(rows, weight, now);
      RowsDecayedEnds(fetched, weight, now);
      assert drifted - left == {};
      while left != {}
        invariant left <= fetched.Keys
        invariant rows == RowsDecayedBut(fetched, left, weight, now)
        invariant updated == |drifted - left|
        decreases |left|
      {
        var key :| key in left;
        RowsDecayedStep(fetched, left, key, weight, now);
        left := left - {key};
        if RowDrifted(fetched[key], weight, now) {
          rows := rows[key := RowDecayed(fetched[key], weight, now)];
          updated := updated + 1;
        }
      }
      assert drifted - left == drifted;
    }
  }
}
