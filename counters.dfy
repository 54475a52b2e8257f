/**
 * The "<counterId>_current" fields of a trooper, as a map from field name to value, and the
 * two ways the gear changes them: initialisation over the equipped ids and deletion of one
 * item's fields.
 */
module CounterFields {
  import opened Equipment

  /** Some counter of `cs` has the field `f` and the maximum `v`. */
  predicate SuppliesMax(cs: seq<Counter>, f: string, v: int)
  {
    exists c :: c in cs && CounterField(c.id) == f && c.max == v
  }

  /** Some list of `lists` has a counter with field `f`. */
  predicate AnySupplies(lists: seq<seq<Counter>>, f: string)
  {
    exists i :: 0 <= i < |lists| && Supplies(lists[i], f)
  }

  /** Some list of `lists` has a counter with field `f` and maximum `v`. */
  predicate AnySuppliesMax(lists: seq<seq<Counter>>, f: string, v: int)
  {
    exists i :: 0 <= i < |lists| && SuppliesMax(lists[i], f, v)
  }

  lemma SuppliesSnoc(cs: seq<Counter>, c: Counter, f: string)
    ensures Supplies(cs + [c], f) <==> Supplies(cs, f) || CounterField(c.id) == f
  {
    if Supplies(cs + [c], f) {
      var d: Counter :| d in cs + [c] && CounterField(d.id) == f;
      assert d in cs || d == c;
    }
    if Supplies(cs, f) {
      var d: Counter :| d in cs && CounterField(d.id) == f;
      assert d in cs + [c];
    }
    if CounterField(c.id) == f {
      assert c in cs + [c];
    }
  }

  lemma SuppliesMaxSnoc(cs: seq<Counter>, c: Counter, f: string, v: int)
    requires SuppliesMax(cs, f, v) || (CounterField(c.id) == f && c.max == v)
    ensures SuppliesMax(cs + [c], f, v)
  {
    if SuppliesMax(cs, f, v) {
      var d: Counter :| d in cs && CounterField(d.id) == f && d.max == v;
      assert d in cs + [c];
    } else {
      assert c in cs + [c];
    }
  }

  /**
   * Gives every counter of `cs`, taken left to right, its field at the counter's maximum,
   * unless the field is already present.
   */
  function AddCounters(m: map<string, int>, cs: seq<Counter>): (r: map<string, int>)
    ensures forall f :: f in r <==> f in m || Supplies(cs, f)
    ensures forall f :: f in m ==> f in r && r[f] == m[f]
    ensures forall f :: f in r && f !in m ==> SuppliesMax(cs, f, r[f])
    decreases |cs|
  {
    if |cs| == 0 then m
    else
      var n := |cs| - 1;
      var prev := AddCounters(m, cs[..n]);
      var c := cs[n];
      assert cs == cs[..n] + [c];
      assert forall f :: Supplies(cs, f) <==> Supplies(cs[..n], f) || CounterField(c.id) == f by {
        forall f ensures Supplies(cs, f) <==> Supplies(cs[..n], f) || CounterField(c.id) == f {
          SuppliesSnoc(cs[..n], c, f);
        }
      }
      assert forall f, v :: SuppliesMax(cs[..n], f, v) || (CounterField(c.id) == f && c.max == v) ==>
               SuppliesMax(cs, f, v) by {
        forall f, v | SuppliesMax(cs[..n], f, v) || (CounterField(c.id) == f && c.max == v)
          ensures SuppliesMax(cs, f, v)
        {
          SuppliesMaxSnoc(cs[..n], c, f, v);
        }
      }
      var f := CounterField(c.id);
      if f in prev then prev else prev[f := c.max]
  }

  /** One more counter: its field is added at its maximum unless already present. */
  lemma AddCountersSnoc(m: map<string, int>, cs: seq<Counter>, j: nat)
    requires j < |cs|
    ensures var prev := AddCounters(m, cs[..j]);
            var f := CounterField(cs[j].id);
            AddCounters(m, cs[..j + 1]) == if f in prev then prev else prev[f := cs[j].max]
  {
    assert cs[..j + 1][..j] == cs[..j];
  }

  lemma AnySuppliesSnoc(lists: seq<seq<Counter>>, cs: seq<Counter>, f: string)
    ensures AnySupplies(lists + [cs], f) <==> AnySupplies(lists, f) || Supplies(cs, f)
  {
    var ls := lists + [cs];
    if AnySupplies(ls, f) {
      var i :| 0 <= i < |ls| && Supplies(ls[i], f);
      if i < |lists| { assert ls[i] == lists[i]; }
    }
    if AnySupplies(lists, f) {
      var i :| 0 <= i < |lists| && Supplies(lists[i], f);
      assert ls[i] == lists[i];
    }
    if Supplies(cs, f) {
      assert ls[|lists|] == cs;
    }
  }

  lemma AnySuppliesMaxSnoc(lists: seq<seq<Counter>>, cs: seq<Counter>, f: string, v: int)
    requires AnySuppliesMax(lists, f, v) || SuppliesMax(cs, f, v)
    ensures AnySuppliesMax(lists + [cs], f, v)
  {
    var ls := lists + [cs];
    if AnySuppliesMax(lists, f, v) {
      var i :| 0 <= i < |lists| && SuppliesMax(lists[i], f, v);
      assert ls[i] == lists[i];
    } else {
      assert ls[|lists|] == cs;
    }
  }

  /**
   * Initialisation over the counter lists of the equipped items, item by item: every field some
   * list supplies is present afterwards; fields already present keep their values; a field that
   * was absent holds the maximum of a counter that supplies it.
   */
  function InitLists(m: map<string, int>, lists: seq<seq<Counter>>): (r: map<string, int>)
    ensures forall f :: f in r <==> f in m || AnySupplies(lists, f)
    ensures forall f :: f in m ==> f in r && r[f] == m[f]
    ensures forall f :: f in r && f !in m ==> AnySuppliesMax(lists, f, r[f])
    decreases |lists|
  {
    if |lists| == 0 then m
    else
      var n := |lists| - 1;
      var prev := InitLists(m, lists[..n]);
      var cs := lists[n];
      assert lists == lists[..n] + [cs];
      assert forall f :: AnySupplies(lists, f) <==> AnySupplies(lists[..n], f) || Supplies(cs, f) by {
        forall f ensures AnySupplies(lists, f) <==> AnySupplies(lists[..n], f) || Supplies(cs, f) {
          AnySuppliesSnoc(lists[..n], cs, f);
        }
      }
      assert forall f, v :: AnySuppliesMax(lists[..n], f, v) || SuppliesMax(cs, f, v) ==>
               AnySuppliesMax(lists, f, v) by {
        forall f, v | AnySuppliesMax(lists[..n], f, v) || SuppliesMax(cs, f, v)
          ensures AnySuppliesMax(lists, f, v)
        {
          AnySuppliesMaxSnoc(lists[..n], cs, f, v);
        }
      }
      AddCounters(prev, cs)
  }

  /** The counter lists of the items `ids`, in order; unknown and counterless items give empty lists. */
  function CountersOf(ids: seq<string>): (lists: seq<seq<Counter>>)
    ensures |lists| == |ids|
    ensures forall i :: 0 <= i < |ids| ==> lists[i] == ItemCounters(ids[i])
  {
    seq(|ids|, i requires 0 <= i < |ids| => ItemCounters(ids[i]))
  }

  /** Some equipped item (some id of `ids`) has a counter whose field is `f`. */
  predicate Equips(ids: seq<string>, f: string)
  {
    AnySupplies(CountersOf(ids), f)
  }

  /**
   * initializeTrooperCounters on the field map, over the equipped ids `ids`: every counter field of
   * an equipped catalog item is present afterwards, and no other field appears; fields already
   * present keep their values; a field that was absent holds the maximum of a counter that owns it.
   */
  function InitCounters(m: map<string, int>, ids: seq<string>): (r: map<string, int>)
    ensures forall f :: f in r <==> f in m || Equips(ids, f)
    ensures forall f :: f in m ==> f in r && r[f] == m[f]
    ensures forall f :: f in r && f !in m ==> AnySuppliesMax(CountersOf(ids), f, r[f])
  {
    InitLists(m, CountersOf(ids))
  }

  /** A field is equipped exactly when one of the equipped items provides it. */
  lemma EquipsAt(ids: seq<string>, f: string)
    ensures Equips(ids, f) <==> exists k :: 0 <= k < |ids| && Provides(ids[k], f)
  {
    var lists := CountersOf(ids);
    if Equips(ids, f) {
      var k :| 0 <= k < |lists| && Supplies(lists[k], f);
      assert Provides(ids[k], f);
    }
    if exists k :: 0 <= k < |ids| && Provides(ids[k], f) {
      var k :| 0 <= k < |ids| && Provides(ids[k], f);
      assert Supplies(lists[k], f);
    }
  }

  /** Initialising over one more id adds that item's counters to the result so far. */
  lemma InitCountersStep(m: map<string, int>, ids: seq<string>, i: nat)
    requires i < |ids|
    ensures InitCounters(m, ids[..i + 1]) == AddCounters(InitCounters(m, ids[..i]), ItemCounters(ids[i]))
  {
    var lists := CountersOf(ids[..i + 1]);
    assert lists[..i] == CountersOf(ids[..i]);
    assert lists[i] == ItemCounters(ids[i]);
  }

  /** An equipped item's counter field is supplied by the equipped list. */
  lemma EquippedSupplies(ids: seq<string>, k: nat, c: Counter)
    requires k < |ids| && c in ItemCounters(ids[k])
    ensures Equips(ids, CounterField(c.id))
  {
    assert CountersOf(ids)[k] == ItemCounters(ids[k]);
    assert Supplies(CountersOf(ids)[k], CounterField(c.id));
  }

  /** A field that initialisation adds holds the maximum of the one counter that owns it. */
  lemma NewCounterIsMax(m: map<string, int>, ids: seq<string>, k: nat, c: Counter)
    requires k < |ids| && c in ItemCounters(ids[k]) && CounterField(c.id) !in m
    ensures CounterField(c.id) in InitCounters(m, ids)
    ensures InitCounters(m, ids)[CounterField(c.id)] == c.max
  {
    var f := CounterField(c.id);
    EquippedSupplies(ids, k, c);
    var r := InitCounters(m, ids);
    var lists := CountersOf(ids);
    var i :| 0 <= i < |lists| && SuppliesMax(lists[i], f, r[f]);
    var d: Counter :| d in lists[i] && CounterField(d.id) == f && d.max == r[f];
    CounterFieldOwner(ids[i], ids[k], d, c);
  }

  /** Initialisation changes nothing once every equipped counter field is present. */
  lemma InitCountersComplete(m: map<string, int>, ids: seq<string>)
    requires forall f :: Equips(ids, f) ==> f in m
    ensures InitCounters(m, ids) == m
  {
    var r := InitCounters(m, ids);
    assert r.Keys == m.Keys;
  }

  /** Initialising the counters twice gives the same fields as initialising them once. */
  lemma InitCountersIdempotent(m: map<string, int>, ids: seq<string>)
    ensures InitCounters(InitCounters(m, ids), ids) == InitCounters(m, ids)
  {
    InitCountersComplete(InitCounters(m, ids), ids);
  }

  /** The counter fields with those of item `id` deleted; unknown or counterless items delete nothing. */
  function WithoutItemCounters(m: map<string, int>, id: string): (r: map<string, int>)
    ensures forall f :: f in r <==> f in m && !Provides(id, f)
    ensures forall f :: f in r ==> r[f] == m[f]
  {
    m - Fields(ItemCounters(id))
  }

  /** The fields the counters `cs` are stored under. */
  function Fields(cs: seq<Counter>): (r: set<string>)
    ensures forall f :: f in r <==> exists c :: c in cs && CounterField(c.id) == f
  {
    set c | c in cs :: CounterField(c.id)
  }

  /** Removing the fields of one more counter: the step of removeGearCounterProperties' loop. */
  lemma RemoveFieldsStep(m0: map<string, int>, m: map<string, int>, cs: seq<Counter>, j: nat)
    requires j < |cs| && m == m0 - Fields(cs[..j])
    ensures m0 - Fields(cs[..j + 1]) == (if CounterField(cs[j].id) in m then m - {CounterField(cs[j].id)} else m)
  {
    assert cs[..j + 1] == cs[..j] + [cs[j]];
    assert Fields(cs[..j + 1]) == Fields(cs[..j]) + {CounterField(cs[j].id)};
  }

  /** Unequipping an item and initialising again puts each of its counters back at its maximum. */
  lemma ReequipResetsCounter(m: map<string, int>, ids: seq<string>, k: nat, c: Counter)
    requires k < |ids| && c in ItemCounters(ids[k])
    ensures CounterField(c.id) !in WithoutItemCounters(m, ids[k])
    ensures InitCounters(WithoutItemCounters(m, ids[k]), ids)[CounterField(c.id)] == c.max
  {
    assert Provides(ids[k], CounterField(c.id));
    NewCounterIsMax(WithoutItemCounters(m, ids[k]), ids, k, c);
  }
}
