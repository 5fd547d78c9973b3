/**
 * `diff_events(prev, cur)`: index both snapshots by uid (the last record of a
 * uid wins, the uid keeps the place of its first appearance) and split the
 * uids into added, changed and removed. Records are compared whole; key
 * order cannot matter because a record is a value of `Event`.
 */
module Diff {
  import opened Events

  /** The uids that occur in `es`. */
  function UidSet(es: seq<Event>): set<string> {
    set k | 0 <= k < |es| :: es[k].uid
  }

  predicate Distinct(s: seq<string>) {
    forall i, j :: 0 <= i < j < |s| ==> s[i] != s[j]
  }

  /** `{e["uid"]: e for e in es}` as a map: a later record replaces an earlier one. */
  function Index(es: seq<Event>): (m: map<string, Event>)
    ensures m.Keys == UidSet(es)
    ensures forall u :: u in m ==> m[u].uid == u
  {
    if es == [] then map[]
    else
      var init := es[..|es| - 1];
      var last := es[|es| - 1];
      var m := Index(init)[last.uid := last];
      assert UidSet(es) == UidSet(init) + {last.uid} by {
        forall u | u in UidSet(es) ensures u in UidSet(init) + {last.uid} {
          var k :| 0 <= k < |es| && es[k].uid == u;
          if k < |es| - 1 { assert init[k] == es[k]; }
        }
        forall u | u in UidSet(init) ensures u in UidSet(es) {
          var k :| 0 <= k < |init| && init[k].uid == u;
          assert es[k] == init[k];
        }
      }
      m
  }

  /** The iteration order of that dict: each uid in the order of its first appearance. */
  function UidOrder(es: seq<Event>): (order: seq<string>)
    ensures Distinct(order)
    ensures forall u :: u in order <==> u in UidSet(es)
  {
    if es == [] then []
    else
      var init := es[..|es| - 1];
      var last := es[|es| - 1];
      assert Index(es).Keys == Index(init).Keys + {last.uid};
      UidOrder(init) + (if last.uid in UidOrder(init) then [] else [last.uid])
  }

  /** The position of the first record at or after `k` that carries `u`, or `|es|`. */
  function FirstAt(es: seq<Event>, u: string, k: nat): (r: nat)
    requires k <= |es|
    ensures k <= r <= |es| && (r < |es| ==> es[r].uid == u)
    ensures forall j :: k <= j < r ==> es[j].uid != u
    decreases |es| - k
  {
    if k == |es| || es[k].uid == u then k else FirstAt(es, u, k + 1)
  }

  /** The position of the first record that carries `u`: where the dict puts `u` in its order. */
  function First(es: seq<Event>, u: string): nat {
    FirstAt(es, u, 0)
  }

  /** The first record carrying `u` from `k` on is the one at `r` when none before it does. */
  lemma {:induction false} FirstAtIs(es: seq<Event>, u: string, k: nat, r: nat)
    requires k <= r < |es| && es[r].uid == u
    requires forall j :: k <= j < r ==> es[j].uid != u
    ensures FirstAt(es, u, k) == r
    decreases r - k
  {
    if k < r {
      FirstAtIs(es, u, k + 1, r);
    }
  }

  /**
   * The iteration order of the dict is the order of first appearance: of two
   * uids, the one listed earlier has its first record earlier.
   */
  lemma {:induction false} UidOrderFirst(es: seq<Event>)
    ensures forall k, l :: 0 <= k < l < |UidOrder(es)| ==> First(es, UidOrder(es)[k]) < First(es, UidOrder(es)[l])
  {
    if es != [] {
      var init := es[..|es| - 1];
      var last := es[|es| - 1];
      var prior := UidOrder(init);
      var order := UidOrder(es);
      UidOrderFirst(init);
      forall u | u in prior ensures First(es, u) == First(init, u) && First(init, u) < |init| {
        var k :| 0 <= k < |init| && init[k].uid == u;
        var f := First(init, u);
        assert f <= k;
        assert forall j :: 0 <= j < f ==> es[j].uid != u by {
          forall j | 0 <= j < f ensures es[j].uid != u { assert es[j] == init[j]; }
        }
        FirstAtIs(es, u, 0, f);
      }
      if last.uid !in prior {
        assert forall j :: 0 <= j < |es| - 1 ==> es[j].uid != last.uid by {
          forall j | 0 <= j < |es| - 1 ensures es[j].uid != last.uid {
            assert es[j] == init[j];
            assert init[j].uid in UidSet(init);
          }
        }
        FirstAtIs(es, last.uid, 0, |es| - 1);
      }
      forall k, l | 0 <= k < l < |order| ensures First(es, order[k]) < First(es, order[l]) {
        assert order[k] == prior[k] && order[k] in prior;
        if l < |prior| {
          assert order[l] == prior[l] && order[l] in prior;
        }
      }
    }
  }

  /** The record `Index` keeps for a uid is the last one carrying it. */
  lemma {:induction false} IndexLastWins(es: seq<Event>, k: nat)
    requires k < |es|
    requires forall j :: k < j < |es| ==> es[j].uid != es[k].uid
    ensures es[k].uid in Index(es) && Index(es)[es[k].uid] == es[k]
  {
    var init := es[..|es| - 1];
    if k < |es| - 1 {
      IndexLastWins(init, k);
    }
  }

  /** Which test a uid must pass to be reported. */
  datatype Test = Missing | Differs

  predicate Keep(test: Test, u: string, own: map<string, Event>, other: map<string, Event>)
    requires u in own
  {
    match test
    case Missing => u !in other
    case Differs => u in other && own[u] != other[u]
  }

  /** The records of `own`, visited in `order`, whose uid passes `test` against `other`. */
  function Pick(order: seq<string>, own: map<string, Event>, other: map<string, Event>, test: Test): seq<Event>
    requires forall k :: 0 <= k < |order| ==> order[k] in own
  {
    if order == [] then []
    else
      var u := order[|order| - 1];
      Pick(order[..|order| - 1], own, other, test) + (if Keep(test, u, own, other) then [own[u]] else [])
  }

  /** `Pick` over one more uid of `order` visits that uid last. */
  lemma PickStep(order: seq<string>, i: nat, own: map<string, Event>, other: map<string, Event>, test: Test)
    requires i < |order| && forall k :: 0 <= k < |order| ==> order[k] in own
    ensures Pick(order[..i + 1], own, other, test)
      == Pick(order[..i], own, other, test) + (if Keep(test, order[i], own, other) then [own[order[i]]] else [])
  {
    assert order[..i + 1][..i] == order[..i];
  }

  /** Every uid of the dict order is a key of the dict. */
  lemma OrderInIndex(es: seq<Event>)
    ensures forall k :: 0 <= k < |UidOrder(es)| ==> UidOrder(es)[k] in Index(es)
  {
    forall k | 0 <= k < |UidOrder(es)| ensures UidOrder(es)[k] in Index(es) {
      assert UidOrder(es)[k] in UidOrder(es);
    }
  }

  function AddedOf(prev: seq<Event>, cur: seq<Event>): seq<Event> {
    Pick(UidOrder(cur), Index(cur), Index(prev), Missing)
  }

  function ChangedOf(prev: seq<Event>, cur: seq<Event>): seq<Event> {
    Pick(UidOrder(cur), Index(cur), Index(prev), Differs)
  }

  function RemovedOf(prev: seq<Event>, cur: seq<Event>): seq<Event> {
    Pick(UidOrder(prev), Index(prev), Index(cur), Missing)
  }

  function Uids(es: seq<Event>): seq<string> {
    seq(|es|, k requires 0 <= k < |es| => es[k].uid)
  }

  /** What `Pick` returns, record by record, and that it lists no uid twice. */
  lemma {:induction false} PickMembers(order: seq<string>, own: map<string, Event>, other: map<string, Event>, test: Test)
    requires forall k :: 0 <= k < |order| ==> order[k] in own
    requires forall u :: u in own ==> own[u].uid == u
    requires Distinct(order)
    ensures forall e :: e in Pick(order, own, other, test) <==>
      e.uid in order && e.uid in own && e == own[e.uid] && Keep(test, e.uid, own, other)
    ensures Distinct(Uids(Pick(order, own, other, test)))
  {
    if order != [] {
      var init := order[..|order| - 1];
      var u := order[|order| - 1];
      PickMembers(init, own, other, test);
      var p := Pick(init, own, other, test);
      var r := Pick(order, own, other, test);
      forall e ensures e in r <==> e.uid in order && e.uid in own && e == own[e.uid] && Keep(test, e.uid, own, other) {
        if e.uid in order && e.uid !in init {
          assert e.uid == u;
        }
      }
      if Keep(test, u, own, other) {
        assert Uids(r) == Uids(p) + [u];
        forall e | e in p ensures e.uid != u {
          assert e.uid in init;
        }
        forall i | 0 <= i < |p| ensures Uids(r)[i] != u {
          assert p[i] in p;
        }
      } else {
        assert r == p;
      }
    }
  }

  /**
   * `Pick` keeps the order in which it visits the uids: when their first
   * records in `es` come in the order of `order`, so do those of the uids
   * `Pick` returns, which are thus a subsequence of `order`.
   */
  lemma {:induction false} PickSorted(order: seq<string>, own: map<string, Event>, other: map<string, Event>, test: Test,
                                      es: seq<Event>)
    requires forall k :: 0 <= k < |order| ==> order[k] in own
    requires forall u :: u in own ==> own[u].uid == u
    requires forall k, l :: 0 <= k < l < |order| ==> First(es, order[k]) < First(es, order[l])
    ensures forall k, l :: 0 <= k < l < |Pick(order, own, other, test)| ==>
      First(es, Pick(order, own, other, test)[k].uid) < First(es, Pick(order, own, other, test)[l].uid)
  {
    if order != [] {
      var init := order[..|order| - 1];
      var u := order[|order| - 1];
      var p := Pick(init, own, other, test);
      PickSorted(init, own, other, test, es);
      if Keep(test, u, own, other) {
        PickUids(init, own, other, test);
        var picked := p + [own[u]];
        assert Pick(order, own, other, test) == picked;
        forall k, l | 0 <= k < l < |picked| ensures First(es, picked[k].uid) < First(es, picked[l].uid) {
          if l == |p| {
            assert p[k].uid in init;
            var i :| 0 <= i < |init| && init[i] == p[k].uid;
            assert order[i] == p[k].uid;
          } else {
            assert picked[k] == p[k] && picked[l] == p[l];
          }
        }
      } else {
        assert Pick(order, own, other, test) == p;
      }
    }
  }

  /** Every record `Pick` returns carries a uid of `order`. */
  lemma {:induction false} PickUids(order: seq<string>, own: map<string, Event>, other: map<string, Event>, test: Test)
    requires forall k :: 0 <= k < |order| ==> order[k] in own
    requires forall u :: u in own ==> own[u].uid == u
    ensures forall k :: 0 <= k < |Pick(order, own, other, test)| ==> Pick(order, own, other, test)[k].uid in order
  {
    if order != [] {
      var init := order[..|order| - 1];
      PickUids(init, own, other, test);
      var picked := Pick(order, own, other, test);
      var p := Pick(init, own, other, test);
      forall k | 0 <= k < |picked| ensures picked[k].uid in order {
        if k < |p| {
          assert p[k].uid in init;
          var i :| 0 <= i < |init| && init[i] == p[k].uid;
          assert order[i] == picked[k].uid;
        } else {
          assert order[|order| - 1] == picked[k].uid;
        }
      }
    }
  }

  /** `Pick` is empty when no uid of `order` passes the test. */
  lemma {:induction false} PickNone(order: seq<string>, own: map<string, Event>, other: map<string, Event>, test: Test)
    requires forall k :: 0 <= k < |order| ==> order[k] in own
    requires forall k :: 0 <= k < |order| ==> !Keep(test, order[k], own, other)
    ensures Pick(order, own, other, test) == []
  {
    if order != [] {
      PickNone(order[..|order| - 1], own, other, test);
    }
  }

  /**
   * The three lists of `diff_events`, record by record: added are the current
   * records of new uids, changed the current records of uids whose record
   * differs, removed the previous records of vanished uids. Duplicated uids
   * are compared and reported through their last record.
   */
  lemma DiffMembers(prev: seq<Event>, cur: seq<Event>)
    ensures forall e :: e in AddedOf(prev, cur) <==>
      e.uid in Index(cur) && e.uid !in Index(prev) && e == Index(cur)[e.uid]
    ensures forall e :: e in ChangedOf(prev, cur) <==>
      e.uid in Index(cur) && e.uid in Index(prev) && e == Index(cur)[e.uid] && e != Index(prev)[e.uid]
    ensures forall e :: e in RemovedOf(prev, cur) <==>
      e.uid in Index(prev) && e.uid !in Index(cur) && e == Index(prev)[e.uid]
    ensures Distinct(Uids(AddedOf(prev, cur)))
    ensures Distinct(Uids(ChangedOf(prev, cur)))
    ensures Distinct(Uids(RemovedOf(prev, cur)))
  {
    OrderInIndex(cur);
    OrderInIndex(prev);
    PickMembers(UidOrder(cur), Index(cur), Index(prev), Missing);
    PickMembers(UidOrder(cur), Index(cur), Index(prev), Differs);
    PickMembers(UidOrder(prev), Index(prev), Index(cur), Missing);
  }

  /**
   * Each list follows the order of first appearance in the snapshot it is
   * read from: added and changed records by their uid's first record in
   * `cur`, removed ones by their uid's first record in `prev`.
   */
  lemma DiffOrder(prev: seq<Event>, cur: seq<Event>)
    ensures forall k, l :: 0 <= k < l < |AddedOf(prev, cur)| ==>
      First(cur, AddedOf(prev, cur)[k].uid) < First(cur, AddedOf(prev, cur)[l].uid)
    ensures forall k, l :: 0 <= k < l < |ChangedOf(prev, cur)| ==>
      First(cur, ChangedOf(prev, cur)[k].uid) < First(cur, ChangedOf(prev, cur)[l].uid)
    ensures forall k, l :: 0 <= k < l < |RemovedOf(prev, cur)| ==>
      First(prev, RemovedOf(prev, cur)[k].uid) < First(prev, RemovedOf(prev, cur)[l].uid)
  {
    OrderInIndex(cur);
    OrderInIndex(prev);
    UidOrderFirst(cur);
    UidOrderFirst(prev);
    PickSorted(UidOrder(cur), Index(cur), Index(prev), Missing, cur);
    PickSorted(UidOrder(cur), Index(cur), Index(prev), Differs, cur);
    PickSorted(UidOrder(prev), Index(prev), Index(cur), Missing, prev);
  }

  /**
   * The uids fall into exactly one of four classes: added, changed, removed,
   * or present on both sides with the same record.
   */
  lemma DiffPartition(prev: seq<Event>, cur: seq<Event>, u: string)
    requires u in UidSet(prev) || u in UidSet(cur)
    ensures var inA := u in Uids(AddedOf(prev, cur));
            var inC := u in Uids(ChangedOf(prev, cur));
            var inR := u in Uids(RemovedOf(prev, cur));
            var same := u in Index(prev) && u in Index(cur) && Index(prev)[u] == Index(cur)[u];
            (if inA then 1 else 0) + (if inC then 1 else 0) + (if inR then 1 else 0) + (if same then 1 else 0) == 1
  {
    DiffMembers(prev, cur);
    var a, c, r := AddedOf(prev, cur), ChangedOf(prev, cur), RemovedOf(prev, cur);
    if u in Uids(a) { var k :| 0 <= k < |a| && a[k].uid == u; assert a[k] in a; }
    if u in Uids(c) { var k :| 0 <= k < |c| && c[k].uid == u; assert c[k] in c; }
    if u in Uids(r) { var k :| 0 <= k < |r| && r[k].uid == u; assert r[k] in r; }
    if u in Index(cur) && u !in Index(prev) {
      assert Index(cur)[u] in a;
      assert Uids(a)[IndexOf(a, Index(cur)[u])] == u;
    }
    if u in Index(cur) && u in Index(prev) && Index(cur)[u] != Index(prev)[u] {
      assert Index(cur)[u] in c;
      assert Uids(c)[IndexOf(c, Index(cur)[u])] == u;
    }
    if u in Index(prev) && u !in Index(cur) {
      assert Index(prev)[u] in r;
      assert Uids(r)[IndexOf(r, Index(prev)[u])] == u;
    }
  }

  function IndexOf(s: seq<Event>, e: Event): (k: nat)
    requires e in s
    ensures k < |s| && s[k] == e
  {
    if s[0] == e then 0 else 1 + IndexOf(s[1..], e)
  }

  /** Comparing a snapshot with itself reports nothing. */
  lemma DiffSelf(xs: seq<Event>)
    ensures AddedOf(xs, xs) == [] && ChangedOf(xs, xs) == [] && RemovedOf(xs, xs) == []
  {
    PickNone(UidOrder(xs), Index(xs), Index(xs), Missing);
    PickNone(UidOrder(xs), Index(xs), Index(xs), Differs);
  }

  /** Two records with one uid in one snapshot: only the later one is seen. */
  lemma DuplicateUidLastWins(a: Event, b: Event)
    requires a.uid == b.uid
    ensures AddedOf([], [a, b]) == [b]
    ensures RemovedOf([a, b], []) == [b]
  {
    PairIndex(a, b);
    assert Index([]) == map[];
    PickSingle(a.uid, Index([a, b]), map[], Missing);
  }

  lemma PairIndex(a: Event, b: Event)
    requires a.uid == b.uid
    ensures UidOrder([a, b]) == [a.uid]
    ensures a.uid in Index([a, b]) && Index([a, b])[a.uid] == b
  {
    var es := [a, b];
    assert es[..1] == [a] && [a][..0] == [];
    assert UidOrder([a]) == [a.uid];
    IndexLastWins(es, 1);
  }

  lemma PickSingle(u: string, own: map<string, Event>, other: map<string, Event>, test: Test)
    requires u in own
    ensures Pick([u], own, other, test) == if Keep(test, u, own, other) then [own[u]] else []
  {
    assert [u][..0] == [];
  }

  /**
   * `{e["uid"]: e for e in events}`, with the dict's insertion order kept
   * explicitly in `order`.
   */
  method BuildIndex(events: seq<Event>) returns (order: seq<string>, index: map<string, Event>)
    ensures order == UidOrder(events) && index == Index(events)
  {
    order, index := [], map[];
    for i := 0 to |events|
      invariant order == UidOrder(events[..i]) && index == Index(events[..i])
    {
      var e := events[i];
      assert events[..i + 1][..i] == events[..i];
      if e.uid !in index {
        order := order + [e.uid];
      }
      index := index[e.uid := e];
    }
    assert events[..|events|] == events;
  }

  /** `diff_events(prev, cur)`. */
  method DiffEvents(prev: seq<Event>, cur: seq<Event>) returns (added: seq<Event>, changed: seq<Event>, removed: seq<Event>)
    ensures added == AddedOf(prev, cur)
    ensures changed == ChangedOf(prev, cur)
    ensures removed == RemovedOf(prev, cur)
  {
    var prevOrder, prevMap := BuildIndex(prev);
    var curOrder, curMap := BuildIndex(cur);
    OrderInIndex(cur);
    OrderInIndex(prev);
    added, changed := SplitCurrent(curOrder, curMap, prevMap);
    removed := CollectRemoved(prevOrder, prevMap, curMap);
  }

  /** The first loop of `diff_events`: new uids to added, uids with a different record to changed. */
  method SplitCurrent(curOrder: seq<string>, curMap: map<string, Event>, prevMap: map<string, Event>)
    returns (added: seq<Event>, changed: seq<Event>)
    requires forall k :: 0 <= k < |curOrder| ==> curOrder[k] in curMap
    ensures added == Pick(curOrder, curMap, prevMap, Missing)
    ensures changed == Pick(curOrder, curMap, prevMap, Differs)
  {
    added, changed := [], [];
    for i := 0 to |curOrder|
      invariant added == Pick(curOrder[..i], curMap, prevMap, Missing)
      invariant changed == Pick(curOrder[..i], curMap, prevMap, Differs)
    {
      var uid := curOrder[i];
      PickStep(curOrder, i, curMap, prevMap, Missing);
      PickStep(curOrder, i, curMap, prevMap, Differs);
      if uid !in prevMap {
        added := added + [curMap[uid]];
      } else if curMap[uid] != prevMap[uid] {
        changed := changed + [curMap[uid]];
      }
    }
    assert curOrder[..|curOrder|] == curOrder;
  }

  /** The second loop of `diff_events`: vanished uids to removed. */
  method CollectRemoved(prevOrder: seq<string>, prevMap: map<string, Event>, curMap: map<string, Event>)
    returns (removed: seq<Event>)
    requires forall k :: 0 <= k < |prevOrder| ==> prevOrder[k] in prevMap
    ensures removed == Pick(prevOrder, prevMap, curMap, Missing)
  {
    removed := [];
    for i := 0 to |prevOrder|
      invariant removed == Pick(prevOrder[..i], prevMap, curMap, Missing)
    {
      var uid := prevOrder[i];
      PickStep(prevOrder, i, prevMap, curMap, Missing);
      if uid !in curMap {
        removed := removed + [prevMap[uid]];
      }
    }
    assert prevOrder[..|prevOrder|] == prevOrder;
  }
}
