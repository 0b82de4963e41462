/** The index-based listener registries (desk/desk.go, desk/stats.go): a listener
    remembers the index it was appended at, and its cancel function deletes
    whatever sits at that index. */
module Registry {

  function CancelAt<T>(list: seq<T>, idx: nat): seq<T> {
    if idx < |list| then list[..idx] + list[idx + 1..] else list
  }

  // ---------- histories ----------

  /** What has been done to a registry so far. Listeners are named by registration
      order: the k-th Register creates listener k. */
  datatype History =
    | Fresh
    | Register(before: History)
    | Cancel(before: History, k: nat)

  /** The registry's contents, and the index each listener captured. */
  datatype State = State(list: seq<nat>, idx: seq<nat>)

  function After(h: History): State {
    match h
    case Fresh => State([], [])
    case Register(before) =>
      var s := After(before);
      State(s.list + [|s.idx|], s.idx + [|s.list|])
    case Cancel(before, k) =>
      var s := After(before);
      if k < |s.idx| then s.(list := CancelAt(s.list, s.idx[k])) else s
  }

  function Registered(h: History): nat {
    |After(h).idx|
  }

  function Without(list: seq<nat>, k: nat): seq<nat> {
    if list == [] then []
    else if list[0] == k then Without(list[1..], k)
    else [list[0]] + Without(list[1..], k)
  }

  /** The listeners registered and not cancelled, in registration order. */
  function Live(h: History): seq<nat> {
    match h
    case Fresh => []
    case Register(before) => Live(before) + [Registered(before)]
    case Cancel(before, k) => Without(Live(before), k)
  }

  /** Every cancel is that of a live listener: it runs once, after registration. */
  predicate Proper(h: History) {
    match h
    case Fresh => true
    case Register(before) => Proper(before)
    case Cancel(before, k) => Proper(before) && k in Live(before)
  }

  /** At every moment so far the registry held exactly the live listeners. */
  predicate AlwaysCorrect(h: History) {
    && After(h).list == Live(h)
    && (h.Fresh? || AlwaysCorrect(h.before))
  }

  /** Some listener older than y was cancelled while y was registered. */
  predicate Overtaken(h: History, y: nat) {
    match h
    case Fresh => false
    case Register(before) => Overtaken(before, y)
    case Cancel(before, x) => x < y < Registered(before) || Overtaken(before, y)
  }

  /** Two lifetimes overlap without nesting: the older listener is cancelled first. */
  predicate Crossing(h: History) {
    match h
    case Fresh => false
    case Register(before) => Crossing(before)
    case Cancel(before, y) => Overtaken(before, y) || Crossing(before)
  }

  // ---------- facts about lists ----------

  ghost predicate Increasing(list: seq<nat>) {
    forall a, b :: 0 <= a < b < |list| ==> list[a] < list[b]
  }

  lemma {:induction false} WithoutAbsent(list: seq<nat>, k: nat)
    requires k !in list
    ensures Without(list, k) == list
  {
    if list != [] {
      WithoutAbsent(list[1..], k);
    }
  }

  lemma {:induction false} WithoutAt(list: seq<nat>, p: nat)
    requires Increasing(list) && p < |list|
    ensures Without(list, list[p]) == CancelAt(list, p)
  {
    var rest := list[1..];
    assert forall i :: 0 < i < |list| ==> rest[i - 1] == list[i];
    if p == 0 {
      WithoutAbsent(rest, list[0]);
    } else {
      assert Increasing(rest);
      WithoutAt(rest, p - 1);
      CancelAtTail(list, p);
    }
  }

  lemma CancelAtTail(list: seq<nat>, p: nat)
    requires 0 < p < |list|
    ensures CancelAt(list, p) == [list[0]] + CancelAt(list[1..], p - 1)
  {
  }

  lemma OnlyOwnIndexRemovesIt(list: seq<nat>, p: nat, q: nat)
    requires Increasing(list) && p < |list|
    ensures CancelAt(list, q) == CancelAt(list, p) <==> q == p
  {
    if p < q < |list| {
      assert CancelAt(list, q)[p] == list[p];
      assert CancelAt(list, p)[p] == list[p + 1];
    } else if q < p {
      assert CancelAt(list, q)[q] == list[q + 1];
      assert CancelAt(list, p)[q] == list[q];
    } else if q >= |list| {
      assert |CancelAt(list, p)| < |CancelAt(list, q)|;
    }
  }

  // ---------- how far a captured index drifts ----------

  /** The number of older listeners cancelled since y registered. */
  ghost function Drift(h: History, y: nat): nat {
    match h
    case Fresh => 0
    case Register(before) => Drift(before, y)
    case Cancel(before, x) => Drift(before, y) + if x < y < Registered(before) then 1 else 0
  }

  lemma {:induction false} DriftMeansOvertaken(h: History, y: nat)
    ensures Drift(h, y) > 0 <==> Overtaken(h, y)
  {
    if !h.Fresh? {
      DriftMeansOvertaken(h.before, y);
    }
  }

  lemma {:induction false} DriftOfNew(h: History, y: nat)
    requires y >= Registered(h)
    ensures Drift(h, y) == 0
  {
    if !h.Fresh? {
      DriftOfNew(h.before, y);
    }
  }

  /** A live listener sits Drift places below the index it captured. */
  ghost predicate TrackedAt(h: History, p: nat)
    requires p < |Live(h)|
  {
    var y := Live(h)[p];
    y < Registered(h) && p + Drift(h, y) == After(h).idx[y]
  }

  ghost predicate Tracked(h: History) {
    && Increasing(Live(h))
    && (forall p :: 0 <= p < |Live(h)| ==> TrackedAt(h, p))
  }

  lemma TrackedCancel(h: History, p: nat)
    requires Tracked(h) && p < |Live(h)|
    ensures Tracked(Cancel(h, Live(h)[p]))
  {
    var live := Live(h);
    var after := Cancel(h, live[p]);
    WithoutAt(live, p);
    forall q | 0 <= q < |Live(after)|
      ensures TrackedAt(after, q)
    {
      var q0 := if q < p then q else q + 1;
      assert Live(after)[q] == live[q0];
      assert TrackedAt(h, q0);
    }
  }

  lemma TrackedRegister(h: History)
    requires Tracked(h) && After(h).list == Live(h)
    ensures Tracked(Register(h))
  {
    var after := Register(h);
    DriftOfNew(h, Registered(h));
    forall q | 0 <= q < |Live(after)|
      ensures TrackedAt(after, q)
    {
      if q < |Live(h)| {
        assert TrackedAt(h, q);
      }
    }
    forall a, b | 0 <= a < b < |Live(after)|
      ensures Live(after)[a] < Live(after)[b]
    {
      assert TrackedAt(h, a);
    }
  }

  /** A registry whose cancels each run once is correct at every moment exactly
      when no two lifetimes cross, that is, when they are pairwise nested or
      disjoint. Being correct, each cancel removed its own listener. */
  lemma {:induction false} CorrectIffNoCrossing(h: History)
    requires Proper(h)
    ensures AlwaysCorrect(h) <==> !Crossing(h)
    ensures AlwaysCorrect(h) ==> Tracked(h)
  {
    match h
    case Fresh =>
    case Register(before) =>
      CorrectIffNoCrossing(before);
      if AlwaysCorrect(before) {
        TrackedRegister(before);
      }
    case Cancel(before, k) =>
      CorrectIffNoCrossing(before);
      if AlwaysCorrect(before) {
        CancelCorrectIff(before, k);
      }
  }

  lemma CancelCorrectIff(h: History, k: nat)
    requires Tracked(h) && After(h).list == Live(h) && k in Live(h)
    ensures After(Cancel(h, k)).list == Live(Cancel(h, k)) <==> !Overtaken(h, k)
    ensures Tracked(Cancel(h, k))
  {
    var live := Live(h);
    var p :| 0 <= p < |live| && live[p] == k;
    assert TrackedAt(h, p);
    WithoutAt(live, p);
    OnlyOwnIndexRemovesIt(live, p, After(h).idx[k]);
    DriftMeansOvertaken(h, k);
    TrackedCancel(h, p);
  }

  lemma ThreeRegistered()
    ensures var h := Register(Register(Register(Fresh)));
            Proper(h) && Live(h) == [0, 1, 2] && After(h) == State([0, 1, 2], [0, 1, 2])
  {
    var h2 := Register(Register(Fresh));
    assert After(h2) == State([0, 1], [0, 1]) && Live(h2) == [0, 1];
  }

  lemma CancelOldest(h: History)
    requires Proper(h) && Live(h) == [0, 1, 2] && After(h) == State([0, 1, 2], [0, 1, 2])
    ensures Proper(Cancel(h, 0)) && Live(Cancel(h, 0)) == [1, 2]
    ensures After(Cancel(h, 0)) == State([1, 2], [0, 1, 2])
  {
    WithoutAt([0, 1, 2], 0);
  }

  lemma CancelNext(h: History)
    requires Proper(h) && Live(h) == [1, 2] && After(h) == State([1, 2], [0, 1, 2])
    ensures Proper(Cancel(h, 1)) && Live(Cancel(h, 1)) == [2]
    ensures After(Cancel(h, 1)).list == [1]
  {
    WithoutAt([1, 2], 0);
  }

  /** Register 0, 1, 2; cancel 0, then 1: the second cancel removes 2. */
  lemma CrossedCancelRemovesAnother()
    ensures var h := Cancel(Cancel(Register(Register(Register(Fresh))), 0), 1);
            Proper(h) && Live(h) == [2] && After(h).list == [1]
  {
    var h := Register(Register(Register(Fresh)));
    ThreeRegistered();
    CancelOldest(h);
    CancelNext(Cancel(h, 0));
  }

  /** Running a cancel twice is not harmless either: it removes the next listener. */
  lemma RepeatedCancelRemovesAnother()
    ensures var h := Cancel(Cancel(Register(Register(Fresh)), 0), 0);
            Live(h) == [1] && After(h).list == []
  {
    var h2 := Register(Register(Fresh));
    assert After(h2) == State([0, 1], [0, 1]) && Live(h2) == [0, 1];
    WithoutAt([0, 1], 0);
    var h3 := Cancel(h2, 0);
    assert After(h3) == State([1], [0, 1]) && Live(h3) == [1];
    WithoutAbsent([1], 0);
  }
}
