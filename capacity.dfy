/** The capacity admission check that the rewritten store-cell search calls
    (Patch_TryFindBestBetterStoreCellFor.OverCapacity). Given the thing being
    placed, the priority of the store it currently sits in and the things at
    its cell, it decides whether that store is over capacity. If it is, the
    priority (passed by reference in the original) becomes Unstored, so that
    the surrounding search treats any valid store as better.

    Host lookups are resolved before the call: whether the thing is spawned,
    the deep-storage descriptor of the cell's container (if any), and, for
    every thing at the cell, its identity, whether its def is ever storable,
    its stack count and its value of the descriptor's limiting stat. */
module CapacityPolicy {

  datatype Option<T> = None | Some(value: T)

  /** RimWorld's StoragePriority; Unstored is the "not a valid store" sentinel. */
  datatype Priority = Unstored | Low | Normal | Preferred | Important | Critical

  /** A thing lying at the cell, with the results of the host lookups.
      `id` stands for object identity (the source compares references). */
  datatype Thing = Thing(id: nat, storable: bool, stackCount: int, statValue: real)

  /** The CompDeepStorage fields the admission check reads. A limit <= 0 means "no limit". */
  datatype Descriptor = Descriptor(
    limitingFactorForItem: real,
    limitingTotalFactorForCell: real,
    minNumberStacks: int,
    maxNumberStacks: int)

  /** Which warning is logged on a "over capacity" answer. */
  datatype Reason =
    | NotInStorageUnit  // no descriptor and another storable thing is here first
    | TooHeavy          // the thing alone exceeds the per-item limit
    | OverWeight        // the weighted total of the things before it exceeds the cell limit
    | OverStackCount    // the things before it reach the maximum number of stacks

  /** What one call does: return normally with the answer and the new value of
      the by-reference priority, or dereference the missing descriptor. */
  datatype Outcome =
    | Returned(overCapacity: bool, priority: Priority, warning: Option<Reason>)
    | NullDereference

  // ---------------------------------------------------------------------------
  // Running totals over a prefix of the cell's list

  /** Number of storable stacks in `s` (stacksStoredHere). */
  function Stacks(s: seq<Thing>): nat
  {
    if s == [] then 0
    else Stacks(s[..|s| - 1]) + (if s[|s| - 1].storable then 1 else 0)
  }

  /** Weight of one thing for the aggregate rule: stat value times stack count. */
  function Load(t: Thing): real
  {
    t.statValue * t.stackCount as real
  }

  /** Sum of Load over the storable things of `s` (totalWeightStoredHere). */
  function Weight(s: seq<Thing>): real
  {
    if s == [] then 0.0
    else Weight(s[..|s| - 1]) + (if s[|s| - 1].storable then Load(s[|s| - 1]) else 0.0)
  }

  /** The aggregate rule, judged on the totals up to and including position k. */
  predicate WeightRuleAt(d: Descriptor, cell: seq<Thing>, k: nat)
    requires k < |cell|
  {
    && d.limitingTotalFactorForCell > 0.0
    && Weight(cell[..k + 1]) > d.limitingTotalFactorForCell
    && Stacks(cell[..k + 1]) >= d.minNumberStacks
  }

  /** The stack-count rule, judged on the totals up to and including position k. */
  predicate StackRuleAt(d: Descriptor, cell: seq<Thing>, k: nat)
    requires k < |cell|
  {
    Stacks(cell[..k + 1]) >= d.maxNumberStacks
  }

  /** A limit is reached at position k: only a storable thing can trigger one. */
  predicate FiresAt(d: Descriptor, cell: seq<Thing>, k: nat)
    requires k < |cell|
  {
    cell[k].storable && (WeightRuleAt(d, cell, k) || StackRuleAt(d, cell, k))
  }

  /** The occupancy scan stops at k: the candidate itself, or a limit reached. */
  predicate StopsAt(d: Descriptor, thing: Thing, cell: seq<Thing>, k: nat)
    requires k < |cell|
  {
    cell[k].id == thing.id || FiresAt(d, cell, k)
  }

  /** First position at or after `from` where the scan stops; |cell| if none. */
  function ScanStop(d: Descriptor, thing: Thing, cell: seq<Thing>, from: nat): (k: nat)
    requires from <= |cell|
    ensures from <= k <= |cell|
    ensures k < |cell| ==> StopsAt(d, thing, cell, k)
    ensures forall j :: from <= j < k ==> !StopsAt(d, thing, cell, j)
    decreases |cell| - from
  {
    if from == |cell| || StopsAt(d, thing, cell, from) then from
    else ScanStop(d, thing, cell, from + 1)
  }

  /** First storable position at or after `from`; |cell| if none. */
  function FirstStorable(cell: seq<Thing>, from: nat): (k: nat)
    requires from <= |cell|
    ensures from <= k <= |cell|
    ensures k < |cell| ==> cell[k].storable
    ensures forall j :: from <= j < k ==> !cell[j].storable
    decreases |cell| - from
  {
    if from == |cell| || cell[from].storable then from
    else FirstStorable(cell, from + 1)
  }

  /** First position of the candidate in the cell's list; |cell| if absent. */
  function IndexOf(thing: Thing, cell: seq<Thing>): (c: nat)
    ensures c <= |cell|
    ensures c < |cell| ==> cell[c].id == thing.id
    ensures forall j :: 0 <= j < c ==> cell[j].id != thing.id
  {
    if cell == [] then 0
    else if cell[0].id == thing.id then 0
    else 1 + IndexOf(thing, cell[1..])
  }

  // ---------------------------------------------------------------------------
  // Specification of one call

  /** The answer of the admission check, defined by the positions where its
      scans stop. The only failure is a missing descriptor with nothing
      storable at the cell; the early exits leave the priority as it is; the
      answer is "over capacity" exactly when the priority is switched to
      Unstored, and only then is a warning logged. */
  function Evaluate(spawned: bool, priority: Priority, cds: Option<Descriptor>,
                    thing: Thing, cell: seq<Thing>): (r: Outcome)
    ensures r.NullDereference? <==>
              spawned && priority != Unstored && cds.None? &&
              forall j :: 0 <= j < |cell| ==> !cell[j].storable
    ensures !spawned || priority == Unstored ==> r == Returned(false, priority, None)
    ensures r.Returned? ==>
              (r.overCapacity <==> priority != Unstored && r.priority == Unstored)
    ensures r.Returned? && !r.overCapacity ==> r.priority == priority && r.warning == None
    ensures r.Returned? && r.overCapacity ==> r.warning.Some?
  {
    if !spawned then Returned(false, priority, None)
    else if priority == Unstored then Returned(false, priority, None)
    else match cds
      case None =>
        var k := FirstStorable(cell, 0);
        if k == |cell| then NullDereference
        else if cell[k].id == thing.id then Returned(false, priority, None)
        else Returned(true, Unstored, Some(NotInStorageUnit))
      case Some(d) =>
        if d.limitingFactorForItem > 0.0 && thing.statValue > d.limitingFactorForItem then
          Returned(true, Unstored, Some(TooHeavy))
        else
          var k := ScanStop(d, thing, cell, 0);
          if k == |cell| || cell[k].id == thing.id then Returned(false, priority, None)
          else if WeightRuleAt(d, cell, k) then Returned(true, Unstored, Some(OverWeight))
          else Returned(true, Unstored, Some(OverStackCount))
  }

  // ---------------------------------------------------------------------------
  // The admission check itself: one pass over the cell with two accumulators

  /** The admission check as written: two early exits, the no-descriptor walk, the
      per-item limit, then one pass over the cell that stops at the candidate
      or at the first storable thing whose running totals reach a limit. */
  method OverCapacity(spawned: bool, priority: Priority, cds: Option<Descriptor>,
                      thing: Thing, cell: seq<Thing>) returns (r: Outcome)
    ensures r == Evaluate(spawned, priority, cds, thing, cell)
  {
    if !spawned { return Returned(false, priority, None); }
    if priority == Unstored { return Returned(false, priority, None); }
    var storagePriority := priority;
    if cds.None? {
      // a slot group left behind after a storage unit was moved or destroyed
      var i := 0;
      while i < |cell|
        invariant 0 <= i <= |cell|
        invariant forall j :: 0 <= j < i ==> !cell[j].storable
      {
        if cell[i].storable {
          if thing.id == cell[i].id { return Returned(false, storagePriority, None); }
          storagePriority := Unstored;
          return Returned(true, storagePriority, Some(NotInStorageUnit));
        }
        i := i + 1;
      }
      // the source goes on to read cds.limitingFactorForItem with cds == null
      return NullDereference;
    }
    var d := cds.value;
    if d.limitingFactorForItem > 0.0 {
      if thing.statValue > d.limitingFactorForItem {
        storagePriority := Unstored;
        return Returned(true, storagePriority, Some(TooHeavy));
      }
    }
    var totalWeightStoredHere: real := 0.0;
    var stacksStoredHere: int := 0;
    var i := 0;
    while i < |cell|
      invariant 0 <= i <= |cell|
      invariant stacksStoredHere == Stacks(cell[..i])
      invariant d.limitingTotalFactorForCell > 0.0 ==> totalWeightStoredHere == Weight(cell[..i])
      invariant forall j :: 0 <= j < i ==> !StopsAt(d, thing, cell, j)
    {
      var thingInStorage := cell[i];
      assert cell[..i + 1][..i] == cell[..i];
      if thing.id == thingInStorage.id {
        FirstStopIsScanStop(d, thing, cell, i);
        return Returned(false, storagePriority, None);
      }
      if thingInStorage.storable {
        stacksStoredHere := stacksStoredHere + 1;
        if d.limitingTotalFactorForCell > 0.0 {
          totalWeightStoredHere := totalWeightStoredHere + thingInStorage.statValue * thingInStorage.stackCount as real;
          assert totalWeightStoredHere == Weight(cell[..i + 1]);
          if totalWeightStoredHere > d.limitingTotalFactorForCell && stacksStoredHere >= d.minNumberStacks {
            FirstStopIsScanStop(d, thing, cell, i);
            storagePriority := Unstored;
            return Returned(true, storagePriority, Some(OverWeight));
          }
        }
        assert stacksStoredHere == Stacks(cell[..i + 1]);
        if stacksStoredHere >= d.maxNumberStacks {
          FirstStopIsScanStop(d, thing, cell, i);
          storagePriority := Unstored;
          return Returned(true, storagePriority, Some(OverStackCount));
        }
      }
      i := i + 1;
    }
    assert cell[..i] == cell;
    return Returned(false, storagePriority, None);
  }

  /** A position where the scan stops, preceded by none, is the one ScanStop finds. */
  lemma FirstStopIsScanStop(d: Descriptor, thing: Thing, cell: seq<Thing>, i: nat)
    requires i < |cell| && StopsAt(d, thing, cell, i)
    requires forall j :: 0 <= j < i ==> !StopsAt(d, thing, cell, j)
    ensures ScanStop(d, thing, cell, 0) == i
  {
  }

  // ---------------------------------------------------------------------------
  // Properties of the specification

  /** Without a descriptor, the first storable thing at the cell decides:
      the candidate itself means "fits", anything else means "over capacity";
      non-storable things before it are skipped. */
  lemma NoDescriptorFirstStorableDecides(priority: Priority, thing: Thing, cell: seq<Thing>, k: nat)
    requires priority != Unstored
    requires k < |cell| && cell[k].storable
    requires forall j :: 0 <= j < k ==> !cell[j].storable
    ensures Evaluate(true, priority, None, thing, cell) ==
              if cell[k].id == thing.id then Returned(false, priority, None)
              else Returned(true, Unstored, Some(NotInStorageUnit))
  {
  }

  /** A candidate heavier than a positive per-item limit never fits, whatever
      the cell holds, and its stack count plays no part. */
  lemma PerItemLimit(priority: Priority, d: Descriptor, thing: Thing, cell: seq<Thing>)
    requires priority != Unstored
    requires d.limitingFactorForItem > 0.0 && thing.statValue > d.limitingFactorForItem
    ensures Evaluate(true, priority, Some(d), thing, cell) == Returned(true, Unstored, Some(TooHeavy))
  {
  }

  /** The occupancy scan answers "over capacity" exactly when some storable
      thing strictly before the candidate's first position reaches a limit,
      judged on the running totals of the storable things up to it. Things at
      or after the candidate never count. The warning names the rule that
      fired at the first such thing, the weight rule taking precedence. */
  lemma ScanVerdict(priority: Priority, d: Descriptor, thing: Thing, cell: seq<Thing>)
    requires priority != Unstored
    requires !(d.limitingFactorForItem > 0.0 && thing.statValue > d.limitingFactorForItem)
    ensures Evaluate(true, priority, Some(d), thing, cell).Returned?
    ensures Evaluate(true, priority, Some(d), thing, cell).overCapacity <==>
              exists k :: 0 <= k < IndexOf(thing, cell) && FiresAt(d, cell, k)
    ensures Evaluate(true, priority, Some(d), thing, cell).overCapacity ==>
              && ScanStop(d, thing, cell, 0) < IndexOf(thing, cell)
              && FiresAt(d, cell, ScanStop(d, thing, cell, 0))
              && (Evaluate(true, priority, Some(d), thing, cell).warning == Some(OverWeight) <==> WeightRuleAt(d, cell, ScanStop(d, thing, cell, 0)))
              && (Evaluate(true, priority, Some(d), thing, cell).warning == Some(OverStackCount) <==>
                    !WeightRuleAt(d, cell, ScanStop(d, thing, cell, 0)) && StackRuleAt(d, cell, ScanStop(d, thing, cell, 0)))
  {
    var c := IndexOf(thing, cell);
    var k := ScanStop(d, thing, cell, 0);
    if k < c {
      assert cell[k].id != thing.id;
      assert FiresAt(d, cell, k);
    } else {
      if k > c { assert StopsAt(d, thing, cell, c); }
      forall j | 0 <= j < c ensures !FiresAt(d, cell, j) {
        assert !StopsAt(d, thing, cell, j);
      }
    }
  }

  /** The limits are reached by the totals of a whole list: enough storable
      stacks for the stack-count rule (at least one, since only a storable
      thing can trigger it), or a weighted total above a positive cell limit
      with at least the exempt number of stacks. */
  predicate LimitsReached(d: Descriptor, s: seq<Thing>)
  {
    || (Stacks(s) >= 1 && Stacks(s) >= d.maxNumberStacks)
    || (d.limitingTotalFactorForCell > 0.0 && Weight(s) > d.limitingTotalFactorForCell &&
        Stacks(s) >= d.minNumberStacks)
  }

  /** No storable thing carries a negative weight. */
  predicate NonNegativeLoads(s: seq<Thing>)
  {
    forall j :: 0 <= j < |s| && s[j].storable ==> Load(s[j]) >= 0.0
  }

  /** Some position of `s` reaches a limit exactly when the totals of the whole
      of `s` do, provided no storable weight is negative. */
  lemma {:induction false} FiresSomewhereIff(d: Descriptor, s: seq<Thing>)
    requires NonNegativeLoads(s)
    ensures (exists k :: 0 <= k < |s| && FiresAt(d, s, k)) <==> LimitsReached(d, s)
  {
    if s == [] {
    } else {
      var n := |s| - 1;
      var s' := s[..n];
      assert s[..n + 1] == s;
      assert NonNegativeLoads(s');
      FiresSomewhereIff(d, s');
      forall k | 0 <= k < n ensures FiresAt(d, s, k) <==> FiresAt(d, s', k) {
        assert s[..k + 1] == s'[..k + 1];
      }
      if (exists k :: 0 <= k < n && FiresAt(d, s', k)) {
        var k :| 0 <= k < n && FiresAt(d, s', k);
        assert FiresAt(d, s, k);
        assert LimitsReached(d, s');
        if s[n].storable { assert Load(s[n]) >= 0.0; }
        assert LimitsReached(d, s);
      } else if LimitsReached(d, s) {
        assert s[n].storable;
        assert FiresAt(d, s, n);
      }
    }
  }

  /** With non-negative weights only the totals of the storable things before
      the candidate matter: the order of the list plays no other part, and the
      check answers "over capacity" exactly when those totals reach a limit. */
  lemma ScanDecidedByTotals(priority: Priority, d: Descriptor, thing: Thing, cell: seq<Thing>)
    requires priority != Unstored
    requires !(d.limitingFactorForItem > 0.0 && thing.statValue > d.limitingFactorForItem)
    requires NonNegativeLoads(cell[..IndexOf(thing, cell)])
    ensures Evaluate(true, priority, Some(d), thing, cell).Returned?
    ensures Evaluate(true, priority, Some(d), thing, cell).overCapacity <==>
              LimitsReached(d, cell[..IndexOf(thing, cell)])
  {
    var c := IndexOf(thing, cell);
    var pre := cell[..c];
    ScanVerdict(priority, d, thing, cell);
    FiresSomewhereIff(d, pre);
    forall k | 0 <= k < c ensures FiresAt(d, cell, k) <==> FiresAt(d, pre, k) {
      assert cell[..k + 1] == pre[..k + 1];
    }
  }

  /** Without a weight limit for the cell and with a limit of at most one
      stack, any storable thing ahead of the candidate's first position fills
      the cell: the answer is "over capacity" with the stack-count warning,
      whether or not the candidate is at the cell. */
  lemma StoredAheadFillsOneStackCell(priority: Priority, d: Descriptor, thing: Thing, cell: seq<Thing>, j: nat)
    requires priority != Unstored
    requires !(d.limitingFactorForItem > 0.0 && thing.statValue > d.limitingFactorForItem)
    requires d.limitingTotalFactorForCell <= 0.0 && d.maxNumberStacks <= 1
    requires j < IndexOf(thing, cell) && cell[j].storable
    ensures Evaluate(true, priority, Some(d), thing, cell) == Returned(true, Unstored, Some(OverStackCount))
  {
    assert cell[..j + 1][..j] == cell[..j];
    assert Stacks(cell[..j + 1]) >= 1;
    assert FiresAt(d, cell, j);
    ScanVerdict(priority, d, thing, cell);
  }

  /** The candidate being at its cell does not by itself make it fit: in a
      cell holding another storable stack and then the candidate, a limit of
      one stack is already reached. */
  lemma CandidatePresentYetOver()
    ensures Evaluate(true, Normal, Some(Descriptor(0.0, 0.0, 0, 1)), Thing(2, true, 10, 1.0),
                     [Thing(1, true, 10, 1.0), Thing(2, true, 10, 1.0)]) ==
              Returned(true, Unstored, Some(OverStackCount))
  {
    var cell := [Thing(1, true, 10, 1.0), Thing(2, true, 10, 1.0)];
    assert IndexOf(Thing(2, true, 10, 1.0), cell) == 1;
    StoredAheadFillsOneStackCell(Normal, Descriptor(0.0, 0.0, 0, 1), Thing(2, true, 10, 1.0), cell, 0);
  }
}
