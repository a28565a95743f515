/** The rewrite of StoreUtility.TryFindBestBetterStoreCellFor
    (Patch_TryFindBestBetterStoreCellFor.Transpiler). The routine's body is a
    list of IL instructions; the rewrite copies it in four phases that share
    one cursor and never move it back:

      1. copy up to and including the first `stloc.1` (storagePriority =
         currentPriority), then call OverCapacity(map, thing, ref
         storagePriority) and store its answer in a new bool local;
      2. copy up to, but not including, the first `stloc.s 7` (the store of
         the slot group's priority);
      3. copy, from that store on, up to the first `ldloc.s 7; ldarg.3; bgt L`
         (priority <= currentPriority), inserting `ldloc.s <new local>;
         brtrue L` just before it;
      4. copy the rest.

    A phase that runs off the end logs an error code; the later phases then
    find nothing more to do. Only the list structure is modelled, not what
    the rewritten routine computes. */
module StorePatch {

  /** The opcodes the rewrite looks for or emits; every other opcode is `Other`. */
  datatype OpCode =
    | Stloc_1 | Stloc_S | Ldloc_S | Ldloca_S
    | Ldarg_0 | Ldarg_2 | Ldarg_3
    | Bgt | Brtrue | Call
    | Other(code: nat)

  /** Instruction operands: a local slot, a branch label, an integer, a method. */
  datatype Operand =
    | Local(index: nat)
    | Label(id: nat)
    | Int(value: int)
    | Method(name: string)
    | NoOperand

  datatype Instr = Instr(op: OpCode, operand: Operand)

  /** The rewrite either yields a list and the error codes logged on the way
      (in order), or stops on an index past the end of the list in phase 3,
      after logging the codes in `failures`. */
  datatype Result =
    | Emitted(code: seq<Instr>, failures: seq<nat>)
    | OutOfRange(failures: seq<nat>)

  /** The routine's own instructions give every `stloc.s` and `ldloc.s` a
      local operand; the source casts those operands to a local builder. */
  predicate LocalOperands(code: seq<Instr>)
  {
    forall j :: 0 <= j < |code| && (code[j].op == Stloc_S || code[j].op == Ldloc_S) ==>
      code[j].operand.Local?
  }

  /** `stloc.s 7`: storing the slot group's priority. */
  predicate IsPriorityStore(ins: Instr)
  {
    ins.op == Stloc_S && ins.operand == Local(7)
  }

  /** `ldloc.s 7`: loading the slot group's priority. */
  predicate IsPriorityLoad(ins: Instr)
  {
    ins.op == Ldloc_S && ins.operand == Local(7)
  }

  /** The five instructions injected after `stloc.1`:
      overCapacity = OverCapacity(map, thing, ref storagePriority). */
  function InjectedCall(overCapacity: nat): seq<Instr>
  {
    [ Instr(Ldarg_2, NoOperand),
      Instr(Ldarg_0, NoOperand),
      Instr(Ldloca_S, Int(1)),
      Instr(Call, Method("OverCapacity")),
      Instr(Stloc_S, Local(overCapacity)) ]
  }

  /** The two instructions injected before the comparison: if (overCapacity) goto target. */
  function InjectedBranch(overCapacity: nat, target: Operand): seq<Instr>
  {
    [ Instr(Ldloc_S, Local(overCapacity)), Instr(Brtrue, target) ]
  }

  // ---------------------------------------------------------------------------
  // The landmarks

  /** First `stloc.1` at or after `from`; |code| if none. */
  function NextStloc1(code: seq<Instr>, from: nat): (k: nat)
    requires from <= |code|
    ensures from <= k <= |code|
    ensures k < |code| ==> code[k].op == Stloc_1
    decreases |code| - from
  {
    if from == |code| || code[from].op == Stloc_1 then from
    else NextStloc1(code, from + 1)
  }

  /** First `stloc.s 7` at or after `from`; |code| if none. */
  function NextPriorityStore(code: seq<Instr>, from: nat): (k: nat)
    requires from <= |code|
    ensures from <= k <= |code|
    ensures k < |code| ==> IsPriorityStore(code[k])
    decreases |code| - from
  {
    if from == |code| || IsPriorityStore(code[from]) then from
    else NextPriorityStore(code, from + 1)
  }

  /** `ldloc.s 7; ldarg.3; bgt` starts at k. */
  predicate TripleAt(code: seq<Instr>, k: nat)
    requires k + 2 < |code|
  {
    IsPriorityLoad(code[k]) && code[k + 1].op == Ldarg_3 && code[k + 2].op == Bgt
  }

  /** The test of the triple at k reads code[k + 1] or code[k + 2] past the end
      (the reads are not bounds-checked; `&&` stops at the first false part). */
  predicate OverrunsAt(code: seq<Instr>, k: nat)
    requires k < |code|
  {
    IsPriorityLoad(code[k]) &&
    (k + 1 == |code| || (code[k + 1].op == Ldarg_3 && k + 2 == |code|))
  }

  /** The test of the triple at k succeeds. */
  predicate MatchesAt(code: seq<Instr>, k: nat)
    requires k < |code|
  {
    k + 2 < |code| && TripleAt(code, k)
  }

  /** What the phase-3 scan finds from a position on. */
  datatype Probe = Hit(at: nat) | Miss | Overrun(at: nat)

  /** The phase-3 scan: the first position at or after `from` whose test
      reads past the end (Overrun) or succeeds (Hit); Miss if none. */
  function ScanTriple(code: seq<Instr>, from: nat): (p: Probe)
    requires from <= |code|
    ensures p.Hit? ==> from <= p.at && p.at + 2 < |code| && TripleAt(code, p.at)
    ensures p.Overrun? ==> from <= p.at < |code| && OverrunsAt(code, p.at)
    decreases |code| - from
  {
    if from == |code| then Miss
    else if OverrunsAt(code, from) then Overrun(from)
    else if MatchesAt(code, from) then Hit(from)
    else ScanTriple(code, from + 1)
  }

  /** NextStloc1 finds exactly the first `stloc.1` (or the end). */
  lemma {:induction false} NextStloc1Is(code: seq<Instr>, from: nat, k: nat)
    requires from <= k <= |code|
    requires k < |code| ==> code[k].op == Stloc_1
    requires forall j :: from <= j < k ==> code[j].op != Stloc_1
    ensures NextStloc1(code, from) == k
    decreases k - from
  {
    if from < k {
      NextStloc1Is(code, from + 1, k);
    }
  }

  /** NextPriorityStore finds exactly the first `stloc.s 7` (or the end). */
  lemma {:induction false} NextPriorityStoreIs(code: seq<Instr>, from: nat, k: nat)
    requires from <= k <= |code|
    requires k < |code| ==> IsPriorityStore(code[k])
    requires forall j :: from <= j < k ==> !IsPriorityStore(code[j])
    ensures NextPriorityStore(code, from) == k
    decreases k - from
  {
    if from < k {
      NextPriorityStoreIs(code, from + 1, k);
    }
  }

  /** The phase-3 scan ends at the first position that overruns or matches. */
  lemma {:induction false} ScanTripleEndsAt(code: seq<Instr>, from: nat, i: nat)
    requires from <= i < |code|
    requires forall j :: from <= j < i ==> !MatchesAt(code, j) && !OverrunsAt(code, j)
    requires OverrunsAt(code, i) || MatchesAt(code, i)
    ensures ScanTriple(code, from) == if OverrunsAt(code, i) then Overrun(i) else Hit(i)
    decreases i - from
  {
    if from < i {
      ScanTripleEndsAt(code, from + 1, i);
    }
  }

  /** The phase-3 scan finds nothing when no position overruns or matches. */
  lemma {:induction false} ScanTripleMisses(code: seq<Instr>, from: nat)
    requires from <= |code|
    requires forall j :: from <= j < |code| ==> !MatchesAt(code, j) && !OverrunsAt(code, j)
    ensures ScanTriple(code, from) == Miss
    decreases |code| - from
  {
    if from < |code| {
      ScanTripleMisses(code, from + 1);
    }
  }

  // ---------------------------------------------------------------------------
  // Specification of the rewrite

  /** The cursor after phase 1: just past the first `stloc.1`, or the end. */
  function AfterCallSite(code: seq<Instr>): (c: nat)
    ensures c <= |code|
  {
    var p := NextStloc1(code, 0);
    if p < |code| then p + 1 else |code|
  }

  /** The output of phase 1: the input through the first `stloc.1` followed by
      the injected call, or the whole input when there is no `stloc.1`. */
  function CallSiteOutput(code: seq<Instr>, overCapacity: nat): seq<Instr>
  {
    var p := NextStloc1(code, 0);
    if p < |code| then code[..p + 1] + InjectedCall(overCapacity) else code
  }

  /** The result, given the output of phase 1, the cursors c and s after
      phases 1 and 2, and what phase 3 finds from s. */
  function Assemble(code: seq<Instr>, overCapacity: nat, out1: seq<Instr>, c: nat, s: nat, probe: Probe): Result
    requires c <= s <= |code|
    requires probe.Hit? ==> s <= probe.at && probe.at + 2 < |code|
  {
    var f0: seq<nat> := if c == |code| then [0] else [];
    var f1: seq<nat> := if s == |code| then [1] else [];
    match probe
    case Overrun(_) => OutOfRange(f0 + f1)
    case Miss => Emitted(out1 + code[c..s] + code[s..], f0 + f1 + [2])
    case Hit(b) =>
      Emitted(out1 + code[c..s] + code[s..b] + InjectedBranch(overCapacity, code[b + 2].operand) + code[b..],
              f0 + f1)
  }

  /** What phase 3 finds, starting where phase 2 stops. */
  function ComparisonProbe(code: seq<Instr>): Probe
  {
    ScanTriple(code, NextPriorityStore(code, AfterCallSite(code)))
  }

  /** The rewrite, defined by its landmark positions. Each failure code is
      logged exactly when its phase leaves the cursor at the end; the rewrite
      fails exactly when the comparison test reads past the end; and no
      failure is logged exactly when a comparison is found. */
  function Rewrite(code: seq<Instr>, overCapacity: nat): (r: Result)
    ensures (0 in r.failures) <==> AfterCallSite(code) == |code|
    ensures (1 in r.failures) <==> NextPriorityStore(code, AfterCallSite(code)) == |code|
    ensures (2 in r.failures) <==> ComparisonProbe(code).Miss?
    ensures r.OutOfRange? <==> ComparisonProbe(code).Overrun?
    ensures r.Emitted? ==> (r.failures == [] <==> ComparisonProbe(code).Hit?)
  {
    var c := AfterCallSite(code);
    var s := NextPriorityStore(code, c);
    Assemble(code, overCapacity, CallSiteOutput(code, overCapacity), c, s, ScanTriple(code, s))
  }

  /** A rewrite that does not fail adds five instructions when there is a
      `stloc.1` and two more when there is a comparison, and keeps the input
      up to the cursor after phase 1. */
  lemma RewriteGrowth(code: seq<Instr>, overCapacity: nat)
    ensures Rewrite(code, overCapacity).Emitted? ==>
              && |Rewrite(code, overCapacity).code| ==
                   |code| + (if NextStloc1(code, 0) < |code| then 5 else 0)
                          + (if ComparisonProbe(code).Hit? then 2 else 0)
              && Rewrite(code, overCapacity).code[..AfterCallSite(code)] == code[..AfterCallSite(code)]
  {
    var c := AfterCallSite(code);
    var out1 := CallSiteOutput(code, overCapacity);
    assert |out1| == c + (if NextStloc1(code, 0) < |code| then 5 else 0) && out1[..c] == code[..c];
  }

  // ---------------------------------------------------------------------------
  // The rewrite itself: four loops over one cursor, appending to the output.
  // Each loop is a method of its own; Transpiler runs them in order.

  /** Phase 1: copy through the first `stloc.1` and inject the call after it. */
  method CopyThroughCallSite(code: seq<Instr>, overCapacity: nat) returns (i: nat, out: seq<Instr>)
    ensures i == AfterCallSite(code)
    ensures out == CallSiteOutput(code, overCapacity)
  {
    out := [];
    i := 0;
    while i < |code|
      invariant 0 <= i <= |code|
      invariant out == code[..i]
      invariant NextStloc1(code, 0) == NextStloc1(code, i)
    {
      out := out + [code[i]];
      if code[i].op == Stloc_1 {
        out := out + [Instr(Ldarg_2, NoOperand)];
        out := out + [Instr(Ldarg_0, NoOperand)];
        out := out + [Instr(Ldloca_S, Int(1))];
        out := out + [Instr(Call, Method("OverCapacity"))];
        out := out + [Instr(Stloc_S, Local(overCapacity))];
        i := i + 1;
        return;
      }
      i := i + 1;
    }
  }

  /** Phase 2: copy up to, not including, the first `stloc.s 7` from `from` on. */
  method CopyToPriorityStore(code: seq<Instr>, from: nat, out: seq<Instr>) returns (i: nat, acc: seq<Instr>)
    requires from <= |code|
    requires LocalOperands(code)
    ensures i == NextPriorityStore(code, from)
    ensures acc == out + code[from..i]
  {
    i, acc := from, out;
    while i < |code|
      invariant from <= i <= |code|
      invariant acc == out + code[from..i]
      invariant NextPriorityStore(code, from) == NextPriorityStore(code, i)
    {
      if code[i].op == Stloc_S && code[i].operand.index == 7 {
        return;
      }
      acc := acc + [code[i]];
      i := i + 1;
    }
  }

  /** Phase 3: copy from `from` on up to the first `ldloc.s 7; ldarg.3; bgt L`
      and inject the branch before it; `overrun` when the test reads past the end. */
  method CopyToComparison(code: seq<Instr>, from: nat, overCapacity: nat, out: seq<Instr>)
    returns (i: nat, acc: seq<Instr>, overrun: bool)
    requires from <= |code|
    requires LocalOperands(code)
    ensures ScanTriple(code, from).Overrun? ==> overrun
    ensures ScanTriple(code, from).Miss? ==> !overrun && i == |code| && acc == out + code[from..]
    ensures ScanTriple(code, from).Hit? ==>
              && !overrun && i == ScanTriple(code, from).at
              && acc == out + code[from..i] + InjectedBranch(overCapacity, code[i + 2].operand)
  {
    i, acc, overrun := from, out, false;
    while i < |code|
      invariant from <= i <= |code|
      invariant acc == out + code[from..i]
      invariant ScanTriple(code, from) == ScanTriple(code, i)
    {
      if code[i].op == Ldloc_S && code[i].operand.index == 7 {
        // code[i + 1] and code[i + 2] are read without a bounds check
        if i + 1 >= |code| {
          overrun := true;
          return;
        }
        if code[i + 1].op == Ldarg_3 {
          if i + 2 >= |code| {
            overrun := true;
            return;
          }
          if code[i + 2].op == Bgt {
            acc := acc + [Instr(Ldloc_S, Local(overCapacity))];
            acc := acc + [Instr(Brtrue, code[i + 2].operand)];
            return;
          }
        }
      }
      acc := acc + [code[i]];
      i := i + 1;
    }
  }

  /** Phase 4: copy everything from `from` on. */
  method CopyRest(code: seq<Instr>, from: nat, out: seq<Instr>) returns (acc: seq<Instr>)
    requires from <= |code|
    ensures acc == out + code[from..]
  {
    var i := from;
    acc := out;
    while i < |code|
      invariant from <= i <= |code|
      invariant acc == out + code[from..i]
    {
      acc := acc + [code[i]];
      i := i + 1;
    }
  }

  /** The whole rewrite: the four phases over one cursor, logging a failure
      code whenever a phase leaves the cursor at the end of the list. */
  method Transpiler(code: seq<Instr>, overCapacity: nat) returns (r: Result)
    requires LocalOperands(code)
    ensures r == Rewrite(code, overCapacity)
  {
    var failures: seq<nat> := [];
    var i, out := CopyThroughCallSite(code, overCapacity);
    ghost var c, out1 := i, out;
    if i == |code| { failures := failures + [0]; }
    i, out := CopyToPriorityStore(code, i, out);
    ghost var s := i;
    if i == |code| { failures := failures + [1]; }
    assert failures == (if c == |code| then [0] else []) + (if s == |code| then [1] else []);
    assert Rewrite(code, overCapacity) == Assemble(code, overCapacity, out1, c, s, ScanTriple(code, s));
    var overrun;
    i, out, overrun := CopyToComparison(code, i, overCapacity, out);
    if overrun { return OutOfRange(failures); }
    if i == |code| { failures := failures + [2]; }
    out := CopyRest(code, i, out);
    return Emitted(out, failures);
  }

  // ---------------------------------------------------------------------------
  // Properties of the rewrite. The premises of the five lemmas below cover
  // every input: no `stloc.1`; no `stloc.s 7` after it; no comparison after
  // that; a comparison test that reads past the end; a comparison found.

  /** `stloc.1` first occurs at k. */
  predicate FirstCallSiteAt(code: seq<Instr>, k: nat)
  {
    k < |code| && code[k].op == Stloc_1 && forall j :: 0 <= j < k ==> code[j].op != Stloc_1
  }

  /** `stloc.s 7` first occurs at s, counting from `from`. */
  predicate FirstPriorityStoreAt(code: seq<Instr>, from: nat, s: nat)
  {
    from <= s < |code| && IsPriorityStore(code[s]) &&
    forall j :: from <= j < s ==> !IsPriorityStore(code[j])
  }

  /** Without a `stloc.1` nothing is injected and all three failures are
      logged, because phases 2 and 3 start with the cursor at the end. */
  lemma NoCallSite(code: seq<Instr>, overCapacity: nat)
    requires forall j :: 0 <= j < |code| ==> code[j].op != Stloc_1
    ensures Rewrite(code, overCapacity) == Emitted(code, [0, 1, 2])
  {
    NextStloc1Is(code, 0, |code|);
    assert code + code[|code|..|code|] + code[|code|..] == code;
  }

  /** With `stloc.1` first at a - 1 but no `stloc.s 7` after it, only the call
      is injected and failures 1 and 2 are logged; failure 0 is logged as well
      when `stloc.1` is the last instruction, although the call was injected.
      Deleting the five injected instructions gives back the input. */
  lemma NoPriorityStore(code: seq<Instr>, overCapacity: nat, a: nat)
    requires 0 < a && FirstCallSiteAt(code, a - 1)
    requires forall j :: a <= j < |code| ==> !IsPriorityStore(code[j])
    ensures Rewrite(code, overCapacity) == Emitted(code[..a] + InjectedCall(overCapacity) + code[a..],
                            if a == |code| then [0, 1, 2] else [1, 2])
    ensures Rewrite(code, overCapacity).code[..a] + Rewrite(code, overCapacity).code[a + 5..] == code
  {
    NextStloc1Is(code, 0, a - 1);
    NextPriorityStoreIs(code, a, |code|);
    assert AfterCallSite(code) == a;
    assert CallSiteOutput(code, overCapacity) == code[..a] + InjectedCall(overCapacity);
    assert ScanTriple(code, |code|) == Miss;
    AssembleWithoutStore(code, overCapacity, code[..a] + InjectedCall(overCapacity), a);
    OneInsertion(code, a, InjectedCall(overCapacity), Rewrite(code, overCapacity).code, a + 5);
  }

  /** With both anchors, and after the store neither a complete comparison
      nor an `ldloc.s 7` whose test reads past the end, only the call is
      injected and failure 2 alone is logged; deleting the five injected
      instructions gives back the input. */
  lemma NoComparison(code: seq<Instr>, overCapacity: nat, a: nat, s: nat)
    requires 0 < a && FirstCallSiteAt(code, a - 1) && FirstPriorityStoreAt(code, a, s)
    requires forall j :: s <= j < |code| ==> !MatchesAt(code, j) && !OverrunsAt(code, j)
    ensures Rewrite(code, overCapacity).Emitted? && Rewrite(code, overCapacity).failures == [2]
    ensures |Rewrite(code, overCapacity).code| == |code| + 5
    ensures Rewrite(code, overCapacity).code[..a] + Rewrite(code, overCapacity).code[a + 5..] == code
  {
    RewriteOnMiss(code, overCapacity, a, s);
    OneInsertion(code, a, InjectedCall(overCapacity), Rewrite(code, overCapacity).code, a + 5);
  }

  /** The rewrite of an input with the first two landmarks at a - 1 and s
      and, after s, neither a complete comparison nor an `ldloc.s 7` whose
      test reads past the end. */
  lemma RewriteOnMiss(code: seq<Instr>, overCapacity: nat, a: nat, s: nat)
    requires 0 < a && FirstCallSiteAt(code, a - 1) && FirstPriorityStoreAt(code, a, s)
    requires forall j :: s <= j < |code| ==> !MatchesAt(code, j) && !OverrunsAt(code, j)
    ensures Rewrite(code, overCapacity) == Emitted(code[..a] + InjectedCall(overCapacity) + code[a..], [2])
  {
    NextStloc1Is(code, 0, a - 1);
    NextPriorityStoreIs(code, a, s);
    ScanTripleMisses(code, s);
    assert AfterCallSite(code) == a;
    assert CallSiteOutput(code, overCapacity) == code[..a] + InjectedCall(overCapacity);
    AssembleOnMiss(code, overCapacity, code[..a] + InjectedCall(overCapacity), a, s);
  }

  /** Assembling after a miss with both cursors inside the list: the rest of
      the input follows the phase-1 output, and failure 2 alone is logged. */
  lemma AssembleOnMiss(code: seq<Instr>, overCapacity: nat, out1: seq<Instr>, c: nat, s: nat)
    requires c <= s < |code|
    ensures Assemble(code, overCapacity, out1, c, s, Miss) == Emitted(out1 + code[c..], [2])
  {
    assert out1 + code[c..s] + code[s..] == out1 + code[c..];
  }

  /** When, after the first `stloc.s 7` that follows the first `stloc.1`, an
      `ldloc.s 7` sits where the unchecked reads of the following
      instructions go past the end of the list, and no complete comparison
      comes before it, the rewrite fails with no failure code logged. */
  lemma ComparisonOverrun(code: seq<Instr>, overCapacity: nat, a: nat, s: nat, k: nat)
    requires 0 < a && FirstCallSiteAt(code, a - 1) && FirstPriorityStoreAt(code, a, s)
    requires s <= k < |code| && OverrunsAt(code, k)
    requires forall j :: s <= j < k ==> !MatchesAt(code, j)
    ensures Rewrite(code, overCapacity) == OutOfRange([])
  {
    NextStloc1Is(code, 0, a - 1);
    NextPriorityStoreIs(code, a, s);
    ScanTripleEndsAt(code, s, k);
  }

  /** When all three landmarks are found, the output is the input with the
      five call instructions inserted right after the first `stloc.1` and the
      two branch instructions right before the first comparison after the
      first `stloc.s 7` that follows: seven more instructions, no failure
      logged, and deleting the injected ones gives back the input. */
  lemma FullSuccess(code: seq<Instr>, overCapacity: nat, a: nat, s: nat, b: nat)
    requires 0 < a && FirstCallSiteAt(code, a - 1) && FirstPriorityStoreAt(code, a, s)
    requires s < b && b + 2 < |code| && TripleAt(code, b)
    requires forall j :: s <= j < b ==> !TripleAt(code, j)
    ensures Rewrite(code, overCapacity).Emitted? && Rewrite(code, overCapacity).failures == []
    ensures Rewrite(code, overCapacity).code == code[..a] + InjectedCall(overCapacity) + code[a..b]
                         + InjectedBranch(overCapacity, code[b + 2].operand) + code[b..]
    ensures |Rewrite(code, overCapacity).code| == |code| + 7
    ensures Rewrite(code, overCapacity).code[..a] + Rewrite(code, overCapacity).code[a + 5..b + 5]
              + Rewrite(code, overCapacity).code[b + 7..] == code
  {
    RewriteOnHit(code, overCapacity, a, s, b);
    SpliceShape(code, overCapacity, a, b, Rewrite(code, overCapacity).code);
  }

  /** In a full rewrite the injected call is `ldarg.2; ldarg.0; ldloca.s 1;
      call OverCapacity; stloc.s v`, the injected branch loads that same
      local v, and its `brtrue` carries the label of the `bgt` it precedes. */
  lemma InjectedShape(code: seq<Instr>, overCapacity: nat, a: nat, s: nat, b: nat)
    requires 0 < a && FirstCallSiteAt(code, a - 1) && FirstPriorityStoreAt(code, a, s)
    requires s < b && b + 2 < |code| && TripleAt(code, b)
    requires forall j :: s <= j < b ==> !TripleAt(code, j)
    ensures Rewrite(code, overCapacity).Emitted? && |Rewrite(code, overCapacity).code| == |code| + 7
    ensures Rewrite(code, overCapacity).code[a - 1].op == Stloc_1
    ensures Rewrite(code, overCapacity).code[a..a + 5] ==
              [ Instr(Ldarg_2, NoOperand), Instr(Ldarg_0, NoOperand), Instr(Ldloca_S, Int(1)),
                Instr(Call, Method("OverCapacity")), Instr(Stloc_S, Local(overCapacity)) ]
    ensures Rewrite(code, overCapacity).code[b + 5] == Instr(Ldloc_S, Local(overCapacity))
    ensures Rewrite(code, overCapacity).code[b + 6].op == Brtrue
    ensures Rewrite(code, overCapacity).code[b + 7..b + 10] == code[b..b + 3]
    ensures Rewrite(code, overCapacity).code[b + 6].operand == Rewrite(code, overCapacity).code[b + 9].operand
  {
    RewriteOnHit(code, overCapacity, a, s, b);
    SpliceShape(code, overCapacity, a, b, Rewrite(code, overCapacity).code);
  }

  /** The shape of the input with the call spliced in at a and the branch at b. */
  lemma SpliceShape(code: seq<Instr>, overCapacity: nat, a: nat, b: nat, out: seq<Instr>)
    requires 0 < a <= b && b + 2 < |code|
    requires code[a - 1].op == Stloc_1
    requires out == code[..a] + InjectedCall(overCapacity) + code[a..b]
                    + InjectedBranch(overCapacity, code[b + 2].operand) + code[b..]
    ensures |out| == |code| + 7
    ensures out[a - 1].op == Stloc_1
    ensures out[a..a + 5] == [ Instr(Ldarg_2, NoOperand), Instr(Ldarg_0, NoOperand),
                               Instr(Ldloca_S, Int(1)), Instr(Call, Method("OverCapacity")),
                               Instr(Stloc_S, Local(overCapacity)) ]
    ensures out[b + 5] == Instr(Ldloc_S, Local(overCapacity))
    ensures out[b + 6].op == Brtrue
    ensures out[b + 7..b + 10] == code[b..b + 3]
    ensures out[b + 6].operand == out[b + 9].operand
    ensures out[..a] + out[a + 5..b + 5] + out[b + 7..] == code
  {
    var x, y := InjectedCall(overCapacity), InjectedBranch(overCapacity, code[b + 2].operand);
    TwoInsertions(code, a, b, x, y, out, a + 5, b + 5, b + 7);
    assert out[a - 1] == out[..a][a - 1] == code[a - 1];
    assert out[b + 5] == y[0] && out[b + 6] == y[1];
    assert out[b + 7..b + 10] == code[b..b + 3] by {
      assert out[b + 7..b + 10] == out[b + 7..][..3] == code[b..][..3];
    }
    assert out[b + 9] == out[b + 7..b + 10][2];
  }

  /** The rewrite of an input whose three landmarks are at a - 1, s and b. */
  lemma RewriteOnHit(code: seq<Instr>, overCapacity: nat, a: nat, s: nat, b: nat)
    requires 0 < a && FirstCallSiteAt(code, a - 1) && FirstPriorityStoreAt(code, a, s)
    requires s < b && b + 2 < |code| && TripleAt(code, b)
    requires forall j :: s <= j < b ==> !TripleAt(code, j)
    ensures Rewrite(code, overCapacity) ==
              Emitted(code[..a] + InjectedCall(overCapacity) + code[a..b]
                      + InjectedBranch(overCapacity, code[b + 2].operand) + code[b..], [])
  {
    NextStloc1Is(code, 0, a - 1);
    NextPriorityStoreIs(code, a, s);
    forall j | s <= j < b ensures !MatchesAt(code, j) && !OverrunsAt(code, j) {
      assert !TripleAt(code, j);
    }
    ScanTripleEndsAt(code, s, b);
    assert AfterCallSite(code) == a;
    assert CallSiteOutput(code, overCapacity) == code[..a] + InjectedCall(overCapacity);
    AssembleOnHit(code, overCapacity, code[..a] + InjectedCall(overCapacity), a, s, b);
  }

  /** Assembling after a hit at b, with both cursors before it: the branch goes
      right before b, and no failure is logged. */
  lemma AssembleOnHit(code: seq<Instr>, overCapacity: nat, out1: seq<Instr>, c: nat, s: nat, b: nat)
    requires c <= s <= b && b + 2 < |code|
    ensures Assemble(code, overCapacity, out1, c, s, Hit(b)) ==
              Emitted(out1 + code[c..b] + InjectedBranch(overCapacity, code[b + 2].operand) + code[b..], [])
  {
    assert out1 + code[c..s] + code[s..b] == out1 + code[c..b];
  }

  /** Assembling when phase 2 ran off the end: the rest of the input follows
      the phase-1 output, failures 1 and 2 are logged, and failure 0 as well
      when phase 1 already ended at the end. */
  lemma AssembleWithoutStore(code: seq<Instr>, overCapacity: nat, out1: seq<Instr>, c: nat)
    requires c <= |code|
    ensures Assemble(code, overCapacity, out1, c, |code|, Miss) ==
              Emitted(out1 + code[c..], if c == |code| then [0, 1, 2] else [1, 2])
  {
    assert out1 + code[c..|code|] + code[|code|..] == out1 + code[c..];
  }

  /** Inserting x at a places it there, and deleting it gives back the original. */
  lemma OneInsertion(code: seq<Instr>, a: nat, x: seq<Instr>, out: seq<Instr>, ax: nat)
    requires a <= |code| && ax == a + |x|
    requires out == code[..a] + x + code[a..]
    ensures out[..a] + out[ax..] == code
  {
    assert out[..a] == code[..a];
    assert out[ax..] == code[a..];
    assert code[..a] + code[a..] == code;
  }

  /** Inserting x at a and y at b (a <= b) places them there, and deleting
      both gives back the original. */
  lemma TwoInsertions(code: seq<Instr>, a: nat, b: nat, x: seq<Instr>, y: seq<Instr>, out: seq<Instr>,
                       ax: nat, bx: nat, bxy: nat)
    requires a <= b <= |code| && ax == a + |x| && bx == b + |x| && bxy == bx + |y|
    requires out == code[..a] + x + code[a..b] + y + code[b..]
    ensures |out| == |code| + |x| + |y|
    ensures out[..a] == code[..a]
    ensures out[a..ax] == x
    ensures out[bx..bxy] == y
    ensures out[bxy..] == code[b..]
    ensures out[..a] + out[ax..bx] + out[bxy..] == code
  {
    assert out[..a] == code[..a];
    assert out[ax..bx] == code[a..b];
    assert code[..a] + code[a..b] + code[b..] == code;
  }
}
