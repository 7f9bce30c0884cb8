/**
  The modifier pipeline: an ordered list of named modifier entries, each enabled or not,
  with upsert, removal and enable/disable by name, and a run over the enabled entries in
  list order that stops at the first failure.
 */
module Generation {
  import opened Wrappers

  /** The identity of a modifier instance (the object a shared pointer designates). */
  type Modifier = nat

  /** One entry of the list; `modifier` is None for a null pointer. */
  datatype ModifierListItem = ModifierListItem(ident: string, enabled: bool, modifier: Option<Modifier>)

  /** The value-initialised entry returned for an unknown name. */
  const DefaultItem := ModifierListItem("", false, None)

  datatype Error = InvalidArgument(message: string)

  /** The modifier factory: the modifier it creates for each class name it knows. */
  type Factory = map<string, Modifier>

  /**
    The outcome of a modifier's apply, given the names of the modifiers applied before it in
    the same run (apply changes the surface, so later outcomes may depend on earlier calls).
   */
  type ApplyOracle = (seq<string>, Modifier) -> bool

  ghost predicate DistinctIdents(list: seq<ModifierListItem>) {
    forall i, j :: 0 <= i < j < |list| ==> list[i].ident != list[j].ident
  }

  /** findModifierByIdent: the position of the first entry with the name, or |list| (the end). */
  function FindModifierByIdent(list: seq<ModifierListItem>, ident: string): (i: nat)
    ensures i <= |list|
    ensures i < |list| ==> list[i].ident == ident
    ensures forall j :: 0 <= j < i ==> list[j].ident != ident
    decreases |list|
  {
    if list == [] then 0
    else if list[0].ident == ident then 0
    else 1 + FindModifierByIdent(list[1..], ident)
  }

  /** The entry getModifier returns. */
  function Lookup(list: seq<ModifierListItem>, ident: string): ModifierListItem {
    var i := FindModifierByIdent(list, ident);
    if i == |list| then DefaultItem else list[i]
  }

  /** The list after addModifier: the entry with the name is overwritten, or the item is appended. */
  function Upserted(list: seq<ModifierListItem>, item: ModifierListItem): seq<ModifierListItem> {
    var i := FindModifierByIdent(list, item.ident);
    if i == |list| then list + [item] else list[i := item]
  }

  /** The list after removeModifier, with whether an entry was removed. */
  function Removed(list: seq<ModifierListItem>, ident: string): (bool, seq<ModifierListItem>) {
    var i := FindModifierByIdent(list, ident);
    if i == |list| then (false, list) else (true, list[..i] + list[i + 1..])
  }

  /** The list after enableModifier or disableModifier, with whether the name was found. */
  function Flagged(list: seq<ModifierListItem>, ident: string, enabled: bool): (bool, seq<ModifierListItem>) {
    var i := FindModifierByIdent(list, ident);
    if i == |list| then (false, list) else (true, list[i := list[i].(enabled := enabled)])
  }

  lemma UpsertExisting(list: seq<ModifierListItem>, item: ModifierListItem, i: nat)
    requires i < |list| && list[i].ident == item.ident
    requires forall j :: 0 <= j < i ==> list[j].ident != item.ident
    ensures |Upserted(list, item)| == |list|
    ensures Upserted(list, item)[i] == item
    ensures forall j :: 0 <= j < |list| && j != i ==> Upserted(list, item)[j] == list[j]
  {
    assert FindModifierByIdent(list, item.ident) == i;
  }

  lemma UpsertNew(list: seq<ModifierListItem>, item: ModifierListItem)
    requires forall j :: 0 <= j < |list| ==> list[j].ident != item.ident
    ensures Upserted(list, item) == list + [item]
  {
  }

  lemma UpsertKeepsIdentsDistinct(list: seq<ModifierListItem>, item: ModifierListItem)
    requires DistinctIdents(list)
    ensures DistinctIdents(Upserted(list, item))
  {
  }

  /** After addModifier, getModifier finds the new entry. */
  lemma UpsertThenLookup(list: seq<ModifierListItem>, item: ModifierListItem)
    ensures Lookup(Upserted(list, item), item.ident) == item
  {
    var i := FindModifierByIdent(list, item.ident);
    var r := Upserted(list, item);
    if i == |list| {
      assert r[|list|] == item;
      assert forall j :: 0 <= j < |list| ==> r[j].ident != item.ident;
    } else {
      assert r[i] == item;
      assert forall j :: 0 <= j < i ==> r[j].ident != item.ident;
    }
  }

  lemma RemoveFound(list: seq<ModifierListItem>, ident: string, i: nat)
    requires i < |list| && list[i].ident == ident
    requires forall j :: 0 <= j < i ==> list[j].ident != ident
    ensures Removed(list, ident) == (true, list[..i] + list[i + 1..])
  {
    assert FindModifierByIdent(list, ident) == i;
  }

  lemma RemoveMissing(list: seq<ModifierListItem>, ident: string)
    requires forall j :: 0 <= j < |list| ==> list[j].ident != ident
    ensures Removed(list, ident) == (false, list)
  {
  }

  /** With distinct names, a removed name is no longer in the list and the names stay distinct. */
  lemma RemoveLeavesNoEntry(list: seq<ModifierListItem>, ident: string)
    requires DistinctIdents(list)
    ensures DistinctIdents(Removed(list, ident).1)
    ensures forall j :: 0 <= j < |Removed(list, ident).1| ==> Removed(list, ident).1[j].ident != ident
    ensures |Removed(list, ident).1| == if Removed(list, ident).0 then |list| - 1 else |list|
  {
    var i := FindModifierByIdent(list, ident);
    if i < |list| {
      var r := list[..i] + list[i + 1..];
      assert forall j :: 0 <= j < |r| ==> r[j] == if j < i then list[j] else list[j + 1];
    }
  }

  lemma FlagFound(list: seq<ModifierListItem>, ident: string, enabled: bool, i: nat)
    requires i < |list| && list[i].ident == ident
    requires forall j :: 0 <= j < i ==> list[j].ident != ident
    ensures Flagged(list, ident, enabled).0
    ensures |Flagged(list, ident, enabled).1| == |list|
    ensures Flagged(list, ident, enabled).1[i] == ModifierListItem(ident, enabled, list[i].modifier)
    ensures forall j :: 0 <= j < |list| && j != i ==> Flagged(list, ident, enabled).1[j] == list[j]
  {
    assert FindModifierByIdent(list, ident) == i;
  }

  lemma FlagMissing(list: seq<ModifierListItem>, ident: string, enabled: bool)
    requires forall j :: 0 <= j < |list| ==> list[j].ident != ident
    ensures Flagged(list, ident, enabled) == (false, list)
  {
  }

  /**
    The run never reaches an enabled entry with a null modifier: every enabled entry that is
    reached (all enabled entries before it succeeded) holds a modifier.
   */
  predicate PipelineDefined(list: seq<ModifierListItem>, outcome: ApplyOracle, history: seq<string>)
    decreases |list|
  {
    if list == [] then true
    else if !list[0].enabled then PipelineDefined(list[1..], outcome, history)
    else (list[0].modifier.Some?
      && (outcome(history, list[0].modifier.value) ==> PipelineDefined(list[1..], outcome, history + [list[0].ident])))
  }

  /** The result of applyModifiers, with the names of the modifiers whose apply was called. */
  datatype Run = Run(ok: bool, trace: seq<string>)

  /** applyModifiers over the remaining entries, after the modifiers named in `history` ran. */
  function Pipeline(list: seq<ModifierListItem>, outcome: ApplyOracle, history: seq<string>): Run
    requires PipelineDefined(list, outcome, history)
    decreases |list|
  {
    if list == [] then Run(true, history)
    else if !list[0].enabled then Pipeline(list[1..], outcome, history)
    else if !outcome(history, list[0].modifier.value) then Run(false, history + [list[0].ident])
    else Pipeline(list[1..], outcome, history + [list[0].ident])
  }

  /**
    The enabled entries, in list order: each enabled entry of the list, and nothing else. The
    order is stated by EnabledDistributes.
   */
  function Enabled(list: seq<ModifierListItem>): (run: seq<ModifierListItem>)
    ensures forall k :: 0 <= k < |run| ==> run[k].enabled && run[k] in list
    ensures forall i :: 0 <= i < |list| && list[i].enabled ==> list[i] in run
    decreases |list|
  {
    if list == [] then []
    else
      var rest := Enabled(list[1..]);
      assert forall i :: 1 <= i < |list| ==> list[i] == list[1..][i - 1];
      if list[0].enabled then [list[0]] + rest else rest
  }

  /**
    Filtering a concatenation filters each part and keeps them in order; with the filter of a
    single entry (itself if enabled, else nothing) this fixes both order and multiplicity.
   */
  lemma {:induction false} EnabledDistributes(a: seq<ModifierListItem>, b: seq<ModifierListItem>)
    ensures Enabled(a + b) == Enabled(a) + Enabled(b)
    decreases |a|
  {
    if a == [] {
      assert a + b == b;
    } else {
      assert (a + b)[0] == a[0] && (a + b)[1..] == a[1..] + b;
      EnabledDistributes(a[1..], b);
    }
  }

  lemma EnabledSingle(x: ModifierListItem)
    ensures Enabled([x]) == if x.enabled then [x] else []
  {
    assert [x][1..] == [];
  }

  function Idents(list: seq<ModifierListItem>): (names: seq<string>)
    ensures |names| == |list|
    ensures forall k :: 0 <= k < |list| ==> names[k] == list[k].ident
  {
    seq(|list|, k requires 0 <= k < |list| => list[k].ident)
  }

  /**
    The position of the first modifier of the run whose apply fails, or |run| when all succeed,
    each modifier being applied after all those before it in the run.
   */
  function FirstFailure(run: seq<ModifierListItem>, outcome: ApplyOracle, history: seq<string>): (k: nat)
    requires forall j :: 0 <= j < |run| ==> run[j].enabled
    requires PipelineDefined(run, outcome, history)
    ensures k <= |run|
    ensures forall j :: 0 <= j < k ==>
      run[j].modifier.Some? && outcome(history + Idents(run[..j]), run[j].modifier.value)
    ensures k < |run| ==> run[k].modifier.Some? && !outcome(history + Idents(run[..k]), run[k].modifier.value)
    decreases |run|
  {
    if run == [] then 0
    else if !outcome(history, run[0].modifier.value) then
      assert history + Idents(run[..0]) == history;
      0
    else
      var k' := FirstFailure(run[1..], outcome, history + [run[0].ident]);
      ShiftedHistory(run, history);
      assert history + Idents(run[..0]) == history;
      1 + k'
  }

  /** Running the tail after the head has run sees the head's name in the history. */
  lemma ShiftedHistory(run: seq<ModifierListItem>, history: seq<string>)
    requires run != []
    ensures forall j :: 0 <= j <= |run| - 1 ==>
      history + [run[0].ident] + Idents(run[1..][..j]) == history + Idents(run[..j + 1])
  {
    forall j | 0 <= j <= |run| - 1
      ensures history + [run[0].ident] + Idents(run[1..][..j]) == history + Idents(run[..j + 1])
    {
      assert run[..j + 1] == [run[0]] + run[1..][..j];
    }
  }

  /** Dropping the disabled entries changes neither which entries the run reaches nor its result. */
  lemma {:induction false} PipelineSkipsDisabled(list: seq<ModifierListItem>, outcome: ApplyOracle, history: seq<string>)
    requires PipelineDefined(list, outcome, history)
    ensures PipelineDefined(Enabled(list), outcome, history)
    ensures Pipeline(list, outcome, history) == Pipeline(Enabled(list), outcome, history)
    decreases |list|
  {
    if list != [] {
      var run := Enabled(list);
      if !list[0].enabled {
        PipelineSkipsDisabled(list[1..], outcome, history);
      } else {
        assert run[0] == list[0] && run[1..] == Enabled(list[1..]);
        if outcome(history, list[0].modifier.value) {
          PipelineSkipsDisabled(list[1..], outcome, history + [list[0].ident]);
        }
      }
    }
  }

  /**
    After the head of a run succeeds, the run's first failure is one past the tail's, and the
    names called are the head's followed by the tail's.
   */
  lemma SucceededHeadShiftsTrace(run: seq<ModifierListItem>, outcome: ApplyOracle, history: seq<string>)
    requires run != [] && forall j :: 0 <= j < |run| ==> run[j].enabled
    requires PipelineDefined(run, outcome, history)
    requires outcome(history, run[0].modifier.value)
    ensures PipelineDefined(run[1..], outcome, history + [run[0].ident])
    ensures var history' := history + [run[0].ident];
      var rest := run[1..];
      var k' := FirstFailure(rest, outcome, history');
      && FirstFailure(run, outcome, history) == 1 + k'
      && (k' == |rest| ==> history' + Idents(rest) == history + Idents(run))
      && (k' < |rest| ==> history' + Idents(rest[..k' + 1]) == history + Idents(run[..k' + 2]))
  {
    var rest := run[1..];
    ShiftedHistory(run, history);
    assert run[..|run|] == run;
    assert rest[..|rest|] == rest;
  }

  /** A run of enabled entries succeeds up to its first failure and stops right after it. */
  lemma {:induction false} RunStopsAtFirstFailure(run: seq<ModifierListItem>, outcome: ApplyOracle, history: seq<string>)
    requires forall j :: 0 <= j < |run| ==> run[j].enabled
    requires PipelineDefined(run, outcome, history)
    ensures var k := FirstFailure(run, outcome, history);
      Pipeline(run, outcome, history)
        == if k == |run| then Run(true, history + Idents(run))
           else Run(false, history + Idents(run[..k + 1]))
    decreases |run|
  {
    if run != [] {
      if outcome(history, run[0].modifier.value) {
        SucceededHeadShiftsTrace(run, outcome, history);
        RunStopsAtFirstFailure(run[1..], outcome, history + [run[0].ident]);
      } else {
        assert run[..1] == [run[0]];
      }
    }
  }

  /**
    applyModifiers calls apply on the enabled entries only, in list order, and stops right after
    the first one that fails: it succeeds exactly when no enabled modifier fails (so also for an
    empty list), having called all of them; otherwise it has called the enabled modifiers up to
    and including the first failing one, and no later one.
   */
  lemma {:induction false} PipelineStopsAtFirstFailure(list: seq<ModifierListItem>, outcome: ApplyOracle, history: seq<string>)
    requires PipelineDefined(list, outcome, history)
    ensures PipelineDefined(Enabled(list), outcome, history)
    ensures var run := Enabled(list); var k := FirstFailure(run, outcome, history);
      Pipeline(list, outcome, history)
        == if k == |run| then Run(true, history + Idents(run))
           else Run(false, history + Idents(run[..k + 1]))
  {
    PipelineSkipsDisabled(list, outcome, history);
    RunStopsAtFirstFailure(Enabled(list), outcome, history);
  }

  /**
    A null modifier after a failing one is never reached: the run stops at the failure and
    returns false having called only the first modifier.
   */
  lemma NullPastFailureIsNotReached(m: Modifier, outcome: ApplyOracle)
    requires !outcome([], m)
    ensures var list := [ModifierListItem("a", true, Some(m)), ModifierListItem("b", true, None)];
      PipelineDefined(list, outcome, []) && Pipeline(list, outcome, []) == Run(false, ["a"])
  {
  }

  class SurfaceGenerator {
    var modifierList: seq<ModifierListItem>

    ghost predicate Valid()
      reads this
    {
      DistinctIdents(modifierList)
    }

    /** A generator built from an empty modifier configuration. */
    constructor ()
      ensures Valid() && modifierList == []
    {
      modifierList := [];
    }

    /** getModifier: the entry with the name, or the default entry; the list is not changed. */
    method GetModifier(ident: string) returns (item: ModifierListItem)
      ensures (exists j :: 0 <= j < |modifierList| && modifierList[j].ident == ident) ==>
        item.ident == ident && item in modifierList
      ensures (forall j :: 0 <= j < |modifierList| ==> modifierList[j].ident != ident) ==>
        item == DefaultItem
      ensures item == Lookup(modifierList, ident)
    {
      var i := FindModifierByIdent(modifierList, ident);
      if i == |modifierList| {
        return DefaultItem;
      }
      item := modifierList[i];
    }

    /** addModifier with a modifier instance: upsert by name; returns the new entry. */
    method AddModifier(ident: string, modifier: Option<Modifier>, enabled: bool) returns (item: ModifierListItem)
      modifies this
      ensures item == ModifierListItem(ident, enabled, modifier)
      ensures modifierList == Upserted(old(modifierList), item)
      ensures old(Valid()) ==> Valid()
    {
      var i := FindModifierByIdent(modifierList, ident);
      item := ModifierListItem(ident, enabled, modifier);
      if i == |modifierList| {
        modifierList := modifierList + [item];
      } else {
        modifierList := modifierList[i := item];
      }
      if old(Valid()) {
        UpsertKeepsIdentsDistinct(old(modifierList), item);
      }
    }

    /** addModifier with a class name: fails with invalid_argument when the factory has no such class. */
    method AddModifierOfClass(ident: string, modifierClass: string, enabled: bool, factory: Factory)
      returns (result: Result<ModifierListItem, Error>)
      modifies this
      ensures modifierClass !in factory ==>
        result == Failure(InvalidArgument("\"" + modifierClass + "\" is not valid modifier class."))
        && modifierList == old(modifierList)
      ensures modifierClass in factory ==>
        result == Success(ModifierListItem(ident, enabled, Some(factory[modifierClass])))
        && modifierList == Upserted(old(modifierList), result.value)
      ensures old(Valid()) ==> Valid()
    {
      if modifierClass !in factory {
        return Failure(InvalidArgument("\"" + modifierClass + "\" is not valid modifier class."));
      }
      var item := AddModifier(ident, Some(factory[modifierClass]), enabled);
      result := Success(item);
    }

    /** removeModifier: erases the first entry with the name. */
    method RemoveModifier(ident: string) returns (removed: bool)
      modifies this
      ensures (removed, modifierList) == Removed(old(modifierList), ident)
      ensures old(Valid()) ==> Valid()
      ensures old(Valid()) ==> forall j :: 0 <= j < |modifierList| ==> modifierList[j].ident != ident
    {
      var i := FindModifierByIdent(modifierList, ident);
      if i == |modifierList| {
        return false;
      }
      modifierList := modifierList[..i] + modifierList[i + 1..];
      removed := true;
      if old(Valid()) {
        RemoveLeavesNoEntry(old(modifierList), ident);
      }
    }

    /** disableModifier: clears the enabled flag of the entry with the name. */
    method DisableModifier(ident: string) returns (found: bool)
      modifies this
      ensures (found, modifierList) == Flagged(old(modifierList), ident, false)
      ensures old(Valid()) ==> Valid()
    {
      var i := FindModifierByIdent(modifierList, ident);
      if i == |modifierList| {
        return false;
      }
      modifierList := modifierList[i := modifierList[i].(enabled := false)];
      found := true;
    }

    /** enableModifier: sets the enabled flag of the entry with the name. */
    method EnableModifier(ident: string) returns (found: bool)
      modifies this
      ensures (found, modifierList) == Flagged(old(modifierList), ident, true)
      ensures old(Valid()) ==> Valid()
    {
      var i := FindModifierByIdent(modifierList, ident);
      if i == |modifierList| {
        return false;
      }
      modifierList := modifierList[i := modifierList[i].(enabled := true)];
      found := true;
    }

    /**
      applyModifiers: runs the enabled entries in list order and returns false right after the
      first failure. `trace` names the modifiers whose apply was called, in call order.
     */
    method ApplyModifiers(outcome: ApplyOracle) returns (ok: bool, trace: seq<string>)
      requires PipelineDefined(modifierList, outcome, [])
      ensures Run(ok, trace) == Pipeline(modifierList, outcome, [])
    {
      trace := [];
      var i := 0;
      while i < |modifierList|
        invariant 0 <= i <= |modifierList|
        invariant PipelineDefined(modifierList[i..], outcome, trace)
        invariant Pipeline(modifierList, outcome, []) == Pipeline(modifierList[i..], outcome, trace)
      {
        var item := modifierList[i];
        assert modifierList[i..][1..] == modifierList[i + 1..];
        if item.enabled {
          trace := trace + [item.ident];
          if !outcome(trace[..|trace| - 1], item.modifier.value) {
            return false, trace;
          }
        }
        i := i + 1;
      }
      ok := true;
    }
  }
}
