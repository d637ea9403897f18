/**
 * The registry's merge rule and the emission decision, as functions on the registry's entries
 * (src/index.ts:69-107). The classes in module Logger are proved against these.
 */
module Policy {
  import opened Wrappers
  import opened Levels
  import opened Keys

  /** The contents of a registry: each registered key's threshold. */
  type Entries = map<LogKey, LogLevel>

  /** `Map.get`: the threshold of `k`, or `None` when `k` is not registered. */
  function Lookup(reg: Entries, k: LogKey): (r: Option<LogLevel>)
    ensures r.Some? <==> k in reg
    ensures r.Some? ==> r.value == reg[k]
  {
    if k in reg then Some(reg[k]) else None
  }

  /** The more verbose of two optional thresholds, where `None` imposes no threshold. */
  function Lower(a: Option<LogLevel>, b: Option<LogLevel>): (r: Option<LogLevel>)
    ensures r.Some? <==> a.Some? || b.Some?
    ensures a.Some? ==> Le(r.value, a.value)
    ensures b.Some? ==> Le(r.value, b.value)
    ensures r == a || r == b
  {
    match a
    case None => b
    case Some(x) =>
      match b
      case None => a
      case Some(y) => Some(Min(x, y))
  }

  lemma LowerAssociates(a: Option<LogLevel>, b: Option<LogLevel>, c: Option<LogLevel>)
    ensures Lower(Lower(a, b), c) == Lower(a, Lower(b, c))
  {
  }

  // ---------------------------------------------------------------------------------------
  // Adding keys
  // ---------------------------------------------------------------------------------------

  /**
   * The entries after `logAddKey(k, l)`: an absent key is inserted at `l`; a present key keeps
   * the lower of its old level and `l`. No other entry changes.
   */
  function Merge(reg: Entries, k: LogKey, l: LogLevel): (r: Entries)
    ensures r.Keys == reg.Keys + {k}
    ensures forall k' :: k' in reg && k' != k ==> r[k'] == reg[k']
    ensures Le(r[k], l)
    ensures k in reg ==> Le(r[k], reg[k])
    ensures r[k] == l || (k in reg && r[k] == reg[k])
  {
    if k !in reg then reg[k := l] else reg[k := Min(l, reg[k])]
  }

  /** Merging as seen through `Lookup`: only `k`'s threshold moves, to the lower of old and new. */
  lemma MergeLookup(reg: Entries, k: LogKey, l: LogLevel, k': LogKey)
    ensures Lookup(Merge(reg, k, l), k') ==
            if k' == k then Lower(Lookup(reg, k'), Some(l)) else Lookup(reg, k')
  {
  }

  /** Adding the same key at the same level twice leaves the registry as after the first add. */
  lemma MergeIdempotent(reg: Entries, k: LogKey, l: LogLevel)
    ensures Merge(Merge(reg, k, l), k, l) == Merge(reg, k, l)
  {
  }

  /** Two adds commute: the registry does not depend on the order keys were added in. */
  lemma MergeCommutes(reg: Entries, k1: LogKey, l1: LogLevel, k2: LogKey, l2: LogLevel)
    ensures Merge(Merge(reg, k1, l1), k2, l2) == Merge(Merge(reg, k2, l2), k1, l1)
  {
    var left := Merge(Merge(reg, k1, l1), k2, l2);
    var right := Merge(Merge(reg, k2, l2), k1, l1);
    forall k | k in left
      ensures k in right && left[k] == right[k]
    {
      MergeLookup(reg, k1, l1, k);
      MergeLookup(Merge(reg, k1, l1), k2, l2, k);
      MergeLookup(reg, k2, l2, k);
      MergeLookup(Merge(reg, k2, l2), k1, l1, k);
      LowerAssociates(Lookup(reg, k), Some(l1), Some(l2));
      LowerAssociates(Lookup(reg, k), Some(l2), Some(l1));
      MinCommutes(l1, l2);
    }
  }

  /** The keys a list of key/level pairs names. */
  function ListedKeys(list: seq<(LogKey, LogLevel)>): set<LogKey>
  {
    set i | 0 <= i < |list| :: list[i].0
  }

  /** The entries after `logAddKeys(list)`: `logAddKey` applied to each pair in list order. */
  function MergeAll(reg: Entries, list: seq<(LogKey, LogLevel)>): (r: Entries)
    ensures r.Keys == reg.Keys + ListedKeys(list)
    decreases |list|
  {
    if list == [] then reg
    else
      var last := list[|list| - 1];
      var init := list[..|list| - 1];
      var r := Merge(MergeAll(reg, init), last.0, last.1);
      assert ListedKeys(list) == ListedKeys(init) + {last.0} by {
        assert forall i :: 0 <= i < |init| ==> init[i] == list[i];
      }
      r
  }

  /**
   * The most verbose level `list` names for `k`, or `None` when `list` never names `k`:
   * a reference for `MergeAll` that does not mention the registry.
   */
  function ListedMin(list: seq<(LogKey, LogLevel)>, k: LogKey): (r: Option<LogLevel>)
    ensures r.Some? <==> exists i :: 0 <= i < |list| && list[i].0 == k
    ensures r.Some? ==> forall i :: 0 <= i < |list| && list[i].0 == k ==> Le(r.value, list[i].1)
    ensures r.Some? ==> exists i :: 0 <= i < |list| && list[i].0 == k && list[i].1 == r.value
    decreases |list|
  {
    if list == [] then None
    else
      var last := list[|list| - 1];
      var init := list[..|list| - 1];
      assert forall i :: 0 <= i < |init| ==> init[i] == list[i];
      Lower(ListedMin(init, k), if last.0 == k then Some(last.1) else None)
  }

  /** After `logAddKeys`, each key's threshold is the lowest of its prior one and all listed for it. */
  lemma {:induction false} MergeAllLookup(reg: Entries, list: seq<(LogKey, LogLevel)>, k: LogKey)
    ensures Lookup(MergeAll(reg, list), k) == Lower(Lookup(reg, k), ListedMin(list, k))
    decreases |list|
  {
    if list != [] {
      var last := list[|list| - 1];
      var init := list[..|list| - 1];
      MergeAllLookup(reg, init, k);
      MergeLookup(MergeAll(reg, init), last.0, last.1, k);
      LowerAssociates(Lookup(reg, k), ListedMin(init, k), if last.0 == k then Some(last.1) else None);
    }
  }

  /**
   * The final threshold of a key after `logAddKeys`, in plain terms: at most its prior level and
   * every level listed for it, and equal to one of them.
   */
  lemma AddKeysFinalLevel(reg: Entries, list: seq<(LogKey, LogLevel)>, k: LogKey)
    requires k in MergeAll(reg, list)
    ensures k in reg ==> Le(MergeAll(reg, list)[k], reg[k])
    ensures forall i :: 0 <= i < |list| && list[i].0 == k ==> Le(MergeAll(reg, list)[k], list[i].1)
    ensures (k in reg && MergeAll(reg, list)[k] == reg[k]) ||
            exists i :: 0 <= i < |list| && list[i].0 == k && list[i].1 == MergeAll(reg, list)[k]
  {
    MergeAllLookup(reg, list, k);
    var listed := ListedMin(list, k);
    var r := MergeAll(reg, list);
    if listed.Some? {
      forall i | 0 <= i < |list| && list[i].0 == k
        ensures Le(r[k], list[i].1)
      {
        LeIsTotalOrder(r[k], listed.value, list[i].1);
      }
    }
  }

  /** Adding `a` then `b` is the same as adding `a + b` in one call. */
  lemma {:induction false} MergeAllAppend(reg: Entries, a: seq<(LogKey, LogLevel)>, b: seq<(LogKey, LogLevel)>)
    ensures MergeAll(MergeAll(reg, a), b) == MergeAll(reg, a + b)
    decreases |b|
  {
    if b == [] {
      assert a + b == a;
    } else {
      var last := b[|b| - 1];
      MergeAllAppend(reg, a, b[..|b| - 1]);
      assert (a + b)[..|a + b| - 1] == a + b[..|b| - 1];
      assert (a + b)[|a + b| - 1] == last;
    }
  }

  // ---------------------------------------------------------------------------------------
  // Emitting
  // ---------------------------------------------------------------------------------------

  /** One call of the sink: the level label, the key label, then the caller's data. */
  datatype LogLine<D> = LogLine(levelText: string, keyText: string, data: seq<D>)

  /** The key is registered and its threshold admits messages at `level`. */
  predicate Enabled(reg: Entries, k: LogKey, level: LogLevel)
    ensures Enabled(reg, k, level) ==> k in reg
    ensures k in reg && reg[k] == Debug ==> Enabled(reg, k, level)
    ensures Enabled(reg, k, level) && level != Off ==> reg[k] != Off
  {
    k in reg && Le(reg[k], level)
  }

  /** The lines `log(k, level, ...data)` writes: one line when enabled, none otherwise. */
  function Emission<D>(reg: Entries, k: LogKey, level: MessageLevel, data: seq<D>): (lines: seq<LogLine<D>>)
    ensures |lines| <= 1
    ensures |lines| == 1 <==> Enabled(reg, k, level)
    ensures lines != [] ==> lines[0].data == data
    ensures lines != [] ==> lines[0].levelText == Display(level) + ":"
    ensures lines != [] ==> lines[0].keyText == KeyDisplay(k) + ":"
  {
    match Lookup(reg, k)
    case Some(registered) =>
      if Le(registered, level) then [LogLine(Display(level) + ":", KeyDisplay(k) + ":", data)] else []
    case None => []
  }

  /** An unregistered key and a key registered at `Off` never produce output. */
  lemma SilentKeys<D>(reg: Entries, k: LogKey, level: MessageLevel, data: seq<D>)
    requires k !in reg || reg[k] == Off
    ensures Emission(reg, k, level, data) == []
  {
  }

  /** A key that emits at some level also emits at every more severe level. */
  lemma EnabledUpward(reg: Entries, k: LogKey, a: LogLevel, b: LogLevel)
    requires Enabled(reg, k, a) && Le(a, b)
    ensures Enabled(reg, k, b)
  {
  }

  /** Adding a key never silences anything: whatever emitted before still emits afterwards. */
  lemma MergeKeepsEnabled(reg: Entries, k: LogKey, l: LogLevel, k': LogKey, level: LogLevel)
    requires Enabled(reg, k', level)
    ensures Enabled(Merge(reg, k, l), k', level)
  {
  }

  /** After `logAddKeys(list)`, each listed key emits at every level at or above one listed for it. */
  lemma AddKeysEnables(reg: Entries, list: seq<(LogKey, LogLevel)>, i: nat, level: LogLevel)
    requires i < |list| && Le(list[i].1, level)
    ensures Enabled(MergeAll(reg, list), list[i].0, level)
  {
    var r := MergeAll(reg, list);
    AddKeysFinalLevel(reg, list, list[i].0);
    LeIsTotalOrder(r[list[i].0], list[i].1, level);
  }
}
