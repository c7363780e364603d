/**
 * The goto-chain removal pass: the worker object that repeatedly merges a
 * block that ends in a goto with the block it jumps to, and the pass entry
 * points that run it on one method or on every method of a program.
 */
module RemoveGotosPass {
  import opened Wrappers
  import opened IR
  import opened ControlFlow
  import opened GotoChains

  /** The worker: processes method bodies and counts the gotos it removes. */
  class RemoveGotos {
    var gotoRemoved: nat

    constructor ()
      ensures gotoRemoved == 0
    {
      gotoRemoved := 0;
    }

    /** The position of the first goto among positions [lo, hi), which must hold one. */
    static method FindGoto(s: seq<Entry>, lo: nat, hi: nat) returns (at: nat)
      requires lo <= hi <= |s| && GotoIn(s, lo, hi)
      ensures lo <= at < hi && IsGoto(s[at])
      ensures forall k :: lo <= k < at ==> !IsGoto(s[k])
    {
      at := lo;
      while at < hi && !IsGoto(s[at])
        invariant lo <= at <= hi
        invariant forall k :: lo <= k < at ==> !IsGoto(s[k])
      {
        at := at + 1;
      }
    }

    /**
     * Builds the graph of the current body and scans its blocks in order for
     * the first mergeable one.
     */
    static method FindMergeableBlock(code: IRCode, build: seq<Entry> -> Cfg) returns (cfg: Cfg, block: Option<nat>)
      requires BuilderContract(build)
      ensures cfg == build(code.entries) && BlocksIn(cfg, |code.entries|)
      ensures block == FirstMergeable(cfg, code.entries, 0)
    {
      var s := code.entries;
      cfg := build(s);
      var i := 0;
      while i < |cfg.blocks|
        invariant i <= |cfg.blocks|
        invariant FirstMergeable(cfg, s, i) == FirstMergeable(cfg, s, 0)
      {
        var current := cfg.blocks[i];
        if |current.succs| == 1 && HasGoto(s, current) {
          var next := current.succs[0];
          assert EdgesInRange(current, |cfg.blocks|);
          if next != i && |cfg.blocks[next].preds| == 1
             && (|cfg.blocks[next].succs| == 0 || HasGoto(s, cfg.blocks[next]))
          {
            return cfg, Some(i);
          }
        }
        i := i + 1;
      }
      return cfg, None;
    }

    /**
     * Erases the block at positions [begin, end) entry by entry: the first
     * entry is dropped, the others are collected in order.
     */
    static method EraseBlock(code: IRCode, begin: nat, end: nat) returns (erased: seq<Entry>)
      requires begin < end <= |code.entries|
      modifies code
      ensures erased == old(code.entries[begin + 1..end])
      ensures code.entries == old(code.entries[..begin] + code.entries[end..])
    {
      ghost var s := code.entries;
      erased := [];
      // `last` keeps naming the entry just after the block while the block's entries are erased
      var last := end;
      var iter := code.Erase(begin);
      last := last - 1;
      while iter != last
        invariant iter == begin <= last == end - 1 - |erased|
        invariant erased == s[begin + 1..begin + 1 + |erased|]
        invariant code.entries == s[..begin] + s[begin + 1 + |erased|..]
        decreases last - iter
      {
        erased := erased + [code.entries[iter]];
        iter := code.Erase(iter);
        last := last - 1;
      }
    }

    /** Inserts `run` right after the entry at `at`, one entry at a time, then erases that entry. */
    static method ReplaceEntry(code: IRCode, at: nat, run: seq<Entry>)
      requires at < |code.entries|
      modifies code
      ensures code.entries == old(code.entries[..at]) + run + old(code.entries[at + 1..])
    {
      ghost var s := code.entries;
      var iter := at;
      for k := 0 to |run|
        invariant iter == at + k
        invariant code.entries == s[..at + 1] + run[..k] + s[at + 1..]
      {
        iter := code.InsertAfter(iter, run[k]);
      }
      var _ := code.Erase(at);
    }

    /**
     * Finds the goto of the block at positions [lo, hi), whose only goto is
     * its last entry, and replaces it by `run`.
     */
    static method ReplaceGoto(code: IRCode, lo: nat, hi: nat, run: seq<Entry>)
      requires lo < hi <= |code.entries| && IsGoto(code.entries[hi - 1])
      requires forall k :: lo <= k < hi - 1 ==> !IsGoto(code.entries[k])
      modifies code
      ensures code.entries == old(code.entries[..hi - 1]) + run + old(code.entries[hi..])
    {
      var gotoIter := FindGoto(code.entries, lo, hi);
      ReplaceEntry(code, gotoIter, run);
    }

    /**
     * Merges block `next`, the successor of block `current`, into it: `next`
     * is erased, its entries after the first are inserted right after
     * `current`'s goto, and the goto is erased.
     */
    static method Merge(code: IRCode, current: Block, next: Block)
      requires MergePlan(code.entries, current, next)
      modifies code
      ensures code.entries == Splice(old(code.entries), current.end - 1, next.begin, next.end)
    {
      ghost var s := code.entries;
      CutKeepsBlock(s, current, next);
      var nextBlockMies := EraseBlock(code, next.begin, next.end);
      // the range of `current`, shifted when `next` preceded it
      var lo := CutIndex(current.begin, next.begin, next.end);
      var hi := CutIndex(current.end - 1, next.begin, next.end) + 1;
      ReplaceGoto(code, lo, hi, nextBlockMies);
      SpliceParts(s, current.end - 1, next.begin, next.end);
    }

    /**
     * Merges to a fixed point: while the freshly built graph has a mergeable
     * block, count one removed goto and merge it.
     */
    method ProcessMethod(m: DexMethod, build: seq<Entry> -> Cfg)
      requires m.code != null
      requires BuilderContract(build)
      modifies this, m.code
      ensures m.code.entries == ProcessedBody(old(m.code.entries), build).body
      ensures gotoRemoved == old(gotoRemoved) + ProcessedBody(old(m.code.entries), build).removed
    {
      var code := m.code;
      ghost var outcome := ProcessedBody(code.entries, build);
      var cfg, currentBlock := FindMergeableBlock(code, build);
      while currentBlock.Some?
        invariant cfg == build(code.entries) && BlocksIn(cfg, |code.entries|)
        invariant currentBlock == FirstMergeable(cfg, code.entries, 0)
        invariant ProcessedBody(code.entries, build).body == outcome.body
        invariant gotoRemoved + ProcessedBody(code.entries, build).removed == old(gotoRemoved) + outcome.removed
        decreases |code.entries|
      {
        RoundPlan(code.entries, build, currentBlock.value);
        gotoRemoved := gotoRemoved + 1;
        var current := cfg.blocks[currentBlock.value];
        Merge(code, current, cfg.blocks[current.succs[0]]);
        cfg, currentBlock := FindMergeableBlock(code, build);
      }
    }

    /** The number of gotos removed by this worker so far. */
    method NumGotoRemoved() returns (n: nat)
      ensures n == gotoRemoved
    {
      n := gotoRemoved;
    }
  }

  /** Processes one method with a fresh worker and returns the number of gotos it removed. */
  method Run(m: DexMethod, build: seq<Entry> -> Cfg) returns (n: nat)
    requires m.code != null
    requires BuilderContract(build)
    modifies m.code
    ensures m.code.entries == ProcessedBody(old(m.code.entries), build).body
    ensures n == ProcessedBody(old(m.code.entries), build).removed
  {
    var rmgotos := new RemoveGotos();
    rmgotos.ProcessMethod(m, build);
    n := rmgotos.NumGotoRemoved();
  }

  /** The bodies of the methods that have code, in order. */
  ghost function Bodies(methods: seq<DexMethod>): seq<seq<Entry>>
    reads set m | m in methods && m.code != null :: m.code
  {
    if methods == [] then []
    else
      var last := methods[|methods| - 1];
      Bodies(methods[..|methods| - 1]) + (if last.code != null then [last.code.entries] else [])
  }

  /** No two methods share a body. */
  predicate DistinctCode(methods: seq<DexMethod>)
  {
    forall i, j :: 0 <= i < |methods| && 0 <= j < |methods| && i != j && methods[i].code != null ==>
      methods[i].code != methods[j].code
  }

  /**
   * Runs one worker over every method that has code, skipping the others,
   * and returns the worker's total, which the pass reports as its metric.
   */
  method RunPass(methods: seq<DexMethod>, build: seq<Entry> -> Cfg) returns (total: nat)
    requires BuilderContract(build)
    requires DistinctCode(methods)
    modifies set m | m in methods && m.code != null :: m.code
    ensures total == TotalRemoved(old(Bodies(methods)), build)
    ensures forall k :: 0 <= k < |methods| && methods[k].code != null ==>
      methods[k].code.entries == ProcessedBody(old(methods[k].code.entries), build).body
  {
    var rmgotos := new RemoveGotos();
    for i := 0 to |methods|
      invariant rmgotos.gotoRemoved == TotalRemoved(old(Bodies(methods[..i])), build)
      invariant forall k :: 0 <= k < i && methods[k].code != null ==>
        methods[k].code.entries == ProcessedBody(old(methods[k].code.entries), build).body
      invariant forall k :: i <= k < |methods| && methods[k].code != null ==>
        methods[k].code.entries == old(methods[k].code.entries)
    {
      var m := methods[i];
      ghost var done := old(Bodies(methods[..i]));
      assert methods[..i + 1][..i] == methods[..i];
      if m.code != null {
        assert old(Bodies(methods[..i + 1])) == done + [old(m.code.entries)];
        TotalRemovedSnoc(done, m.code.entries, build);
        rmgotos.ProcessMethod(m, build);
      } else {
        assert old(Bodies(methods[..i + 1])) == done;
      }
    }
    assert methods[..|methods|] == methods;
    total := rmgotos.NumGotoRemoved();
  }
}
