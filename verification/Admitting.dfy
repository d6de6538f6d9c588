/** How an admission decision moves with the target, and how a job is sized. */
module Admitting {
  import opened Common
  import opened Jobs
  import opened RedisLists
  import opened Admission
  import opened Lifecycle
  import opened Ledger
  import opened Invariant
  import opened Steps
  import opened Stranded

  // ---------------------------------------------------------------- more memory, larger base

  /** The same report with no less free memory. */
  predicate MoreFree(r: Report, r': Report) {
    r' == r.(vramFreeMb := r'.vramFreeMb, ramFreeMb := r'.ramFreeMb)
    && r.vramFreeMb <= r'.vramFreeMb && r.ramFreeMb <= r'.ramFreeMb
  }

  /** More free memory never turns an admission into a rejection. */
  lemma MoreMemoryAdmits(cfg: Config, j: Job, target: Target, u: Usage, r: Report, r': Report)
    requires cfg.Valid() && SaneUsage(u) && MoreFree(r, r')
    requires Evaluate(cfg, j, target, u, r).Admit?
    ensures Evaluate(cfg, j, target, u, r') == Evaluate(cfg, j, target, u, r)
  {
    hide Evaluate, BuildModelProfile, TokensFit;
    AdmitsExactly(cfg, j, target, u, r);
    AdmitsExactly(cfg, j, target, u, r');
    var d, d' := Evaluate(cfg, j, target, u, r), Evaluate(cfg, j, target, u, r');
    var p := BuildModelProfile(cfg, j.demand, target.kind);
    assert d'.tokens <= d.tokens && d.tokens <= d'.tokens;
  }

  /** Nor does a larger base, for chat and parse jobs, nor for SIEM jobs where chat keeps at most the whole base. */
  lemma LargerBaseAdmits(cfg: Config, j: Job, target: Target, target': Target, u: Usage, r: Report)
    requires cfg.Valid() && SaneUsage(u) && target'.kind == target.kind && BaseTokens(target) <= BaseTokens(target')
    requires j.cls != Batch && (j.cls == Siem ==> cfg.chatRatioNum <= cfg.chatRatioDen)
    requires Evaluate(cfg, j, target, u, r).Admit?
    ensures Evaluate(cfg, j, target', u, r).Admit?
  {
    hide Evaluate, BuildModelProfile, SlotFree, MemoryFree;
    AdmitsExactly(cfg, j, target, u, r);
    AdmitsExactly(cfg, j, target', u, r);
    if j.cls == Siem {
      ShareSlope(BaseTokens(target), BaseTokens(target'), cfg.chatRatioNum, cfg.chatRatioDen);
    }
    ShareSlope(BaseTokens(target), BaseTokens(target'), cfg.siemRatioNum, cfg.siemRatioDen);
  }

  /** What the reserves keep from batch work. */
  function Kept(cfg: Config, base: nat, u: Usage): nat
    requires cfg.Valid()
  {
    ChatUnused(cfg, base, u) + SiemUnused(cfg, base, u)
  }

  /**
    For a batch job a larger base keeps the admission exactly when the unused reserves grow by no
    more than the base does, beyond the tokens the smaller base had to spare.
  */
  lemma LargerBaseBatch(cfg: Config, j: Job, target: Target, target': Target, u: Usage, r: Report)
    requires cfg.Valid() && SaneUsage(u) && target'.kind == target.kind && BaseTokens(target) <= BaseTokens(target')
    requires j.cls == Batch && Evaluate(cfg, j, target, u, r).Admit?
    ensures var d := Evaluate(cfg, j, target, u, r);
            var base, base' := BaseTokens(target), BaseTokens(target');
            var spare := base - u.tokens - d.tokens - Kept(cfg, base, u);
            && spare >= 0
            && (Evaluate(cfg, j, target', u, r).Admit?
                <==> Kept(cfg, base', u) - Kept(cfg, base, u) <= base' - base + spare)
  {
    hide Evaluate, BuildModelProfile, SlotFree, MemoryFree, ChatUnused, SiemUnused;
    AdmitsExactly(cfg, j, target, u, r);
    AdmitsExactly(cfg, j, target', u, r);
    CostIs(cfg, j, target, u, r);
  }

  lemma CostIs(cfg: Config, j: Job, target: Target, u: Usage, r: Report)
    requires cfg.Valid() && Evaluate(cfg, j, target, u, r).Admit?
    ensures Evaluate(cfg, j, target, u, r).tokens == BuildModelProfile(cfg, j.demand, target.kind).tokenCost
  {
    hide BuildModelProfile, TokenGate;
  }

  /**
    With half the base kept for chat and a quarter for SIEM, an idle target of base 3 takes a batch
    job that one of base 4 refuses.
  */
  lemma LargerBaseRefuses(j: Job)
    requires j.demand == Demand(0, 0, 0, 0) && j.targetKind == Cpu && j.model == "m" && j.cls == Batch
    ensures Evaluate(CFG, j, Target(Cpu, 3), IDLE, FREE) == Admit(2, 0, 922)
    ensures Evaluate(CFG, j, Target(Cpu, 4), IDLE, FREE) == Reject
  {
    hide BuildModelProfile, MemoryGate, TokenGate;
    SmallProfile();
    SmallGates();
    SmallMemory(j);
    assert !SingleSlot(Cpu, IDLE, 2, 3) && !SingleSlot(Cpu, IDLE, 2, 4);
    assert BaseTokens(Target(Cpu, 3)) == 3 && BaseTokens(Target(Cpu, 4)) == 4;
  }

  lemma SmallGates()
    ensures CFG.Valid() && TokenGate(CFG, Batch, IDLE, 2, 3) && !TokenGate(CFG, Batch, IDLE, 2, 4)
  {
  }

  lemma SmallMemory(j: Job)
    requires j.cls == Batch && j.model == "m"
    ensures MemoryGate(CFG, j, Cpu, Profile(346, 64, 512, 922, 2), IDLE, FREE) == Admit(2, 0, 922)
  {
  }

  /** An idle GPU target with 24000 MB free takes a small chat job: three tokens and 1114 MB. */
  lemma GpuTakes(j: Job)
    requires j.demand == Demand(0, 0, 0, 0) && j.targetKind == Gpu && j.cls == Chat
    ensures Evaluate(CFG, j, Target(Gpu, 8), IDLE, Report({}, 24000, 0, 0, false)) == Admit(3, 1114, 0)
  {
    assert CeilDiv(0, 1048576) == 0;
    assert CeilDiv(256 * 110, 100) == 282;
    assert CeilDiv(1114, 512) == 3;
    assert BuildModelProfile(CFG, j.demand, Gpu) == Profile(282, 64, 768, 1114, 3);
  }

  // ---------------------------------------------------------------- in the store

  lemma UsageSane(cfg: Config, s: State, t: TargetId, m: Model)
    requires Inv(cfg, s)
    ensures cfg.Valid() && SaneUsage(ReadUsage(s.counters, t, m))
  {
    hide Balanced;
    ClassBelowTotal(cfg, s, t);
    assert forall c :: 0 <= CounterAt(s.counters, t, TokensOf(c)) <= CounterAt(s.counters, t, Tokens);
  }

  /**
    In every store of the invariant a queued job found in the queue is admitted exactly when the
    target takes it, a GPU job counting as a CPU job while no GPU worker lives. It is then in the
    dispatch list of its pool and target and in no other list, with what it takes on its record. A
    refused job is left where it is, as the CPU job it was taken for.
  */
  lemma StoreAdmits(cfg: Config, s: State, id: JobId, queue: Key, t: TargetId, r: Report, gpuWorkers: bool, now: int)
    requires Inv(cfg, s) && t in cfg.targets && id in s.jobs && s.jobs[id].status == Queued
    ensures var j := s.jobs[id].(targetKind := if gpuWorkers then s.jobs[id].targetKind else Cpu);
            var u := ReadUsage(s.counters, t, j.model);
            && (Admits(cfg, s, id, queue, t, r, gpuWorkers)
                <==> id in ListAt(s.lists, queue) && Takes(cfg, j, cfg.targets[t], u, r))
            && (Admits(cfg, s, id, queue, t, r, gpuWorkers) ==>
                  var s' := TryAdmit(cfg, s, id, queue, t, r, gpuWorkers, now);
                  && id in s'.jobs && s'.jobs[id].target == Some(t) && s'.jobs[id].status == Admitted
                  && s'.jobs[id].tokens == BuildModelProfile(cfg, j.demand, j.targetKind).tokenCost
                  && s'.jobs[id].vram + s'.jobs[id].ram == Required(cfg, j, j.targetKind, u, r)
                  && forall k :: Occurs(s'.lists, k, id) == if k == Dispatch(PoolFor(j.cls), t) then 1 else 0)
            && (!Admits(cfg, s, id, queue, t, r, gpuWorkers) ==>
                  TryAdmit(cfg, s, id, queue, t, r, gpuWorkers, now) == s.(jobs := s.jobs[id := j]))
  {
    hide Evaluate, Takes, Inv, RPush, RemoveOne, Reserve, BuildModelProfile, Required;
    var j := Downgrade(s.jobs[id], gpuWorkers);
    assert j == s.jobs[id].(targetKind := if gpuWorkers then s.jobs[id].targetKind else Cpu);
    var u := ReadUsage(s.counters, t, j.model);
    UsageSane(cfg, s, t, j.model);
    AdmitsExactly(cfg, j, cfg.targets[t], u, r);
    if Admits(cfg, s, id, queue, t, r, gpuWorkers) {
      TakesKind(cfg, j, cfg.targets[t], u, r);
      CostIs(cfg, j, cfg.targets[t], u, r);
      AdmittedOk(cfg, s, id, queue, t, r, gpuWorkers, now);
      var s' := TryAdmit(cfg, s, id, queue, t, r, gpuWorkers, now);
      SeatIs(cfg, s', id);
    }
  }

  lemma TakesKind(cfg: Config, j: Job, target: Target, u: Usage, r: Report)
    requires cfg.Valid() && Takes(cfg, j, target, u, r)
    ensures j.targetKind == target.kind
  {
    hide TokensFit, SlotFree, MemoryFree, BuildModelProfile;
  }

  lemma SeatIs(cfg: Config, s: State, id: JobId)
    requires Inv(cfg, s) && id in s.jobs && s.jobs[id].status == Admitted && s.jobs[id].target.Some?
    ensures forall k :: Occurs(s.lists, k, id)
                        == if k == Dispatch(PoolFor(s.jobs[id].cls), s.jobs[id].target.value) then 1 else 0
  {
    hide Balanced, WithinCapacity, Bounded, NoStrays;
    assert JobOk(cfg, s, id);
  }

  // ---------------------------------------------------------------- sizing

  /** The least `n` from `floor` up with `n * per >= amount`. */
  ghost predicate Least(n: nat, floor: nat, amount: nat, per: nat) {
    n >= floor && amount <= n * per && forall m: nat | m >= floor && amount <= m * per :: n <= m
  }

  lemma CeilIsLeast(floor: nat, amount: nat, per: nat)
    requires per > 0
    ensures Least(Max(floor, CeilDiv(amount, per)), floor, amount, per)
  {
    hide CeilDiv;
    var n := Max(floor, CeilDiv(amount, per));
    CeilDivCovers(amount, per);
    AtMost(CeilDiv(amount, per), n, per);
    forall m: nat | m >= floor && amount <= m * per
      ensures n <= m
    {
      CeilDivLeast(amount, per, m);
    }
  }

  /**
    What a job is charged: whole megabytes of the model file, at least 256; that times the factor
    of the target kind, at least 256; the cache for the longer of prompt and context plus the
    output, at least 64; the overhead of the kind; and the least tokens that cover the sum.
  */
  lemma ProfileExact(cfg: Config, d: Demand, kind: TargetKind)
    requires cfg.Valid()
    ensures var p := BuildModelProfile(cfg, d, kind);
            && p.overheadMb == (if kind == Gpu then cfg.gpuOverheadMb else cfg.cpuOverheadMb)
            && p.totalMb == p.weightsMb + p.kvMb + p.overheadMb
            && Least(p.kvMb, 64, (Max(d.promptTokens, d.contextTokens) + d.maxOutputTokens) * cfg.kvMbPer1k, 1000)
            && Least(p.tokenCost, 1, p.totalMb, cfg.Granule())
            && exists size: nat ::
                 && Least(size, 256, d.sizeBytes, 1048576)
                 && if kind == Gpu then Least(p.weightsMb, 256, size * cfg.gpuWeightNum, cfg.gpuWeightDen)
                    else Least(p.weightsMb, 256, size * cfg.cpuWeightNum, cfg.cpuWeightDen)
  {
    hide CeilDiv, Least;
    var p := BuildModelProfile(cfg, d, kind);
    var size := Max(256, CeilDiv(d.sizeBytes, 1048576));
    CeilIsLeast(256, d.sizeBytes, 1048576);
    CeilIsLeast(64, (Max(d.promptTokens, d.contextTokens) + d.maxOutputTokens) * cfg.kvMbPer1k, 1000);
    CeilIsLeast(256, size * cfg.gpuWeightNum, cfg.gpuWeightDen);
    CeilIsLeast(256, size * cfg.cpuWeightNum, cfg.cpuWeightDen);
    CeilIsLeast(1, p.totalMb, cfg.Granule());
  }
}
