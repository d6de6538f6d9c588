/** Sizing a job and deciding whether a target may take it. */
module Admission {
  import opened Common
  import opened Jobs

  datatype Profile = Profile(weightsMb: nat, kvMb: nat, overheadMb: nat, totalMb: nat, tokenCost: nat)

  /** The tokens that cover a memory need, never fewer than one. */
  function TokenCost(totalMb: nat, granule: nat): (cost: nat)
    requires granule >= 1
    ensures cost >= 1
    ensures totalMb <= cost * granule
  {
    CeilDivCovers(totalMb, granule);
    Max(1, CeilDiv(totalMb, granule))
  }

  function BuildModelProfile(cfg: Config, d: Demand, kind: TargetKind): (p: Profile)
    requires cfg.Valid()
    ensures p.tokenCost >= 1
    ensures p.weightsMb + p.kvMb + p.overheadMb <= p.tokenCost * cfg.Granule()
  {
    var sizeMb := Max(256, CeilDiv(d.sizeBytes, 1048576));
    var kvTokens := Max(d.promptTokens, d.contextTokens) + d.maxOutputTokens;
    var kvMb := Max(64, CeilDiv(kvTokens * cfg.kvMbPer1k, 1000));
    var weightsMb :=
      if kind == Gpu then Max(256, CeilDiv(sizeMb * cfg.gpuWeightNum, cfg.gpuWeightDen))
      else Max(256, CeilDiv(sizeMb * cfg.cpuWeightNum, cfg.cpuWeightDen));
    var overheadMb := if kind == Gpu then cfg.gpuOverheadMb else cfg.cpuOverheadMb;
    var totalMb := weightsMb + kvMb + overheadMb;
    Profile(weightsMb, kvMb, overheadMb, totalMb, TokenCost(totalMb, cfg.Granule()))
  }

  /** The part of a target heartbeat that may change from one admission to the next. */
  datatype Report = Report(warm: set<Model>, vramFreeMb: int, ramFreeMb: int, cpuCount: int, overloaded: bool)

  datatype Decision = Reject | Admit(tokens: nat, vram: nat, ram: nat)

  /** `get_target_usage` together with the model reference that admission also reads. */
  datatype Usage = Usage(tokens: int, active: int, chat: int, siem: int, vram: int, ram: int, modelRefs: int)

  function ReadUsage(c: map<(TargetId, Field), int>, t: TargetId, m: Model): Usage {
    Usage(CounterAt(c, t, Tokens), CounterAt(c, t, ActiveJobs), CounterAt(c, t, TokensOf(Chat)),
          CounterAt(c, t, TokensOf(Siem)), CounterAt(c, t, Vram), CounterAt(c, t, Ram), CounterAt(c, t, ModelRef(m)))
  }

  predicate SingleSlot(kind: TargetKind, u: Usage, cost: nat, base: nat) {
    kind == Cpu && u.active == 0 && u.tokens == 0 && cost > base
  }

  /** The token gate: class reserves on top of the total. */
  predicate TokenGate(cfg: Config, cls: Workload, u: Usage, cost: nat, capacity: nat)
    requires cfg.Valid()
  {
    var chatCap := Max(1, capacity * cfg.chatRatioNum / cfg.chatRatioDen);
    var siemCap := capacity * cfg.siemRatioNum / cfg.siemRatioDen;
    var chatUnused := Max(chatCap - u.chat, 0);
    var available := Max(0, capacity - u.tokens - chatUnused - Max(siemCap - u.siem, 0));
    && u.tokens + cost <= capacity
    && (cls == Batch ==> available >= cost)
    && (cls == Siem ==>
          u.siem + cost <= siemCap || Max(0, capacity - u.tokens - chatUnused) >= cost)
  }

  function MemoryGate(cfg: Config, j: Job, kind: TargetKind, p: Profile, u: Usage, r: Report): Decision {
    var warm := j.model in r.warm || u.modelRefs > 0;
    var parallelCost := Max(Max(p.kvMb + p.overheadMb, cfg.granularityMb), 1);
    var required: nat := p.kvMb + p.overheadMb + if warm then 0 else p.weightsMb;
    if kind == Gpu then
      var free := Max(0, r.vramFreeMb - cfg.gpuMarginMb);
      if u.active >= Max(1, free / parallelCost) || free - u.vram < required then Reject
      else Admit(p.tokenCost, required, 0)
    else
      var free := Max(0, r.ramFreeMb - cfg.ramMarginMb);
      var cpus := if r.cpuCount == 0 then 1 else r.cpuCount;
      var left := free - u.ram;
      var coldStart :=
        j.cls == Chat && u.active == 0 && u.tokens == 0 && u.ram == 0 && !warm && left > 0 && required > left;
      if r.overloaded && u.active > 0 then Reject
      else if u.active >= Max(1, Min(cpus, free / parallelCost)) then Reject
      else if left < required && !coldStart then Reject
      else Admit(p.tokenCost, 0, required)
  }

  /** `_evaluate_target_admission`. */
  function Evaluate(cfg: Config, j: Job, target: Target, u: Usage, r: Report): (d: Decision)
    requires cfg.Valid()
    ensures d.Admit? ==>
              && j.targetKind == target.kind
              && d.tokens >= 1
              && d.vram + d.ram <= d.tokens * cfg.Granule()
              && (u.tokens + d.tokens <= BaseTokens(target) || SingleSlot(target.kind, u, d.tokens, BaseTokens(target)))
  {
    if j.targetKind != target.kind then Reject
    else
      var p := BuildModelProfile(cfg, j.demand, target.kind);
      var base := BaseTokens(target);
      var capacity := if SingleSlot(target.kind, u, p.tokenCost, base) then p.tokenCost else base;
      if !TokenGate(cfg, j.cls, u, p.tokenCost, capacity) then Reject
      else MemoryGate(cfg, j, target.kind, p, u, r)
  }

  /** x * n / d < x for a proper fraction n/d and positive x. */
  lemma ProperShareBelow(x: nat, n: nat, d: nat)
    requires n < d && x > 0
    ensures x * n / d < x
  {
    assert x * n < x * d;
  }

  /**
    The single-slot override lets a job through that is larger than the whole target. The chat
    reserve is never below one token, so no batch or SIEM job ever gets through it.
  */
  lemma OversizeIsChatOrParse(cfg: Config, j: Job, target: Target, u: Usage, r: Report)
    requires cfg.Valid()
    requires u.chat >= 0 && u.siem >= 0
    requires u.tokens == 0 ==> u.chat == 0 && u.siem == 0
    requires Evaluate(cfg, j, target, u, r).Admit?
    requires u.tokens + Evaluate(cfg, j, target, u, r).tokens > BaseTokens(target)
    ensures j.cls == Chat || j.cls == Parse
    ensures target.kind == Cpu && u.active == 0 && u.tokens == 0
  {
    var cost := Evaluate(cfg, j, target, u, r).tokens;
    ProperShareBelow(cost, cfg.siemRatioNum, cfg.siemRatioDen);
  }

  lemma ScaledGrows(a: nat, a': nat, n: nat, d: nat)
    requires d > 0 && a <= a'
    ensures CeilDiv(a * n, d) <= CeilDiv(a' * n, d)
  {
    assert a * n <= a' * n;
    CeilDivGrows(a * n, a' * n, d);
  }

  /** A larger model or a longer conversation never costs less. */
  lemma ProfileGrows(cfg: Config, d: Demand, d': Demand, kind: TargetKind)
    requires cfg.Valid() && d.sizeBytes <= d'.sizeBytes && d.promptTokens <= d'.promptTokens
    requires d.contextTokens <= d'.contextTokens && d.maxOutputTokens <= d'.maxOutputTokens
    ensures BuildModelProfile(cfg, d, kind).totalMb <= BuildModelProfile(cfg, d', kind).totalMb
    ensures BuildModelProfile(cfg, d, kind).tokenCost <= BuildModelProfile(cfg, d', kind).tokenCost
  {
    hide CeilDiv;
    CeilDivGrows(d.sizeBytes, d'.sizeBytes, 1048576);
    var size, size' := Max(256, CeilDiv(d.sizeBytes, 1048576)), Max(256, CeilDiv(d'.sizeBytes, 1048576));
    ScaledGrows(size, size', cfg.gpuWeightNum, cfg.gpuWeightDen);
    ScaledGrows(size, size', cfg.cpuWeightNum, cfg.cpuWeightDen);
    ScaledGrows(Max(d.promptTokens, d.contextTokens) + d.maxOutputTokens,
                Max(d'.promptTokens, d'.contextTokens) + d'.maxOutputTokens, cfg.kvMbPer1k, 1000);
    CeilDivGrows(BuildModelProfile(cfg, d, kind).totalMb, BuildModelProfile(cfg, d', kind).totalMb, cfg.Granule());
  }

  /** What is reported free, less the safety margin. */
  function FreeMemory(cfg: Config, kind: TargetKind, r: Report): int {
    Max(0, if kind == Gpu then r.vramFreeMb - cfg.gpuMarginMb else r.ramFreeMb - cfg.ramMarginMb)
  }

  /**
    An admission reserves one kind of memory and stays within what is free, except for a first
    chat job with a cold model on an idle CPU target; an overloaded CPU target takes one job at most.
  */
  lemma MemoryFits(cfg: Config, j: Job, target: Target, u: Usage, r: Report)
    requires cfg.Valid() && Evaluate(cfg, j, target, u, r).Admit?
    ensures var d := Evaluate(cfg, j, target, u, r);
            var free := FreeMemory(cfg, target.kind, r);
            if target.kind == Gpu then d.ram == 0 && u.vram + d.vram <= free
            else && d.vram == 0
                 && (r.overloaded ==> u.active <= 0)
                 && (u.ram + d.ram <= free
                     || (j.cls == Chat && u.active == 0 && u.tokens == 0 && u.ram == 0 && free > 0
                         && j.model !in r.warm && u.modelRefs <= 0))
  {
    hide BuildModelProfile, TokenGate;
  }

  /** Batch work leaves the unused chat and SIEM reserves free; SIEM work beyond its share leaves the chat reserve. */
  lemma ReservesKept(cfg: Config, j: Job, target: Target, u: Usage, r: Report)
    requires cfg.Valid() && Evaluate(cfg, j, target, u, r).Admit?
    requires u.chat >= 0 && u.siem >= 0 && (u.tokens == 0 ==> u.chat == 0 && u.siem == 0)
    ensures var d := Evaluate(cfg, j, target, u, r);
            var base := BaseTokens(target);
            var chatCap := Max(1, base * cfg.chatRatioNum / cfg.chatRatioDen);
            var siemCap := base * cfg.siemRatioNum / cfg.siemRatioDen;
            && (j.cls == Batch ==> u.tokens + d.tokens + Max(chatCap - u.chat, 0) + Max(siemCap - u.siem, 0) <= base)
            && (j.cls == Siem ==>
                  u.siem + d.tokens <= siemCap || u.tokens + d.tokens + Max(chatCap - u.chat, 0) <= base)
  {
    hide BuildModelProfile;
    var d := Evaluate(cfg, j, target, u, r);
    if u.tokens + d.tokens > BaseTokens(target) {
      OversizeIsChatOrParse(cfg, j, target, u, r);
    }
  }

  // ---------------------------------------------------------------- exactly when a job is admitted

  /** Class counters are part of the total. */
  predicate SaneUsage(u: Usage) {
    u.chat >= 0 && u.siem >= 0 && (u.tokens == 0 ==> u.chat == 0 && u.siem == 0)
  }

  function ChatUnused(cfg: Config, base: nat, u: Usage): nat
    requires cfg.Valid()
  {
    Max(Max(1, base * cfg.chatRatioNum / cfg.chatRatioDen) - u.chat, 0)
  }

  function SiemShare(cfg: Config, base: nat): nat
    requires cfg.Valid()
  {
    base * cfg.siemRatioNum / cfg.siemRatioDen
  }

  function SiemUnused(cfg: Config, base: nat, u: Usage): nat
    requires cfg.Valid()
  {
    Max(SiemShare(cfg, base) - u.siem, 0)
  }

  /** The base leaves room for the cost: chat and parse take any token, SIEM and batch respect reserves. */
  predicate TokensFit(cfg: Config, cls: Workload, u: Usage, cost: nat, base: nat)
    requires cfg.Valid()
  {
    match cls
    case Chat => u.tokens + cost <= base
    case Parse => u.tokens + cost <= base
    case Batch => u.tokens + cost + ChatUnused(cfg, base, u) + SiemUnused(cfg, base, u) <= base
    case Siem =>
      && u.tokens + cost <= base
      && (u.siem + cost <= SiemShare(cfg, base) || u.tokens + cost + ChatUnused(cfg, base, u) <= base)
  }

  predicate Cold(j: Job, u: Usage, r: Report) { j.model !in r.warm && u.modelRefs <= 0 }

  /** The memory a job takes: cache and overhead, and the weights exactly when its model is cold. */
  function Required(cfg: Config, j: Job, kind: TargetKind, u: Usage, r: Report): nat
    requires cfg.Valid()
  {
    var p := BuildModelProfile(cfg, j.demand, kind);
    p.kvMb + p.overheadMb + if Cold(j, u, r) then p.weightsMb else 0
  }

  /** The first job has a slot; one more needs its cache in the free memory, and on a CPU a core and no overload. */
  predicate SlotFree(cfg: Config, j: Job, kind: TargetKind, u: Usage, r: Report)
    requires cfg.Valid()
  {
    var p := BuildModelProfile(cfg, j.demand, kind);
    || u.active <= 0
    || (&& (u.active + 1) * Max(p.kvMb + p.overheadMb, cfg.Granule()) <= FreeMemory(cfg, kind, r)
        && (kind == Cpu ==> u.active < (if r.cpuCount == 0 then 1 else r.cpuCount) && !r.overloaded))
  }

  /** Free memory less reservations covers the need; a first cold chat job on an idle CPU needs only some. */
  predicate MemoryFree(cfg: Config, j: Job, kind: TargetKind, u: Usage, r: Report)
    requires cfg.Valid()
  {
    var free := FreeMemory(cfg, kind, r);
    || (if kind == Gpu then u.vram else u.ram) + Required(cfg, j, kind, u, r) <= free
    || (kind == Cpu && j.cls == Chat && u.active == 0 && u.tokens == 0 && u.ram == 0 && Cold(j, u, r) && free > 0)
  }

  /** When a target takes a job. */
  predicate Takes(cfg: Config, j: Job, target: Target, u: Usage, r: Report)
    requires cfg.Valid()
  {
    var cost, base := BuildModelProfile(cfg, j.demand, target.kind).tokenCost, BaseTokens(target);
    && j.targetKind == target.kind
    && (TokensFit(cfg, j.cls, u, cost, base) || (j.cls in {Chat, Parse} && SingleSlot(target.kind, u, cost, base)))
    && SlotFree(cfg, j, target.kind, u, r)
    && MemoryFree(cfg, j, target.kind, u, r)
  }

  lemma TokensExact(cfg: Config, cls: Workload, u: Usage, cost: nat, target: Target)
    requires cfg.Valid() && SaneUsage(u) && cost >= 1
    ensures var base := BaseTokens(target);
            var single := SingleSlot(target.kind, u, cost, base);
            TokenGate(cfg, cls, u, cost, if single then cost else base)
            <==> TokensFit(cfg, cls, u, cost, base) || (cls in {Chat, Parse} && single)
  {
    ProperShareBelow(cost, cfg.siemRatioNum, cfg.siemRatioDen);
  }

  lemma MemoryExact(cfg: Config, j: Job, kind: TargetKind, u: Usage, r: Report)
    requires cfg.Valid()
    ensures var p := BuildModelProfile(cfg, j.demand, kind);
            var need := Required(cfg, j, kind, u, r);
            MemoryGate(cfg, j, kind, p, u, r)
            == if SlotFree(cfg, j, kind, u, r) && MemoryFree(cfg, j, kind, u, r)
               then Admit(p.tokenCost, if kind == Gpu then need else 0, if kind == Gpu then 0 else need) else Reject
  {
    hide BuildModelProfile;
    var p := BuildModelProfile(cfg, j.demand, kind);
    var parallel := Max(p.kvMb + p.overheadMb, cfg.Granule());
    assert parallel == Max(Max(p.kvMb + p.overheadMb, cfg.granularityMb), 1);
    BelowQuotient(u.active, FreeMemory(cfg, kind, r), parallel);
  }

  /**
    A target takes a job exactly when it is of its kind, its tokens leave room for the cost beside
    the reserves of other classes, a slot is free, and its free memory covers the need. What is
    reserved is the least number of tokens that covers the whole job, and the memory it takes.
  */
  lemma AdmitsExactly(cfg: Config, j: Job, target: Target, u: Usage, r: Report)
    requires cfg.Valid() && SaneUsage(u)
    ensures var d := Evaluate(cfg, j, target, u, r);
            var p := BuildModelProfile(cfg, j.demand, target.kind);
            && (d.Admit? <==> Takes(cfg, j, target, u, r))
            && (d.Admit? ==>
                  && d.tokens >= 1 && p.weightsMb + p.kvMb + p.overheadMb <= d.tokens * cfg.Granule()
                  && (forall n: nat | n >= 1 && p.weightsMb + p.kvMb + p.overheadMb <= n * cfg.Granule() ::
                        d.tokens <= n)
                  && (if target.kind == Gpu then d.vram else d.ram) == Required(cfg, j, target.kind, u, r)
                  && (if target.kind == Gpu then d.ram else d.vram) == 0)
  {
    hide BuildModelProfile, TokenGate, MemoryGate, TokensFit, SlotFree, MemoryFree, Required, CeilDiv;
    var p := BuildModelProfile(cfg, j.demand, target.kind);
    TokensExact(cfg, j.cls, u, p.tokenCost, target);
    MemoryExact(cfg, j, target.kind, u, r);
    forall n: nat | n >= 1 && p.weightsMb + p.kvMb + p.overheadMb <= n * cfg.Granule()
      ensures p.tokenCost <= n
    {
      CostIsLeast(cfg, j.demand, target.kind, n);
    }
  }

  lemma CostIsLeast(cfg: Config, d: Demand, kind: TargetKind, n: nat)
    requires cfg.Valid() && n >= 1
    requires var p := BuildModelProfile(cfg, d, kind); p.weightsMb + p.kvMb + p.overheadMb <= n * cfg.Granule()
    ensures BuildModelProfile(cfg, d, kind).tokenCost <= n
  {
    hide CeilDiv;
    CeilDivLeast(BuildModelProfile(cfg, d, kind).totalMb, cfg.Granule(), n);
  }
}
