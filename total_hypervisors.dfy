/** The cluster aggregator: for one cluster, the hypervisors that posted a
    document during the last 24 hours, the sum over them of each host's
    average of eight capacity fields, the RAM and CPU ratios recomputed
    from those sums, and how many VMs of each configured type still fit. */
module TotalHypervisors {
  import opened Results
  import opened Numbers
  import opened Records
  import opened Store

  /** The settings read at start-up: the type of the hypervisor documents,
      float() of the two overcommit percentages, and the VM types, each a
      configuration object with `type`, `cpu` and `ram`. */
  datatype Settings = Settings(hvIndex: string, cpuOvercommit: real, ramOvercommit: real, vmTypes: seq<Record>)

  // ---------------------------------------------------------- host list

  /** The search of request_hosts_in_cluster. */
  function ClusterQuery(hvIndex: string, cluster: string): Query
  {
    HostsQuery(hvIndex, "cluster", cluster)
  }

  /** request_hosts_in_cluster: the name of every hit, each once. */
  function ClusterHosts(search: Search, hvIndex: string, cluster: string): (r: Result<seq<Value>>)
    ensures search(ClusterQuery(hvIndex, cluster)).Fail? ==> r.Fail? && r.error == search(ClusterQuery(hvIndex, cluster)).error
    ensures r.Ok? ==> search(ClusterQuery(hvIndex, cluster)).Ok?
    ensures r.Ok? ==> NoDuplicates(r.value)
    ensures r.Ok? ==> var hits := search(ClusterQuery(hvIndex, cluster)).value;
      forall v :: v in r.value <==> exists i :: 0 <= i < |hits| && "name" in hits[i] && hits[i]["name"] == v
  {
    var hits :- search(ClusterQuery(hvIndex, cluster));
    HostList(hits)
  }

  /** request_hosts_in_cluster. */
  method RequestHostsInCluster(search: Search, hvIndex: string, cluster: string) returns (r: Result<seq<Value>>)
    ensures r == ClusterHosts(search, hvIndex, cluster)
  {
    var hits := RequestFilter(search, [Term("_type", Str(hvIndex)), Term("cluster", Str(cluster))]);
    if hits.Fail? {
      return Fail(hits.error);
    }
    r := HostNames(hits.value);
  }

  /** Against a store holding `docs`, the cluster's hosts are the names of
      the hypervisor documents of that cluster posted during the last 24
      hours, provided those documents fit in one page of hits. */
  lemma {:induction false} ClusterHostsOfIndex(docs: seq<Doc>, hvIndex: string, cluster: string, v: Value)
    requires |Matching(docs, ClusterQuery(hvIndex, cluster))| <= PageSize
    requires forall d :: d in docs && Matches(d, ClusterQuery(hvIndex, cluster)) ==> "name" in d.source
    ensures ClusterHosts(Index(docs), hvIndex, cluster).Ok?
    ensures v in ClusterHosts(Index(docs), hvIndex, cluster).value <==>
      exists d :: d in docs && d.kind == hvIndex && d.age < 24.0
                  && "cluster" in d.source && d.source["cluster"] == Str(cluster)
                  && "name" in d.source && d.source["name"] == v
  {
    HostsOfIndex(docs, hvIndex, "cluster", cluster, v);
  }

  // --------------------------------------------------------------- sums

  /** sum_by_cluster: the sum over the cluster's hosts of each host's average of `field`. */
  function ClusterSum(search: Search, hvIndex: string, cluster: string, field: string): (r: Result<real>)
    ensures ClusterHosts(search, hvIndex, cluster) == Ok([]) ==> r == Ok(0.0)
    ensures ClusterHosts(search, hvIndex, cluster).Fail? ==> r.Fail?
  {
    var hosts :- ClusterHosts(search, hvIndex, cluster);
    SumOfMeans(search, hvIndex, hosts, field)
  }

  /** sum_by_cluster, which asks the store for the host list again on every call. */
  method SumByCluster(search: Search, hvIndex: string, cluster: string, field: string) returns (r: Result<real>)
    ensures r == ClusterSum(search, hvIndex, cluster, field)
  {
    var hosts := RequestHostsInCluster(search, hvIndex, cluster);
    if hosts.Fail? {
      return Fail(hosts.error);
    }
    r := SumOfAverages(search, hvIndex, hosts.value, field);
  }

  /** The eight sums of send_sums_by_cluster. */
  datatype Sums = Sums(pRAMfree: real, pRAMtotal: real, pRAMused: real, vRAMfree: real,
                       vRAMallocated: real, pCPU: real, vCPUfree: real, vCPUallocated: real)

  /** The eight sums in the order send_sums_by_cluster asks for them. */
  function ClusterSums(search: Search, hvIndex: string, cluster: string): (r: Result<Sums>)
    ensures r.Ok? ==> ClusterSum(search, hvIndex, cluster, "pRAMfree") == Ok(r.value.pRAMfree)
    ensures r.Ok? ==> ClusterSum(search, hvIndex, cluster, "pRAMtotal") == Ok(r.value.pRAMtotal)
    ensures r.Ok? ==> ClusterSum(search, hvIndex, cluster, "pRAMused") == Ok(r.value.pRAMused)
    ensures r.Ok? ==> ClusterSum(search, hvIndex, cluster, "vRAMfree") == Ok(r.value.vRAMfree)
    ensures r.Ok? ==> ClusterSum(search, hvIndex, cluster, "vRAMallocated") == Ok(r.value.vRAMallocated)
    ensures r.Ok? ==> ClusterSum(search, hvIndex, cluster, "pCPU") == Ok(r.value.pCPU)
    ensures r.Ok? ==> ClusterSum(search, hvIndex, cluster, "vCPUfree") == Ok(r.value.vCPUfree)
    ensures r.Ok? ==> ClusterSum(search, hvIndex, cluster, "vCPUallocated") == Ok(r.value.vCPUallocated)
  {
    var pRAMfree :- ClusterSum(search, hvIndex, cluster, "pRAMfree");
    var pRAMtotal :- ClusterSum(search, hvIndex, cluster, "pRAMtotal");
    var pRAMused :- ClusterSum(search, hvIndex, cluster, "pRAMused");
    var vRAMfree :- ClusterSum(search, hvIndex, cluster, "vRAMfree");
    var vRAMallocated :- ClusterSum(search, hvIndex, cluster, "vRAMallocated");
    var pCPU :- ClusterSum(search, hvIndex, cluster, "pCPU");
    var vCPUfree :- ClusterSum(search, hvIndex, cluster, "vCPUfree");
    var vCPUallocated :- ClusterSum(search, hvIndex, cluster, "vCPUallocated");
    Ok(Sums(pRAMfree, pRAMtotal, pRAMused, vRAMfree, vRAMallocated, pCPU, vCPUfree, vCPUallocated))
  }

  // ------------------------------------------------------------- ratios

  /** `inUse / (capacity * overcommit/100) * 100`: the share of the
      overcommitted capacity that is allocated, in percent; ZeroDivisionError
      when the overcommit percentage is 0. */
  function OvercommitShare(inUse: real, capacity: real, overcommit: real): (r: Result<real>)
    requires capacity > 0.0
    ensures r.Ok? <==> overcommit != 0.0
    ensures r.Fail? ==> r.error == DivisionByZero
  {
    var limit := capacity * (overcommit / 100.0);
    if limit == 0.0 then Fail(DivisionByZero) else Ok(inUse / limit * 100.0)
  }

  /** The share is at most 100% exactly when the allocation fits within the
      overcommitted capacity. */
  lemma {:induction false} OvercommitShareAtMostHundred(inUse: real, capacity: real, overcommit: real)
    requires capacity > 0.0 && overcommit > 0.0
    ensures OvercommitShare(inUse, capacity, overcommit).Ok?
    ensures OvercommitShare(inUse, capacity, overcommit).value <= 100.0 <==>
      inUse <= capacity * (overcommit / 100.0)
  {
    PercentAtMostHundred(inUse, capacity * (overcommit / 100.0));
  }

  predicate RamGuard(t: Sums) { t.pRAMtotal > 0.0 && t.vRAMallocated > 0.0 }

  predicate CpuGuard(t: Sums) { t.pCPU > 0.0 && t.vCPUallocated > 0.0 }

  /** cluster_data once the eight sums are in and the two guarded ratios
      are set: `RAMratio` only when memory is both present and allocated,
      and then `pRAMtotal` forced to 0.0 otherwise; `CPUratio` always, 0.0
      when the processors are absent or unallocated. */
  function SumsDoc(cluster: string, t: Sums, cpuOvercommit: real, ramOvercommit: real): (r: Result<Record>)
    ensures r.Fail? <==> (RamGuard(t) && ramOvercommit == 0.0) || (CpuGuard(t) && cpuOvercommit == 0.0)
    ensures r.Fail? ==> r.error == DivisionByZero
    ensures r.Ok? ==> ("RAMratio" in r.value <==> RamGuard(t))
    ensures r.Ok? && RamGuard(t) ==>
      r.value["RAMratio"] == Num(OvercommitShare(t.vRAMallocated, t.pRAMtotal, ramOvercommit).value)
    ensures r.Ok? ==> "pRAMtotal" in r.value && r.value["pRAMtotal"] == Num(if RamGuard(t) then t.pRAMtotal else 0.0)
    ensures r.Ok? ==> "CPUratio" in r.value
    ensures r.Ok? ==> r.value["CPUratio"] ==
                      Num(if CpuGuard(t) then OvercommitShare(t.vCPUallocated, t.pCPU, cpuOvercommit).value else 0.0)
    ensures r.Ok? ==> r.value.Keys == SumsKeys + {"CPUratio"} + (if RamGuard(t) then {"RAMratio"} else {})
    ensures r.Ok? ==> r.value["name"] == Str(cluster)
    ensures r.Ok? ==> r.value["pRAMfree"] == Num(t.pRAMfree) && r.value["pRAMused"] == Num(t.pRAMused)
    ensures r.Ok? ==> r.value["vRAMfree"] == Num(t.vRAMfree) && r.value["vRAMallocated"] == Num(t.vRAMallocated)
    ensures r.Ok? ==> r.value["pCPU"] == Num(t.pCPU)
    ensures r.Ok? ==> r.value["vCPUfree"] == Num(t.vCPUfree) && r.value["vCPUallocated"] == Num(t.vCPUallocated)
    ensures r.Ok? ==> forall k :: k in r.value ==> !(RemainingPrefix <= k)
  {
    var d := SumsRecord(cluster, t);
    var withRam :- RamRatioStep(d, t, ramOvercommit);
    CpuRatioStep(withRam, t, cpuOvercommit)
  }

  /** The fields of cluster_data before the ratios: the name and the eight sums. */
  const SumsKeys: set<string> := {"name", "pRAMfree", "pRAMtotal", "pRAMused", "vRAMfree",
                                  "vRAMallocated", "pCPU", "vCPUfree", "vCPUallocated"}

  /** cluster_data with the eight sums, before the ratios. */
  function SumsRecord(cluster: string, t: Sums): (d: Record)
    ensures d.Keys == SumsKeys
    ensures d["name"] == Str(cluster)
    ensures d["pRAMfree"] == Num(t.pRAMfree) && d["pRAMtotal"] == Num(t.pRAMtotal)
    ensures d["pRAMused"] == Num(t.pRAMused)
    ensures d["vRAMfree"] == Num(t.vRAMfree) && d["vRAMallocated"] == Num(t.vRAMallocated)
    ensures d["pCPU"] == Num(t.pCPU)
    ensures d["vCPUfree"] == Num(t.vCPUfree) && d["vCPUallocated"] == Num(t.vCPUallocated)
    ensures "RAMratio" !in d && "CPUratio" !in d
    ensures forall k :: k in d ==> !(RemainingPrefix <= k)
  {
    map["name" := Str(cluster)]
      ["pRAMfree" := Num(t.pRAMfree)]
      ["pRAMtotal" := Num(t.pRAMtotal)]
      ["pRAMused" := Num(t.pRAMused)]
      ["vRAMfree" := Num(t.vRAMfree)]
      ["vRAMallocated" := Num(t.vRAMallocated)]
      ["pCPU" := Num(t.pCPU)]
      ["vCPUfree" := Num(t.vCPUfree)]
      ["vCPUallocated" := Num(t.vCPUallocated)]
  }

  /** Lines 143-149: `RAMratio` when memory is present and allocated, otherwise `pRAMtotal` set to 0.0. */
  function RamRatioStep(d: Record, t: Sums, ramOvercommit: real): (r: Result<Record>)
  {
    if RamGuard(t) then
      var ratio :- OvercommitShare(t.vRAMallocated, t.pRAMtotal, ramOvercommit);
      Ok(d["RAMratio" := Num(ratio)])
    else
      Ok(d["pRAMtotal" := Num(0.0)])
  }

  /** Lines 151-157: `CPUratio`, 0.0 when the processors are absent or unallocated. */
  function CpuRatioStep(d: Record, t: Sums, cpuOvercommit: real): (r: Result<Record>)
  {
    if CpuGuard(t) then
      var ratio :- OvercommitShare(t.vCPUallocated, t.pCPU, cpuOvercommit);
      Ok(d["CPUratio" := Num(ratio)])
    else
      Ok(d["CPUratio" := Num(0.0)])
  }

  /** Two hosts with 64 GiB each, 32 and 48 GiB inUse, at a 150% RAM
      overcommit: 128 GiB and 80 GiB for the cluster, 41.67% of the
      overcommitted memory in use; with no processors reported the CPU
      ratio is 0.0. */
  lemma {:induction false} RamRatioExample(cluster: string)
    ensures var d := SumsDoc(cluster, Sums(0.0, 128.0, 0.0, 0.0, 80.0, 0.0, 0.0, 0.0), 200.0, 150.0);
      d.Ok? && d.value["RAMratio"] == Num(125.0 / 3.0) && d.value["CPUratio"] == Num(0.0)
      && d.value["pRAMtotal"] == Num(128.0)
  {
    assert 80.0 / (128.0 * (150.0 / 100.0)) * 100.0 == 125.0 / 3.0;
  }

  // ------------------------------------------------- remaining VMs per type

  const RemainingPrefix := "remaining_vm_type_"

  /** What one VM type leaves room for: its document key and how many VMs of
      the type the free processors and the free memory each allow. */
  datatype Fit = Fit(key: string, forCpu: real, forRam: real)

  /** A VM type is counted when it has a `type`, a string, and int() of its
      `cpu` and of its `ram` are both positive. */
  predicate Counted(vmType: Record)
  {
    && "type" in vmType && vmType["type"].Str?
    && "cpu" in vmType && IntOf(vmType["cpu"]).Ok? && IntOf(vmType["cpu"]).value > 0
    && "ram" in vmType && IntOf(vmType["ram"]).Ok? && IntOf(vmType["ram"]).value > 0
  }

  /** The key of a counted VM type. */
  function KeyOf(vmType: Record): string
    requires "type" in vmType && vmType["type"].Str?
  {
    RemainingPrefix + vmType["type"].s
  }

  /** One pass of the loop over VMS_TYPE: nothing for an entry without
      `type` or without positive `cpu` and `ram`; otherwise its key and
      `int(vCPUfree) / cpu` and `int(vRAMfree) / ram`, with true division.
      KeyError for a missing `cpu` or `ram`, ValueError or TypeError from
      int(), and TypeError when `type` is not a string. */
  function VmTypeFit(vCPUfree: real, vRAMfree: real, vmType: Record): (r: Result<Option<Fit>>)
    ensures "type" !in vmType ==> r == Ok(None)
    ensures (r.Ok? && r.value.Some?) <==> Counted(vmType)
    ensures Counted(vmType) ==> r.value.value == Fit(KeyOf(vmType),
      Trunc(vCPUfree) as real / IntOf(vmType["cpu"]).value as real,
      Trunc(vRAMfree) as real / IntOf(vmType["ram"]).value as real)
  {
    if "type" !in vmType then Ok(None)
    else
      var cpuValue :- Get(vmType, "cpu");
      var cpu :- IntOf(cpuValue);
      if cpu <= 0 then Ok(None)
      else
        var ramValue :- Get(vmType, "ram");
        var ram :- IntOf(ramValue);
        if ram <= 0 then Ok(None)
        else
          var forCpu := Trunc(vCPUfree) as real / cpu as real;
          var forRam := Trunc(vRAMfree) as real / ram as real;
          match vmType["type"]
          case Str(s) => Ok(Some(Fit(RemainingPrefix + s, forCpu, forRam)))
          case _ => Fail(TypeMismatch)
  }

  function Max(x: real, y: real): real { if x >= y then x else y }

  function Min(x: real, y: real): real { if x <= y then x else y }

  /** The figure line 167 publishes: the larger of the two counts. */
  function RemainingAsWritten(f: Fit): (n: real)
    ensures n >= f.forCpu && n >= f.forRam
    ensures n == f.forCpu || n == f.forRam
  {
    Max(f.forCpu, f.forRam)
  }

  /** How many VMs of the type fit: the smaller of the two counts, since a
      VM needs both its processors and its memory. */
  function Remaining(f: Fit): (n: real)
    ensures n <= f.forCpu && n <= f.forRam
    ensures n == f.forCpu || n == f.forRam
  {
    Min(f.forCpu, f.forRam)
  }

  /** The corrected count of VMs fits in both the free processors and the
      free memory: with the quotients VmTypeFit computes from int() of the
      free figures and of the type's `cpu` and `ram`, that many VMs of the
      type need no more than what is free. */
  lemma {:induction false} RemainingFits(f: Fit, freeCpu: int, freeRam: int, cpu: int, ram: int)
    requires cpu > 0 && ram > 0
    requires f.forCpu == freeCpu as real / cpu as real && f.forRam == freeRam as real / ram as real
    ensures Remaining(f) * cpu as real <= freeCpu as real
    ensures Remaining(f) * ram as real <= freeRam as real
  {
    var a, b, c, m := freeCpu as real, freeRam as real, cpu as real, ram as real;
    assert (a / c) * c == a && (b / m) * m == b;
    assert Remaining(f) * c <= f.forCpu * c;
    assert Remaining(f) * m <= f.forRam * m;
  }

  /** 100 free processors and no free memory, for a type of 2 processors and
      4 GiB: the code reports room for 50 VMs, which would need 200 GiB of
      memory; the corrected count is 0. */
  lemma {:induction false} RemainingAsWrittenOverstates()
    ensures var t := map["type" := Str("small"), "cpu" := Num(2.0), "ram" := Num(4.0)];
      var f := VmTypeFit(100.0, 0.0, t);
      && f == Ok(Some(Fit(RemainingPrefix + "small", 50.0, 0.0)))
      && RemainingAsWritten(f.value.value) == 50.0
      && RemainingAsWritten(f.value.value) * 4.0 > 0.0
      && Remaining(f.value.value) == 0.0
  {
    var t := map["type" := Str("small"), "cpu" := Num(2.0), "ram" := Num(4.0)];
    TruncWhole(2);
    TruncWhole(4);
    TruncWhole(100);
    TruncWhole(0);
    assert Counted(t);
  }

  /** Which count a run publishes for a VM type: the larger one, as lines
      166-167 are written, or the smaller one, the number that fits. */
  datatype Rule = AsWritten | Corrected

  function Count(rule: Rule, f: Fit): real
  {
    match rule
    case AsWritten => RemainingAsWritten(f)
    case Corrected => Remaining(f)
  }

  /** A counted VM type that no later counted entry of the same type replaces. */
  predicate LastOfKey(vmTypes: seq<Record>, i: int)
    requires 0 <= i < |vmTypes|
  {
    Counted(vmTypes[i]) &&
    forall j :: i < j < |vmTypes| && Counted(vmTypes[j]) ==> KeyOf(vmTypes[j]) != KeyOf(vmTypes[i])
  }

  /** The keys of the counted VM types. */
  function CountedKeys(vmTypes: seq<Record>): set<string>
  {
    set i | 0 <= i < |vmTypes| && Counted(vmTypes[i]) :: KeyOf(vmTypes[i])
  }

  lemma {:induction false} CountedKeysLast(vmTypes: seq<Record>)
    requires vmTypes != []
    ensures var last := vmTypes[|vmTypes| - 1];
      CountedKeys(vmTypes) == CountedKeys(vmTypes[..|vmTypes| - 1]) + (if Counted(last) then {KeyOf(last)} else {})
  {
    var init := vmTypes[..|vmTypes| - 1];
    forall i | 0 <= i < |init| ensures init[i] == vmTypes[i] {}
  }

  /** The loop over VMS_TYPE: every counted type sets its key to its count
      under `rule`, a later entry of the same type replacing an earlier one;
      nothing else in the document changes. */
  function WithRemaining(d: Record, vCPUfree: real, vRAMfree: real, vmTypes: seq<Record>, rule: Rule): (r: Result<Record>)
    ensures r.Ok? ==> forall k :: k in d && !(RemainingPrefix <= k) ==> k in r.value && r.value[k] == d[k]
  {
    if vmTypes == [] then Ok(d)
    else
      var init, last := vmTypes[..|vmTypes| - 1], vmTypes[|vmTypes| - 1];
      var front :- WithRemaining(d, vCPUfree, vRAMfree, init, rule);
      assert forall i :: 0 <= i < |init| ==> vmTypes[i] == init[i];
      var fit :- VmTypeFit(vCPUfree, vRAMfree, last);
      if fit.None? then Ok(front)
      else
        assert RemainingPrefix <= fit.value.key;
        Ok(front[fit.value.key := Num(Count(rule, fit.value))])
  }

  /** Every counted key starts with `remaining_vm_type_`. */
  lemma {:induction false} CountedKeysPrefixed(vmTypes: seq<Record>)
    ensures forall k :: k in CountedKeys(vmTypes) ==> RemainingPrefix <= k
  {
    forall k | k in CountedKeys(vmTypes) ensures RemainingPrefix <= k {
      var i :| 0 <= i < |vmTypes| && Counted(vmTypes[i]) && k == KeyOf(vmTypes[i]);
    }
  }

  /** The loop adds exactly the keys of the counted VM types. */
  lemma {:induction false} WithRemainingKeys(d: Record, vCPUfree: real, vRAMfree: real, vmTypes: seq<Record>, rule: Rule)
    requires WithRemaining(d, vCPUfree, vRAMfree, vmTypes, rule).Ok?
    ensures WithRemaining(d, vCPUfree, vRAMfree, vmTypes, rule).value.Keys == d.Keys + CountedKeys(vmTypes)
    decreases |vmTypes|
  {
    if vmTypes != [] {
      var init := vmTypes[..|vmTypes| - 1];
      WithRemainingKeys(d, vCPUfree, vRAMfree, init, rule);
      CountedKeysLast(vmTypes);
    }
  }

  /** The value the loop leaves under a type's key: the count, under `rule`,
      of the last counted entry of that type. */
  lemma {:induction false} WithRemainingValue(d: Record, vCPUfree: real, vRAMfree: real, vmTypes: seq<Record>,
                                              rule: Rule, i: int)
    requires WithRemaining(d, vCPUfree, vRAMfree, vmTypes, rule).Ok?
    requires 0 <= i < |vmTypes| && LastOfKey(vmTypes, i)
    ensures var r := WithRemaining(d, vCPUfree, vRAMfree, vmTypes, rule).value;
      KeyOf(vmTypes[i]) in r &&
      r[KeyOf(vmTypes[i])] == Num(Count(rule, VmTypeFit(vCPUfree, vRAMfree, vmTypes[i]).value.value))
    decreases |vmTypes|
  {
    var n := |vmTypes| - 1;
    var init := vmTypes[..n];
    var fit := VmTypeFit(vCPUfree, vRAMfree, vmTypes[n]);
    assert vmTypes[n] == vmTypes[|vmTypes| - 1];
    if i < n {
      forall j | i < j < |init| && Counted(init[j]) ensures KeyOf(init[j]) != KeyOf(init[i]) {
        assert init[j] == vmTypes[j];
      }
      assert LastOfKey(init, i);
      WithRemainingValue(d, vCPUfree, vRAMfree, init, rule, i);
      if Counted(vmTypes[n]) {
        assert KeyOf(vmTypes[n]) != KeyOf(vmTypes[i]);
      }
    }
  }

  /** A single counted VM type gets its count and changes nothing else. */
  lemma {:induction false} OneVmType(d: Record, vCPUfree: real, vRAMfree: real, vmType: Record, rule: Rule)
    requires Counted(vmType)
    ensures WithRemaining(d, vCPUfree, vRAMfree, [vmType], rule) ==
      Ok(d[KeyOf(vmType) := Num(Count(rule, VmTypeFit(vCPUfree, vRAMfree, vmType).value.value))])
  {
    assert [vmType][..0] == [];
  }

  /** The document the code posts and the corrected one fail together, hold
      the same keys and differ only at VM-type keys, where the posted count
      is never below the corrected one. */
  lemma {:induction false} AsWrittenAtLeastCorrected(d: Record, vCPUfree: real, vRAMfree: real, vmTypes: seq<Record>)
    ensures var a := WithRemaining(d, vCPUfree, vRAMfree, vmTypes, AsWritten);
      var c := WithRemaining(d, vCPUfree, vRAMfree, vmTypes, Corrected);
      && (a.Ok? <==> c.Ok?)
      && (a.Ok? ==> a.value.Keys == c.value.Keys)
      && (a.Ok? ==> forall k :: k in c.value && a.value[k] != c.value[k] ==>
            RemainingPrefix <= k && a.value[k].Num? && c.value[k].Num? && c.value[k].n <= a.value[k].n)
    decreases |vmTypes|
  {
    if vmTypes != [] {
      var init := vmTypes[..|vmTypes| - 1];
      AsWrittenAtLeastCorrected(d, vCPUfree, vRAMfree, init);
    }
  }

  /** The case of `RemainingAsWrittenOverstates` in a document: the code
      posts room for 50 VMs where the corrected document says 0. */
  lemma {:induction false} WithRemainingOverstates(d: Record)
    ensures var t := map["type" := Str("small"), "cpu" := Num(2.0), "ram" := Num(4.0)];
      && WithRemaining(d, 100.0, 0.0, [t], AsWritten) == Ok(d[RemainingPrefix + "small" := Num(50.0)])
      && WithRemaining(d, 100.0, 0.0, [t], Corrected) == Ok(d[RemainingPrefix + "small" := Num(0.0)])
  {
    var t := map["type" := Str("small"), "cpu" := Num(2.0), "ram" := Num(4.0)];
    RemainingAsWrittenOverstates();
    assert Counted(t);
    OneVmType(d, 100.0, 0.0, t, AsWritten);
    OneVmType(d, 100.0, 0.0, t, Corrected);
  }

  // ---------------------------------------------------------------- main

  /** send_sums_by_cluster, up to the document it posts (`post_date` aside):
      the eight sums, the guarded ratios, then the remaining VMs per type,
      counted under `rule` (`AsWritten` is the document the code posts). */
  function ClusterDoc(search: Search, s: Settings, cluster: string, rule: Rule): (r: Result<Record>)
    ensures r.Ok? ==> ClusterSums(search, s.hvIndex, cluster).Ok?
    ensures r.Ok? ==> "name" in r.value && r.value["name"] == Str(cluster)
    ensures r.Ok? ==> "CPUratio" in r.value
  {
    var t :- ClusterSums(search, s.hvIndex, cluster);
    var d :- SumsDoc(cluster, t, s.cpuOvercommit, s.ramOvercommit);
    WithRemaining(d, t.vCPUfree, t.vRAMfree, s.vmTypes, rule)
  }

  /** The cluster document's ratios come from the summed fields, not from
      the hosts' own ratios, and no counted VM type is left out. */
  lemma {:induction false} ClusterDocFromSums(search: Search, s: Settings, cluster: string, rule: Rule)
    requires ClusterDoc(search, s, cluster, rule).Ok?
    ensures var t := ClusterSums(search, s.hvIndex, cluster).value;
      var d := ClusterDoc(search, s, cluster, rule).value;
      && ("RAMratio" in d <==> RamGuard(t))
      && (RamGuard(t) ==> d["RAMratio"] == Num(OvercommitShare(t.vRAMallocated, t.pRAMtotal, s.ramOvercommit).value))
      && d["CPUratio"] == Num(if CpuGuard(t) then OvercommitShare(t.vCPUallocated, t.pCPU, s.cpuOvercommit).value else 0.0)
      && d.Keys == SumsKeys + {"CPUratio"} + (if RamGuard(t) then {"RAMratio"} else {}) + CountedKeys(s.vmTypes)
  {
    var t := ClusterSums(search, s.hvIndex, cluster).value;
    var d := SumsDoc(cluster, t, s.cpuOvercommit, s.ramOvercommit).value;
    assert !(RemainingPrefix <= "RAMratio") && !(RemainingPrefix <= "CPUratio");
    WithRemainingKeys(d, t.vCPUfree, t.vRAMfree, s.vmTypes, rule);
    CountedKeysPrefixed(s.vmTypes);
    var r := ClusterDoc(search, s, cluster, rule).value;
    if "RAMratio" in r {
      assert "RAMratio" !in CountedKeys(s.vmTypes);
      assert "RAMratio" in d;
    }
  }

  /** Lines 132-141: cluster_data filled with the eight sums, field by field. */
  method FillSums(cluster: string, t: Sums) returns (clusterData: Record)
    ensures clusterData == SumsRecord(cluster, t)
  {
    clusterData := map["name" := Str(cluster)];
    clusterData := clusterData["pRAMfree" := Num(t.pRAMfree)];
    clusterData := clusterData["pRAMtotal" := Num(t.pRAMtotal)];
    clusterData := clusterData["pRAMused" := Num(t.pRAMused)];
    clusterData := clusterData["vRAMfree" := Num(t.vRAMfree)];
    clusterData := clusterData["vRAMallocated" := Num(t.vRAMallocated)];
    clusterData := clusterData["pCPU" := Num(t.pCPU)];
    clusterData := clusterData["vCPUfree" := Num(t.vCPUfree)];
    clusterData := clusterData["vCPUallocated" := Num(t.vCPUallocated)];
  }

  /** Lines 143-149, updating cluster_data in place. */
  method SetRamRatio(clusterData: Record, t: Sums, ramOvercommit: real) returns (r: Result<Record>)
    ensures r == RamRatioStep(clusterData, t, ramOvercommit)
  {
    if t.pRAMtotal > 0.0 && t.vRAMallocated > 0.0 {
      var limit := t.pRAMtotal * (ramOvercommit / 100.0);
      if limit == 0.0 {
        return Fail(DivisionByZero);
      }
      assert OvercommitShare(t.vRAMallocated, t.pRAMtotal, ramOvercommit).Ok?;
      assert OvercommitShare(t.vRAMallocated, t.pRAMtotal, ramOvercommit).value == t.vRAMallocated / limit * 100.0;
      return Ok(clusterData["RAMratio" := Num(t.vRAMallocated / limit * 100.0)]);
    }
    return Ok(clusterData["pRAMtotal" := Num(0.0)]);
  }

  /** Lines 151-157, updating cluster_data in place. */
  method SetCpuRatio(clusterData: Record, t: Sums, cpuOvercommit: real) returns (r: Result<Record>)
    ensures r == CpuRatioStep(clusterData, t, cpuOvercommit)
  {
    if t.pCPU > 0.0 && t.vCPUallocated > 0.0 {
      var limit := t.pCPU * (cpuOvercommit / 100.0);
      if limit == 0.0 {
        return Fail(DivisionByZero);
      }
      assert OvercommitShare(t.vCPUallocated, t.pCPU, cpuOvercommit).Ok?;
      assert OvercommitShare(t.vCPUallocated, t.pCPU, cpuOvercommit).value == t.vCPUallocated / limit * 100.0;
      return Ok(clusterData["CPUratio" := Num(t.vCPUallocated / limit * 100.0)]);
    }
    return Ok(clusterData["CPUratio" := Num(0.0)]);
  }

  /** Lines 132-157 once the sums are in: cluster_data filled field by
      field, then the two guarded ratios. */
  method FillClusterData(cluster: string, t: Sums, cpuOvercommit: real, ramOvercommit: real) returns (r: Result<Record>)
    ensures r == SumsDoc(cluster, t, cpuOvercommit, ramOvercommit)
  {
    var sums := FillSums(cluster, t);
    var withRam := SetRamRatio(sums, t, ramOvercommit);
    if withRam.Fail? {
      return Fail(withRam.error);
    }
    r := SetCpuRatio(withRam.value, t, cpuOvercommit);
  }

  /** Lines 160-167: the loop over VMS_TYPE. */
  method SetRemaining(sums: Record, vCPUfree: real, vRAMfree: real, vmTypes: seq<Record>, rule: Rule)
    returns (r: Result<Record>)
    ensures r == WithRemaining(sums, vCPUfree, vRAMfree, vmTypes, rule)
  {
    var clusterData := sums;
    for i := 0 to |vmTypes|
      invariant WithRemaining(sums, vCPUfree, vRAMfree, vmTypes[..i], rule) == Ok(clusterData)
    {
      var fit := VmTypeFit(vCPUfree, vRAMfree, vmTypes[i]);
      WithRemainingStep(sums, vCPUfree, vRAMfree, vmTypes, i, rule);
      if fit.Fail? {
        return Fail(fit.error);
      }
      if fit.value.Some? {
        clusterData := clusterData[fit.value.value.key := Num(Count(rule, fit.value.value))];
      }
    }
    assert vmTypes[..|vmTypes|] == vmTypes;
    return Ok(clusterData);
  }

  /** send_sums_by_cluster, up to the document it posts. */
  method SendSumsByCluster(search: Search, s: Settings, cluster: string, rule: Rule) returns (r: Result<Record>)
    ensures r == ClusterDoc(search, s, cluster, rule)
  {
    var pRAMfree :- SumByCluster(search, s.hvIndex, cluster, "pRAMfree");
    var pRAMtotal :- SumByCluster(search, s.hvIndex, cluster, "pRAMtotal");
    var pRAMused :- SumByCluster(search, s.hvIndex, cluster, "pRAMused");
    var vRAMfree :- SumByCluster(search, s.hvIndex, cluster, "vRAMfree");
    var vRAMallocated :- SumByCluster(search, s.hvIndex, cluster, "vRAMallocated");
    var pCPU :- SumByCluster(search, s.hvIndex, cluster, "pCPU");
    var vCPUfree :- SumByCluster(search, s.hvIndex, cluster, "vCPUfree");
    var vCPUallocated :- SumByCluster(search, s.hvIndex, cluster, "vCPUallocated");
    var t := Sums(pRAMfree, pRAMtotal, pRAMused, vRAMfree, vRAMallocated, pCPU, vCPUfree, vCPUallocated);
    assert ClusterSums(search, s.hvIndex, cluster) == Ok(t);
    var clusterData :- FillClusterData(cluster, t, s.cpuOvercommit, s.ramOvercommit);
    r := SetRemaining(clusterData, vCPUfree, vRAMfree, s.vmTypes, rule);
  }

  /** One more VM type: its count is set when it is counted, or its failure ends the loop. */
  lemma {:induction false} WithRemainingStep(d: Record, vCPUfree: real, vRAMfree: real, vmTypes: seq<Record>, i: nat, rule: Rule)
    requires i < |vmTypes| && WithRemaining(d, vCPUfree, vRAMfree, vmTypes[..i], rule).Ok?
    ensures var fit := VmTypeFit(vCPUfree, vRAMfree, vmTypes[i]);
      fit.Fail? ==> WithRemaining(d, vCPUfree, vRAMfree, vmTypes, rule) == Fail(fit.error)
    ensures var fit := VmTypeFit(vCPUfree, vRAMfree, vmTypes[i]);
      var prev := WithRemaining(d, vCPUfree, vRAMfree, vmTypes[..i], rule).value;
      fit.Ok? ==> (WithRemaining(d, vCPUfree, vRAMfree, vmTypes[..i + 1], rule) ==
                   Ok(if fit.value.None? then prev else prev[fit.value.value.key := Num(Count(rule, fit.value.value))]))
  {
    var prefix := vmTypes[..i + 1];
    assert prefix[..i] == vmTypes[..i];
    assert prefix[i] == vmTypes[i];
    if VmTypeFit(vCPUfree, vRAMfree, vmTypes[i]).Fail? {
      WithRemainingFailurePersists(d, vCPUfree, vRAMfree, vmTypes, i + 1, rule);
    }
  }

  lemma {:induction false} WithRemainingFailurePersists(d: Record, vCPUfree: real, vRAMfree: real, vmTypes: seq<Record>, i: nat, rule: Rule)
    requires i <= |vmTypes| && WithRemaining(d, vCPUfree, vRAMfree, vmTypes[..i], rule).Fail?
    ensures WithRemaining(d, vCPUfree, vRAMfree, vmTypes, rule) == WithRemaining(d, vCPUfree, vRAMfree, vmTypes[..i], rule)
    decreases |vmTypes|
  {
    if i < |vmTypes| {
      var init := vmTypes[..|vmTypes| - 1];
      assert init[..i] == vmTypes[..i];
      WithRemainingFailurePersists(d, vCPUfree, vRAMfree, init, i, rule);
    } else {
      assert vmTypes[..i] == vmTypes;
    }
  }
}
