/** The backup aggregator: for one datacenter, the backup hosts that posted
    a document during the last 24 hours, the sum over them of each host's
    average of five volume fields, and the share of the volume in use. */
module TotalBackups {
  import opened Results
  import opened Numbers
  import opened Records
  import opened Store

  /** The document type of the backup hosts. */
  const BackupKind := "backuphost"

  // ---------------------------------------------------------- host list

  /** The search of request_bc_host_in_dc. */
  function DcQuery(dc: string): Query
  {
    HostsQuery(BackupKind, "datacenter", dc)
  }

  /** request_bc_host_in_dc: the name of every hit, each once. */
  function DcHosts(search: Search, dc: string): (r: Result<seq<Value>>)
    ensures search(DcQuery(dc)).Fail? ==> r.Fail? && r.error == search(DcQuery(dc)).error
    ensures r.Ok? ==> search(DcQuery(dc)).Ok?
    ensures r.Ok? ==> NoDuplicates(r.value)
    ensures r.Ok? ==> var hits := search(DcQuery(dc)).value;
      forall v :: v in r.value <==> exists i :: 0 <= i < |hits| && "name" in hits[i] && hits[i]["name"] == v
  {
    var hits :- search(DcQuery(dc));
    HostList(hits)
  }

  /** request_bc_host_in_dc. */
  method RequestBcHostInDc(search: Search, dc: string) returns (r: Result<seq<Value>>)
    ensures r == DcHosts(search, dc)
  {
    var hits := RequestFilter(search, [Term("_type", Str(BackupKind)), Term("datacenter", Str(dc))]);
    if hits.Fail? {
      return Fail(hits.error);
    }
    r := HostNames(hits.value);
  }

  /** Against a store holding `docs`, the datacenter's hosts are the names
      of the backup host documents of that datacenter posted during the
      last 24 hours, provided those documents fit in one page of hits. */
  lemma {:induction false} DcHostsOfIndex(docs: seq<Doc>, dc: string, v: Value)
    requires |Matching(docs, DcQuery(dc))| <= PageSize
    requires forall d :: d in docs && Matches(d, DcQuery(dc)) ==> "name" in d.source
    ensures DcHosts(Index(docs), dc).Ok?
    ensures v in DcHosts(Index(docs), dc).value <==>
      exists d :: d in docs && d.kind == BackupKind && d.age < 24.0
                  && "datacenter" in d.source && d.source["datacenter"] == Str(dc)
                  && "name" in d.source && d.source["name"] == v
  {
    HostsOfIndex(docs, BackupKind, "datacenter", dc, v);
  }

  // --------------------------------------------------------------- sums

  /** sum_by_dc: the sum over the datacenter's hosts of each host's average of `field`. */
  function DcSum(search: Search, dc: string, field: string): (r: Result<real>)
    ensures DcHosts(search, dc) == Ok([]) ==> r == Ok(0.0)
    ensures DcHosts(search, dc).Fail? ==> r.Fail?
  {
    var hosts :- DcHosts(search, dc);
    SumOfMeans(search, BackupKind, hosts, field)
  }

  /** sum_by_dc, which asks the store for the host list again on every call. */
  method SumByDc(search: Search, dc: string, field: string) returns (r: Result<real>)
    ensures r == DcSum(search, dc, field)
  {
    var hosts := RequestBcHostInDc(search, dc);
    if hosts.Fail? {
      return Fail(hosts.error);
    }
    r := SumOfAverages(search, BackupKind, hosts.value, field);
  }

  /** The five sums of send_sums_by_dc. */
  datatype Volumes = Volumes(logUsed: real, logFree: real, used: real, free: real, total: real)

  /** The five sums in the order send_sums_by_dc asks for them. */
  function DcVolumes(search: Search, dc: string): (r: Result<Volumes>)
    ensures r.Ok? ==> DcSum(search, dc, "volumeLogUsed") == Ok(r.value.logUsed)
    ensures r.Ok? ==> DcSum(search, dc, "volumeLogFree") == Ok(r.value.logFree)
    ensures r.Ok? ==> DcSum(search, dc, "volumeUsed") == Ok(r.value.used)
    ensures r.Ok? ==> DcSum(search, dc, "volumeFree") == Ok(r.value.free)
    ensures r.Ok? ==> DcSum(search, dc, "volumeTotal") == Ok(r.value.total)
    ensures DcHosts(search, dc) == Ok([]) ==> r == Ok(Volumes(0.0, 0.0, 0.0, 0.0, 0.0))
  {
    var logUsed :- DcSum(search, dc, "volumeLogUsed");
    var logFree :- DcSum(search, dc, "volumeLogFree");
    var used :- DcSum(search, dc, "volumeUsed");
    var free :- DcSum(search, dc, "volumeFree");
    var total :- DcSum(search, dc, "volumeTotal");
    Ok(Volumes(logUsed, logFree, used, free, total))
  }

  // ------------------------------------------------------------- document

  /** The keys of dc_data without the ratio, `post_date` aside. */
  const VolumeKeys := {"name", "volumeLogUsed", "volumeLogFree", "volumeUsed", "volumeFree", "volumeTotal"}

  /** dc_data once the five sums are in: `volumeRatio`, the share of the
      volume in use in percent, only when the total is above zero. */
  function VolumesDoc(dc: string, t: Volumes): (d: Record)
    ensures d.Keys == if t.total > 0.0 then VolumeKeys + {"volumeRatio"} else VolumeKeys
    ensures d["name"] == Str(dc)
    ensures d["volumeLogUsed"] == Num(t.logUsed) && d["volumeLogFree"] == Num(t.logFree)
    ensures d["volumeUsed"] == Num(t.used) && d["volumeFree"] == Num(t.free)
    ensures d["volumeTotal"] == Num(t.total)
    ensures t.total > 0.0 ==> d["volumeRatio"] == Num(t.used / t.total * 100.0)
  {
    var d := map["name" := Str(dc)]
      ["volumeLogUsed" := Num(t.logUsed)]
      ["volumeLogFree" := Num(t.logFree)]
      ["volumeUsed" := Num(t.used)]
      ["volumeFree" := Num(t.free)]
      ["volumeTotal" := Num(t.total)];
    if t.total <= 0.0 then d else d["volumeRatio" := Num(t.used / t.total * 100.0)]
  }

  /** send_sums_by_dc, up to the document it posts (`post_date` aside). */
  function DcDoc(search: Search, dc: string): (r: Result<Record>)
    ensures r.Ok? <==> DcVolumes(search, dc).Ok?
    ensures r.Ok? ==> "name" in r.value && r.value["name"] == Str(dc)
  {
    var t :- DcVolumes(search, dc);
    Ok(VolumesDoc(dc, t))
  }

  /** send_sums_by_dc, up to the document it posts: the five sums, then
      dc_data. */
  method SendSumsByDc(search: Search, dc: string) returns (r: Result<Record>)
    ensures r == DcDoc(search, dc)
  {
    var logUsed :- SumByDc(search, dc, "volumeLogUsed");
    var logFree :- SumByDc(search, dc, "volumeLogFree");
    var used :- SumByDc(search, dc, "volumeUsed");
    var free :- SumByDc(search, dc, "volumeFree");
    var total :- SumByDc(search, dc, "volumeTotal");
    var t := Volumes(logUsed, logFree, used, free, total);
    assert DcVolumes(search, dc) == Ok(t);
    var dcData := FillDcData(dc, t);
    return Ok(dcData);
  }

  /** Lines 117-130: dc_data filled field by field, then the guarded ratio. */
  method FillDcData(dc: string, t: Volumes) returns (d: Record)
    ensures d == VolumesDoc(dc, t)
  {
    d := map["name" := Str(dc)];
    d := d["volumeLogUsed" := Num(t.logUsed)];
    d := d["volumeLogFree" := Num(t.logFree)];
    d := d["volumeUsed" := Num(t.used)];
    d := d["volumeFree" := Num(t.free)];
    d := d["volumeTotal" := Num(t.total)];
    if t.total > 0.0 {
      d := d["volumeRatio" := Num(t.used / t.total * 100.0)];
    }
  }

  // ------------------------------------------------------------ properties

  /** Every datacenter's hosts come back from the store. */
  ghost predicate HostsAnswered(search: Search, dc: string)
  {
    DcHosts(search, dc).Ok? &&
    forall i :: 0 <= i < |DcHosts(search, dc).value| ==>
      search(ByName(BackupKind, DcHosts(search, dc).value[i])).Ok?
  }

  /** When every backup host document's total volume is its used plus its
      free volume, the datacenter's sums keep that relation. */
  lemma {:induction false} DcVolumesAddUp(search: Search, dc: string)
    requires AnswersAddUp(search, "volumeUsed", "volumeFree", "volumeTotal")
    requires HostsAnswered(search, dc)
    ensures DcSum(search, dc, "volumeUsed").Ok? && DcSum(search, dc, "volumeFree").Ok?
    ensures DcSum(search, dc, "volumeTotal").Ok?
    ensures DcSum(search, dc, "volumeTotal").value ==
      DcSum(search, dc, "volumeUsed").value + DcSum(search, dc, "volumeFree").value
  {
    var hosts := DcHosts(search, dc).value;
    SumOfMeansAddsUp(search, BackupKind, hosts, "volumeUsed", "volumeFree", "volumeTotal");
  }

  /** A datacenter whose sums all came back had every host answer. */
  lemma {:induction false} SumAnswered(search: Search, dc: string, field: string)
    requires DcSum(search, dc, field).Ok?
    ensures HostsAnswered(search, dc)
  {
    var hosts := DcHosts(search, dc).value;
    CollectEach(HostMeanOf(search, BackupKind, field), hosts);
    forall i | 0 <= i < |hosts| ensures search(ByName(BackupKind, hosts[i])).Ok? {
      assert HostMean(search, BackupKind, hosts[i], field).Ok?;
    }
  }

  /** The used share of a total that is used plus free, both at least zero,
      is a percentage. */
  lemma {:induction false} UsedShareIsPercent(t: Volumes)
    requires t.total == t.used + t.free && t.used >= 0.0 && t.free >= 0.0 && t.total > 0.0
    ensures 0.0 <= t.used / t.total * 100.0 <= 100.0
  {
    PercentAtMostHundred(t.used, t.total);
    assert (t.used / t.total) * t.total == t.used;
  }

  /** With totals that add up and volumes at least zero, the published
      ratio is a percentage: between 0 and 100. */
  lemma {:induction false} VolumeRatioIsPercent(search: Search, dc: string)
    requires AnswersAddUp(search, "volumeUsed", "volumeFree", "volumeTotal")
    requires AnswersNonNegative(search, "volumeUsed") && AnswersNonNegative(search, "volumeFree")
    requires DcVolumes(search, dc).Ok?
    ensures var t := DcVolumes(search, dc).value;
      t.total == t.used + t.free && (t.total > 0.0 ==> 0.0 <= t.used / t.total * 100.0 <= 100.0)
  {
    var t := DcVolumes(search, dc).value;
    var hosts := DcHosts(search, dc).value;
    SumAnswered(search, dc, "volumeUsed");
    DcVolumesAddUp(search, dc);
    SumOfMeansNonNegative(search, BackupKind, hosts, "volumeUsed");
    SumOfMeansNonNegative(search, BackupKind, hosts, "volumeFree");
    if t.total > 0.0 {
      UsedShareIsPercent(t);
    }
  }

  /** No backup host reported in the datacenter: every sum is 0.0 and the
      document carries no ratio. */
  lemma {:induction false} EmptyDcHasNoRatio(search: Search, dc: string)
    requires DcHosts(search, dc) == Ok([])
    ensures DcDoc(search, dc) == Ok(map["name" := Str(dc), "volumeLogUsed" := Num(0.0), "volumeLogFree" := Num(0.0),
                                        "volumeUsed" := Num(0.0), "volumeFree" := Num(0.0), "volumeTotal" := Num(0.0)])
  {
    var d := VolumesDoc(dc, Volumes(0.0, 0.0, 0.0, 0.0, 0.0));
    var e := map["name" := Str(dc), "volumeLogUsed" := Num(0.0), "volumeLogFree" := Num(0.0),
                 "volumeUsed" := Num(0.0), "volumeFree" := Num(0.0), "volumeTotal" := Num(0.0)];
    assert d.Keys == e.Keys;
  }

  /** 30 TB used of 120 TB: a ratio of 25%. */
  lemma {:induction false} VolumeRatioExample(dc: string)
    ensures VolumesDoc(dc, Volumes(1.0, 2.0, 30.0, 90.0, 120.0))["volumeRatio"] == Num(25.0)
  {
    assert 30.0 / 120.0 * 100.0 == 25.0;
  }
}
