/** The backup-host collector: it reads the size of the `backup` zfs pool, its
    compression ratio and its logical usage from the `zfs` command line, and
    builds one document for the backup host.

    The three command outputs, the host name and the domain are inputs; the
    settings come already read from the configuration file. */
module Backups {
  import opened Results
  import opened Strings
  import opened Numbers
  import opened Records
  import Hypervisors

  // -------------------------------------------------------------- units

  /** `bytes_to_gib`: bytes to whole GiB, truncated toward zero. */
  function BytesToGib(v: real): (r: int)
    ensures v >= 0.0 ==> 0 <= r && r as real * 1073741824.0 <= v < (r as real + 1.0) * 1073741824.0
    ensures v < 0.0 ==> r <= 0 && (r as real - 1.0) * 1073741824.0 < v <= r as real * 1073741824.0
  {
    Trunc(v / 1024.0 / 1024.0 / 1024.0)
  }

  /** More bytes never make fewer GiB. */
  lemma {:induction false} BytesToGibMonotone(v: real, w: real)
    requires v <= w
    ensures BytesToGib(v) <= BytesToGib(w)
  {
    TruncMonotone(v / 1024.0 / 1024.0 / 1024.0, w / 1024.0 / 1024.0 / 1024.0);
  }

  /** A whole number of GiB converts exactly. */
  lemma {:induction false} BytesToGibWhole(n: int)
    ensures BytesToGib(n as real * 1073741824.0) == n
  {
    assert n as real * 1073741824.0 / 1024.0 / 1024.0 / 1024.0 == n as real;
    TruncWhole(n);
  }

  // --------------------------------------------------------- zfs output

  /** The fields of a list, with the empty ones dropped, in order. */
  function NonEmpty(xs: seq<string>): (r: seq<string>)
    ensures |r| <= |xs|
    ensures forall i :: 0 <= i < |r| ==> r[i] != []
  {
    if xs == [] then []
    else (if xs[0] == [] then [] else [xs[0]]) + NonEmpty(xs[1..])
  }

  /** A list with no empty field passes through whole. */
  lemma {:induction false} NonEmptyKeeps(xs: seq<string>)
    requires forall i :: 0 <= i < |xs| ==> xs[i] != []
    ensures NonEmpty(xs) == xs
  {
    if xs != [] {
      NonEmptyKeeps(xs[1..]);
      assert [xs[0]] + xs[1..] == xs;
    }
  }

  /** An empty field anywhere, as a doubled tab leaves, is dropped. */
  lemma {:induction false} EmptyFieldDropped(xs: seq<string>, i: nat)
    requires i <= |xs|
    ensures NonEmpty(xs[..i] + [""] + xs[i..]) == NonEmpty(xs)
  {
    var ys := xs[..i] + [""] + xs[i..];
    if i == 0 {
      assert ys[0] == "" && ys[1..] == xs;
    } else {
      var tail := xs[1..];
      assert ys[0] == xs[0];
      assert ys[1..] == tail[..i - 1] + [""] + tail[i - 1..];
      EmptyFieldDropped(tail, i - 1);
    }
  }

  /** The fields of `zfs list backup -Hp`: split at tabs, empty ones dropped. */
  function ZfsFields(out: string): (r: seq<string>)
    ensures forall i :: 0 <= i < |r| ==> r[i] != []
  {
    NonEmpty(Split(out, '\t'))
  }

  /** The pool's used and free space, in GiB. */
  datatype Volume = Volume(used: int, free: int) {
    function Total(): int { used + free }
  }

  /** Fields 1 and 2 of the listing, stripped, read by float() and converted
      to GiB; a missing field is an IndexError, an unreadable one a ValueError. */
  function Volumes(fields: seq<string>): (r: Result<Volume>)
    ensures r.Ok? <==> |fields| >= 3 && ParseDecimal(Strip(fields[1])).Some? && ParseDecimal(Strip(fields[2])).Some?
    ensures r.Ok? ==> r.value.used == BytesToGib(ParseDecimal(Strip(fields[1])).value)
    ensures r.Ok? ==> r.value.free == BytesToGib(ParseDecimal(Strip(fields[2])).value)
    ensures r.Fail? ==> r.error == (if |fields| < 2 then IndexOutOfRange
                                    else if ParseDecimal(Strip(fields[1])).None? then NotANumber
                                    else if |fields| < 3 then IndexOutOfRange
                                    else NotANumber)
  {
    if |fields| < 2 then Fail(IndexOutOfRange)
    else
      var used :- Need(ParseDecimal(Strip(fields[1])), NotANumber);
      if |fields| < 3 then Fail(IndexOutOfRange)
      else
        var free :- Need(ParseDecimal(Strip(fields[2])), NotANumber);
        Ok(Volume(BytesToGib(used), BytesToGib(free)))
  }

  /** Digits hold no tab and are tight. */
  lemma {:induction false} DecimalField(n: nat)
    ensures Tight(DecimalString(n)) && '\t' !in DecimalString(n)
  {
    var d := DecimalString(n);
    assert IsDigit(d[0]) && IsDigit(d[|d| - 1]);
    forall i | 0 <= i < |d|
      ensures d[i] != '\t'
    {
      assert IsDigit(d[i]);
    }
  }

  /** A byte count written in decimal reads back as that number of bytes. */
  lemma {:induction false} ByteCount(n: nat)
    ensures ParseDecimal(Strip(DecimalString(n))) == Some(n as real)
  {
    var d := DecimalString(n);
    assert Strip(d) == d by {
      assert IsDigit(d[0]) && IsDigit(d[|d| - 1]);
      StripTight(d);
    }
    DigitsValueDecimal(n);
    DigitsDecimal(d);
  }

  /** A listing line `name TAB used TAB free TAB ...` yields the used and free
      byte counts in GiB. */
  lemma {:induction false} ZfsListLine(name: string, used: nat, free: nat, rest: seq<string>)
    requires name != [] && '\t' !in name
    requires forall i :: 0 <= i < |rest| ==> rest[i] != [] && '\t' !in rest[i]
    ensures Volumes(ZfsFields(Join([name, DecimalString(used), DecimalString(free)] + rest, '\t')))
            == Ok(Volume(BytesToGib(used as real), BytesToGib(free as real)))
  {
    var parts := [name, DecimalString(used), DecimalString(free)] + rest;
    ListingFields(name, used, free, rest);
    VolumesOfCounts(parts, used, free);
  }

  /** The fields of a listing line are read back as they were written. */
  lemma {:induction false} ListingFields(name: string, used: nat, free: nat, rest: seq<string>)
    requires name != [] && '\t' !in name
    requires forall i :: 0 <= i < |rest| ==> rest[i] != [] && '\t' !in rest[i]
    ensures var parts := [name, DecimalString(used), DecimalString(free)] + rest;
      ZfsFields(Join(parts, '\t')) == parts
  {
    var parts := [name, DecimalString(used), DecimalString(free)] + rest;
    DecimalField(used);
    DecimalField(free);
    forall i | 0 <= i < |parts|
      ensures parts[i] != [] && '\t' !in parts[i]
    {
      if i >= 3 {
        assert parts[i] == rest[i - 3];
      }
    }
    ZfsFieldsOfJoin(parts);
  }

  /** Fields joined by single tabs are read back as they were. */
  lemma {:induction false} ZfsFieldsOfJoin(parts: seq<string>)
    requires |parts| >= 1
    requires forall i :: 0 <= i < |parts| ==> parts[i] != [] && '\t' !in parts[i]
    ensures ZfsFields(Join(parts, '\t')) == parts
  {
    JoinSplit(parts, '\t');
    NonEmptyKeeps(parts);
  }

  /** Fields 1 and 2 written as byte counts give those counts in GiB. */
  lemma {:induction false} VolumesOfCounts(fields: seq<string>, used: nat, free: nat)
    requires |fields| >= 3 && fields[1] == DecimalString(used) && fields[2] == DecimalString(free)
    ensures Volumes(fields) == Ok(Volume(BytesToGib(used as real), BytesToGib(free as real)))
  {
    ByteCount(used);
    ByteCount(free);
  }

  /** `volumeRatio`: used over total in percent; a ZeroDivisionError when both
      figures are 0 GiB. */
  function VolumeRatio(v: Volume): (r: Result<real>)
    ensures r.Ok? <==> v.Total() != 0
    ensures r.Ok? ==> r.value == v.used as real * 100.0 / v.Total() as real
    ensures r.Fail? ==> r.error == DivisionByZero
  {
    if v.Total() == 0 then Fail(DivisionByZero)
    else Ok((v.used as real * 100.0) / v.Total() as real)
  }

  /** With non-negative figures and some space, the ratio is a percentage. */
  lemma {:induction false} VolumeRatioBounds(v: Volume)
    requires v.used >= 0 && v.free >= 0 && v.Total() > 0
    ensures VolumeRatio(v).Ok?
    ensures 0.0 <= VolumeRatio(v).value <= 100.0
  {
    var t := v.Total() as real;
    assert v.used as real * 100.0 / t == v.used as real / t * 100.0;
    PercentAtMostHundred(v.used as real, t);
  }

  /** `compressratio` from `zfs get compressratio backup -Hp`: the third tab
      field without its last character, read by float(), 0.0 when unreadable. */
  function CompressRatio(out: string): (r: Result<real>)
    ensures r.Ok? <==> |Split(out, '\t')| >= 3
    ensures r.Fail? ==> r.error == IndexOutOfRange
  {
    var parts := Split(out, '\t');
    if |parts| < 3 then Fail(IndexOutOfRange)
    else
      var field := parts[2];
      var cut := if |field| == 0 then field else field[..|field| - 1];
      match ParseDecimal(cut)
      case Some(x) => Ok(x)
      case None => Ok(0.0)
  }

  /** The third tab field of `a`, `b`, `c` and `rest` joined by tabs is `c`. */
  lemma {:induction false} ThirdField(a: string, b: string, c: string, rest: string)
    requires '\t' !in a && '\t' !in b && '\t' !in c
    ensures var parts := Split(a + "\t" + b + "\t" + c + "\t" + rest, '\t');
      |parts| >= 3 && parts[2] == c
  {
    var tail := c + ['\t'] + rest;
    SplitAfter(c, rest, '\t');
    SplitAfter(b, tail, '\t');
    SplitAfter(a, b + ['\t'] + tail, '\t');
    assert a + ['\t'] + (b + ['\t'] + tail) == a + "\t" + b + "\t" + c + "\t" + rest;
  }

  /** A ratio written as `<number><suffix>` in the third field reads as the number. */
  lemma {:induction false} CompressRatioOf(name: string, property: string, ratio: string, suffix: char, rest: string)
    requires '\t' !in name && '\t' !in property && '\t' !in ratio && suffix != '\t'
    requires ParseDecimal(ratio).Some?
    ensures CompressRatio(name + "\t" + property + "\t" + ratio + [suffix] + "\t" + rest)
            == Ok(ParseDecimal(ratio).value)
  {
    var field := ratio + [suffix];
    assert '\t' !in field;
    ThirdField(name, property, field, rest);
    var head := name + "\t" + property + "\t";
    assert head + field == head + ratio + [suffix];
    assert field[..|field| - 1] == ratio;
  }

  /** An unreadable ratio, `-` for instance, defaults to 0.0. */
  lemma {:induction false} CompressRatioDefault(out: string)
    requires |Split(out, '\t')| >= 3
    requires var field := Split(out, '\t')[2];
             ParseDecimal(if |field| == 0 then field else field[..|field| - 1]).None?
    ensures CompressRatio(out) == Ok(0.0)
  {
  }

  /** `logicalused` from `zfs get logicalused backup -Hp`: the third tab field
      read by int(), in GiB. */
  function LogicalUsed(out: string): (r: Result<int>)
    ensures r.Ok? <==> |Split(out, '\t')| >= 3 && ParseInt(Split(out, '\t')[2]).Some?
    ensures r.Ok? ==> r.value == BytesToGib(ParseInt(Split(out, '\t')[2]).value as real)
    ensures r.Fail? ==> r.error == (if |Split(out, '\t')| < 3 then IndexOutOfRange else NotANumber)
  {
    var parts := Split(out, '\t');
    if |parts| < 3 then Fail(IndexOutOfRange)
    else
      var n :- Need(ParseInt(parts[2]), NotANumber);
      Ok(BytesToGib(n as real))
  }

  /** `volumeLogFree`: the free space scaled by the compression ratio, truncated. */
  function LogFree(free: int, ratio: real): (r: int)
    ensures free >= 0 && ratio >= 0.0 ==> 0 <= r && r as real <= free as real * ratio < r as real + 1.0
  {
    Trunc(free as real * ratio)
  }

  /** What compression can gain: no ratio gives nothing, a ratio of at least 1
      gives at least the free space, and the figure grows with the ratio. */
  lemma {:induction false} LogFreeBounds(free: int, ratio: real, other: real)
    requires free >= 0
    ensures ratio == 0.0 ==> LogFree(free, ratio) == 0
    ensures ratio >= 1.0 ==> LogFree(free, ratio) >= free
    ensures ratio <= other ==> LogFree(free, ratio) <= LogFree(free, other)
  {
    if ratio >= 1.0 {
      assert free as real * ratio >= free as real * 1.0;
      TruncMonotone(free as real, free as real * ratio);
      TruncWhole(free);
    }
    if ratio <= other {
      assert free as real * ratio <= free as real * other;
      TruncMonotone(free as real * ratio, free as real * other);
    }
  }

  // ----------------------------------------------------------- settings

  /** The `indexes` object of the configuration file. */
  datatype Indexes = Indexes(main: Option<string>, backupHosts: Option<string>)

  /** The configuration file's settings; an absent key is `None`. */
  datatype Config = Config(logs: Option<string>, url: Option<string>, indexes: Option<Indexes>, datacenter: Option<string>)

  /** The settings the run uses once they are all present and checked. */
  datatype Settings = Settings(logs: string, url: string, mainIndex: string, backupHosts: string, datacenter: string)

  /** The settings read in the order of the script, a KeyError for the first
      absent one, then the exit when `logs`, `url`, the `backup_hosts` index
      or `datacenter` is empty; the `main` index may be empty. */
  function ReadSettings(c: Config): (r: Result<Settings>)
    ensures r.Ok? <==> c.logs.Some? && c.url.Some? && c.indexes.Some?
                       && c.indexes.value.main.Some? && c.indexes.value.backupHosts.Some? && c.datacenter.Some?
                       && c.logs.value != [] && c.url.value != []
                       && c.indexes.value.backupHosts.value != [] && c.datacenter.value != []
    ensures r.Ok? ==> r.value == Settings(c.logs.value, c.url.value, c.indexes.value.main.value,
                                          c.indexes.value.backupHosts.value, c.datacenter.value)
    ensures r.Fail? ==> (r.error == EmptySetting <==>
                           c.logs.Some? && c.url.Some? && c.indexes.Some?
                           && c.indexes.value.main.Some? && c.indexes.value.backupHosts.Some? && c.datacenter.Some?)
    ensures r.Fail? ==> r.error == EmptySetting || r.error == KeyMissing
  {
    var logs :- Need(c.logs, KeyMissing);
    var url :- Need(c.url, KeyMissing);
    var indexes :- Need(c.indexes, KeyMissing);
    var main :- Need(indexes.main, KeyMissing);
    var backupHosts :- Need(indexes.backupHosts, KeyMissing);
    var datacenter :- Need(c.datacenter, KeyMissing);
    if logs == [] || url == [] || backupHosts == [] || datacenter == [] then Fail(EmptySetting)
    else Ok(Settings(logs, url, main, backupHosts, datacenter))
  }

  // --------------------------------------------------------------- main

  /** What one run sees: the configuration and the output of each command. */
  datatype BackupInput = BackupInput(
    config: Config,
    hostname: string,   // `hostname`
    domain: string,     // `hostname -d`
    zfsList: string,    // `zfs list backup -Hp`
    compress: string,   // `zfs get compressratio backup -Hp`
    logical: string)    // `zfs get logicalused backup -Hp`

  /** The backup host's document (`post_date` aside) and the settings it goes out with. */
  datatype BackupReport = BackupReport(settings: Settings, doc: Record)

  /** The fields of a backup-host document (the posting date is not modelled). */
  const BackupKeys: set<string> := {"name", "datacenter", "volumeUsed", "volumeFree", "volumeTotal",
    "volumeRatio", "compressRatio", "volumeLogUsed", "volumeLogFree"}

  /** The document `main` forges from the collected figures. */
  function BackupDoc(fqdn: string, datacenter: string, vol: Volume, ratio: real, compress: real, logical: int): (d: Record)
    ensures d.Keys == BackupKeys
    ensures "name" in d && d["name"] == Str(fqdn)
    ensures "datacenter" in d && d["datacenter"] == Str(datacenter)
    ensures "volumeUsed" in d && d["volumeUsed"] == Num(vol.used as real)
    ensures "volumeFree" in d && d["volumeFree"] == Num(vol.free as real)
    ensures "volumeTotal" in d && d["volumeTotal"] == Num(vol.used as real + vol.free as real)
    ensures "volumeRatio" in d && d["volumeRatio"] == Num(ratio)
    ensures "compressRatio" in d && d["compressRatio"] == Num(compress)
    ensures "volumeLogUsed" in d && d["volumeLogUsed"] == Num(logical as real)
    ensures "volumeLogFree" in d && d["volumeLogFree"] == Num(Trunc(vol.free as real * compress) as real)
  {
    assert "volumeUsed"[6] != "volumeFree"[6] && "volumeUsed"[0] != "datacenter"[0] && "volumeFree"[0] != "datacenter"[0];
    assert "volumeTotal"[6] != "volumeRatio"[6];
    assert "volumeLogUsed"[9] != "volumeLogFree"[9];
    assert "compressRatio"[0] != "volumeLogUsed"[0] && "compressRatio"[0] != "volumeLogFree"[0];
    map[
      "name" := Str(fqdn),
      "volumeUsed" := Num(vol.used as real),
      "volumeFree" := Num(vol.free as real),
      "volumeTotal" := Num(vol.Total() as real),
      "volumeRatio" := Num(ratio),
      "compressRatio" := Num(compress),
      "volumeLogUsed" := Num(logical as real),
      "volumeLogFree" := Num(LogFree(vol.free, compress) as real),
      "datacenter" := Str(datacenter)]
  }

  /** The body of `main`, in its order, up to the document it sends: the
      settings, then the listing, the ratio, the compression ratio and the
      logical usage, each able to stop the run. */
  function BackupHostReport(input: BackupInput): (r: Result<BackupReport>)
    ensures var vol := Volumes(ZfsFields(input.zfsList));
      r.Ok? <==> ReadSettings(input.config).Ok? && vol.Ok? && vol.value.Total() != 0
                 && CompressRatio(input.compress).Ok? && LogicalUsed(input.logical).Ok?
    ensures r.Ok? ==> var vol := Volumes(ZfsFields(input.zfsList)).value;
      && r.value.settings == ReadSettings(input.config).value
      && r.value.doc == BackupDoc(Hypervisors.Fqdn(input.hostname, input.domain), r.value.settings.datacenter,
                                  vol, VolumeRatio(vol).value, CompressRatio(input.compress).value,
                                  LogicalUsed(input.logical).value)
    ensures ReadSettings(input.config).Fail? ==> r == Fail(ReadSettings(input.config).error)
  {
    var settings :- ReadSettings(input.config);
    var fqdn := Hypervisors.Fqdn(input.hostname, input.domain);
    var vol :- Volumes(ZfsFields(input.zfsList));
    var ratio :- VolumeRatio(vol);
    var compress :- CompressRatio(input.compress);
    var logical :- LogicalUsed(input.logical);
    Ok(BackupReport(settings, BackupDoc(fqdn, settings.datacenter, vol, ratio, compress, logical)))
  }

  /** A bad configuration stops the run before any command output is looked at. */
  lemma {:induction false} SettingsFirst(input: BackupInput, other: BackupInput)
    requires input.config == other.config
    requires ReadSettings(input.config).Fail?
    ensures BackupHostReport(input) == BackupHostReport(other)
    ensures BackupHostReport(input).Fail?
    ensures BackupHostReport(input).error == ReadSettings(input.config).error
  {
  }
}
