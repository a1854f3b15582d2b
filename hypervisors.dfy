/** The hypervisor collector (src/capacity_planning_hypervisors.py): it reads
    the host's memory and processor figures, scans one statistics file per
    virtual machine, publishes one document per valid machine and then one
    document for the host with its allocation ratios and free capacity.

    The command outputs and the file contents are inputs; the configuration
    values it uses are inputs too. */
module Hypervisors {
  import opened Results
  import opened Strings
  import opened Numbers
  import opened Records

  // ---------------------------------------------------------------- units

  /** `kib_to_gib`: KiB to whole GiB, truncated toward zero. */
  function KibToGib(v: real): (r: int)
    ensures v >= 0.0 ==> 0 <= r && r as real * 1048576.0 <= v < (r as real + 1.0) * 1048576.0
    ensures v < 0.0 ==> r <= 0 && (r as real - 1.0) * 1048576.0 < v <= r as real * 1048576.0
  {
    Trunc(v / 1024.0 / 1024.0)
  }

  /** A whole number of GiB converts exactly. */
  lemma {:induction false} KibToGibWhole(n: int)
    ensures KibToGib(n as real * 1048576.0) == n
  {
    assert n as real * 1048576.0 / 1024.0 / 1024.0 == n as real;
    TruncWhole(n);
  }

  /** More KiB never give fewer GiB. */
  lemma {:induction false} KibToGibMonotone(x: real, y: real)
    requires x <= y
    ensures KibToGib(x) <= KibToGib(y)
  {
    TruncMonotone(x / 1024.0 / 1024.0, y / 1024.0 / 1024.0);
  }

  /** An over-allocation of less than one GiB counts as 0 GiB, not -1. */
  lemma {:induction false} KibToGibShortfall()
    ensures KibToGib(-1.0) == 0
    ensures KibToGib(-1048576.0) == -1
  {
    KibToGibWhole(-1);
  }

  // ------------------------------------------------------- host identity

  /** The host's fully qualified name: stripped host name, a dot, stripped domain. */
  function Fqdn(hostname: string, domain: string): (r: string)
    ensures |r| == |Strip(hostname)| + 1 + |Strip(domain)|
    ensures r[|Strip(hostname)|] == '.'
  {
    Strip(hostname) + "." + Strip(domain)
  }

  /** The newline the `hostname` commands print does not reach the name. */
  lemma {:induction false} FqdnOfCommandOutput(host: string, domain: string)
    requires host != [] && Tight(host)
    requires domain != [] && Tight(domain)
    ensures Fqdn(host + "\n", domain + "\n") == host + "." + domain
  {
    StripPadded("", host, "\n");
    assert "" + host + "\n" == host + "\n";
    StripPadded("", domain, "\n");
    assert "" + domain + "\n" == domain + "\n";
  }

  // ------------------------------------------------------------- memory

  /** The figure on a line printed by `grep <Key> /proc/meminfo`: the text
      after the first ':' up to the first 'k', read by int(). */
  function MeminfoValue(out: string): (r: Result<int>)
    ensures r.Fail? ==> r.error == IndexOutOfRange || r.error == NotANumber
  {
    var fields := Split(out, ':');
    if |fields| < 2 then Fail(IndexOutOfRange)
    else Need(ParseInt(Split(fields[1], 'k')[0]), NotANumber)
  }

  /** Output without a ':' has no second field: an IndexError. */
  lemma {:induction false} MeminfoWithoutColon(out: string)
    requires ':' !in out
    ensures MeminfoValue(out) == Fail(IndexOutOfRange)
  {
    SplitNone(out, ':');
  }

  /** A meminfo line `Key:   n kB` gives back n, whatever follows it (grep
      for Cached also prints the SwapCached line). */
  lemma {:induction false} MeminfoLine(key: string, pad: string, n: nat, tail: string)
    requires ':' !in key
    requires forall i :: 0 <= i < |pad| ==> IsSpace(pad[i])
    ensures MeminfoValue(key + ":" + pad + DecimalString(n) + " kB" + tail) == Ok(n)
  {
    var rest := pad + DecimalString(n) + " kB" + tail;
    assert key + ":" + pad + DecimalString(n) + " kB" + tail == key + ":" + rest;
    MeminfoField(key, rest);
    KibFigure(pad, n, tail);
    PaddedFigure(pad, n);
  }

  /** After a key without colons, the figure is read from the text that follows it. */
  lemma {:induction false} MeminfoField(key: string, rest: string)
    requires ':' !in key
    ensures MeminfoValue(key + ":" + rest) == Need(ParseInt(Split(Split(rest, ':')[0], 'k')[0]), NotANumber)
  {
    assert key + ":" + rest == key + [':'] + rest;
    SplitAfter(key, rest, ':');
  }

  /** The text before the first ':' and then before the first 'k' of `  n kB...` is `  n `. */
  lemma {:induction false} KibFigure(pad: string, n: nat, tail: string)
    requires forall i :: 0 <= i < |pad| ==> IsSpace(pad[i])
    ensures Split(Split(pad + DecimalString(n) + " kB" + tail, ':')[0], 'k')[0] == pad + DecimalString(n) + " "
  {
    var digits := DecimalString(n);
    DecimalPlain(n);
    SpacesPlain(pad);
    var line := pad + digits + " kB";
    assert ':' !in line by {
      assert line == pad + digits + [' ', 'k', 'B'];
    }
    SplitFirstAfter(line, tail, ':');
    var number := pad + digits + " ";
    assert 'k' !in number;
    var after := "kB" + Split(tail, ':')[0];
    assert line + Split(tail, ':')[0] == number + after;
    SplitFirstAfter(number, after, 'k');
    assert Split(after, 'k')[0] == "";
  }

  /** int() reads `  n ` as n. */
  lemma {:induction false} PaddedFigure(pad: string, n: nat)
    requires forall i :: 0 <= i < |pad| ==> IsSpace(pad[i])
    ensures ParseInt(pad + DecimalString(n) + " ") == Some(n)
  {
    DecimalPlain(n);
    StripPadded(pad, DecimalString(n), " ");
    StripTight(DecimalString(n));
    ParseIntDecimal(n);
  }

  /** The host's memory in KiB. */
  datatype Memory = Memory(free: int, used: int, total: int)

  /** Free memory counts the buffers, slab and page cache the kernel can
      reclaim; used memory is the rest of the total. */
  function HostMemory(memFree: int, cached: int, buffers: int, slab: int, total: int): (m: Memory)
    ensures m.total == total
    ensures m.free + m.used == m.total
    ensures m.free == memFree + buffers + slab + cached
  {
    var free := memFree + buffers + slab + cached;
    Memory(free, total - free, total)
  }

  // ------------------------------------------------ VM statistics files

  /** What one line of a VM statistics file says, chosen by its key. */
  datatype LineReading =
    | NameIs(name: string)
    | UsedMemory(kib: int)
    | Cpus(count: int)
    | MaxMemory(kib: int)
    | Other

  /** The first space-separated word of a stripped field. */
  function FirstWord(field: string): string
  {
    Split(Strip(field), ' ')[0]
  }

  /** One line: the key is the stripped text before the first ':', the value
      the text between the first and the second ':'. */
  function ReadLine(line: string): (r: Result<LineReading>)
    ensures r.Ok? && r.value.NameIs? ==> ':' !in r.value.name && Tight(r.value.name)
    ensures r.Fail? ==> ':' !in line || r.error == NotANumber
  {
    SplitFirst(line, ':');
    var fields := Split(line, ':');
    if |fields| >= 2 then StripLacks(fields[1], ':'); ReadFields(Strip(fields[0]), fields)
    else ReadFields(Strip(fields[0]), fields)
  }

  /** The reading of a line split at its colons, with its stripped key. Only
      the four known keys read a value, and for them a missing value is an
      IndexError and an unreadable number a ValueError. */
  function ReadFields(key: string, fields: seq<string>): (r: Result<LineReading>)
    ensures r.Ok? && r.value.NameIs? ==> |fields| >= 2 && r.value.name == Strip(fields[1])
    ensures r.Fail? ==> |fields| < 2 || r.error == NotANumber
  {
    if key == "Name" then
      if |fields| < 2 then Fail(IndexOutOfRange)
      else Ok(NameIs(Strip(fields[1])))
    else if key == "Used memory" then
      if |fields| < 2 then Fail(IndexOutOfRange)
      else var v :- Need(ParseInt(FirstWord(fields[1])), NotANumber); Ok(UsedMemory(v))
    else if key == "CPU(s)" then
      if |fields| < 2 then Fail(IndexOutOfRange)
      else var v :- Need(ParseInt(Strip(fields[1])), NotANumber); Ok(Cpus(v))
    else if key == "Max memory" then
      if |fields| < 2 then Fail(IndexOutOfRange)
      else var v :- Need(ParseInt(FirstWord(fields[1])), NotANumber); Ok(MaxMemory(v))
    else Ok(Other)
  }

  /** What the loop over VM files keeps from one file to the next. `cpu` and
      `maxMem` are the values last read in any file, None before the first
      file that sets them; the two totals count every value read. */
  datatype Carry = Carry(cpu: Option<int>, maxMem: Option<int>, cpuAllocated: int, ramAllocated: int)

  /** Nothing read yet. */
  const Fresh := Carry(None, None, 0, 0)

  /** The state while one file is read: the machine's name, its document and the carry. */
  datatype Scan = Scan(name: string, doc: Record, carry: Carry)

  /** The processors a reading adds to the host total. */
  function CpuOf(rd: LineReading): int
  {
    if rd.Cpus? then rd.count else 0
  }

  /** The KiB a reading adds to the host's allocated memory. */
  function RamOf(rd: LineReading): int
  {
    if rd.MaxMemory? then rd.kib else 0
  }

  /** The effect of one reading on the document and on the carry. */
  function Apply(s: Scan, rd: LineReading): (t: Scan)
    ensures t.carry.cpuAllocated == s.carry.cpuAllocated + CpuOf(rd)
    ensures t.carry.ramAllocated == s.carry.ramAllocated + RamOf(rd)
    ensures s.doc.Keys <= t.doc.Keys
    ensures forall k :: k in s.doc && k !in {"name", "vram_used", "cpu", "maxmem"} ==> t.doc[k] == s.doc[k]
    ensures rd.Cpus? ==> t.carry.cpu == Some(rd.count) && "cpu" in t.doc && t.doc["cpu"] == Num(rd.count as real)
    ensures !rd.Cpus? ==> t.carry.cpu == s.carry.cpu
    ensures rd.MaxMemory? ==> t.carry.maxMem == Some(rd.kib) && "maxmem" in t.doc && t.doc["maxmem"] == Num(rd.kib as real)
    ensures !rd.MaxMemory? ==> t.carry.maxMem == s.carry.maxMem
    ensures t.name == (if rd.NameIs? then rd.name else s.name)
  {
    match rd
    case NameIs(n) => Scan(n, s.doc["name" := Str(n)], s.carry)
    case UsedMemory(v) => Scan(s.name, s.doc["vram_used" := Num(v as real)], s.carry)
    case Cpus(v) =>
      Scan(s.name, s.doc["cpu" := Num(v as real)],
           s.carry.(cpu := Some(v), cpuAllocated := s.carry.cpuAllocated + v))
    case MaxMemory(v) =>
      Scan(s.name, s.doc["maxmem" := Num(v as real)],
           s.carry.(maxMem := Some(v), ramAllocated := s.carry.ramAllocated + v))
    case Other => s
  }

  /** The lines of a file read in order; the first unreadable line ends the run. */
  function ScanLines(lines: seq<string>, s: Scan): (r: Result<Scan>)
    ensures r.Ok? <==> ReadAll(lines).Ok?
  {
    if lines == [] then Ok(s)
    else
      var t :- ScanLines(lines[..|lines| - 1], s);
      var rd :- ReadLine(lines[|lines| - 1]);
      Ok(Apply(t, rd))
  }

  /** One more line: its reading is applied, or its failure ends the file. */
  lemma {:induction false} ScanLinesStep(lines: seq<string>, s: Scan, i: nat)
    requires i < |lines| && ScanLines(lines[..i], s).Ok?
    ensures ReadLine(lines[i]).Fail? ==> ScanLines(lines, s) == Fail(ReadLine(lines[i]).error)
    ensures ReadLine(lines[i]).Ok? ==>
      ScanLines(lines[..i + 1], s) == Ok(Apply(ScanLines(lines[..i], s).value, ReadLine(lines[i]).value))
  {
    var prefix := lines[..i + 1];
    assert prefix[..i] == lines[..i];
    assert prefix[i] == lines[i];
    if ReadLine(lines[i]).Fail? {
      ScanLinesFailurePersists(lines, s, i + 1);
    }
  }

  lemma {:induction false} ScanLinesFailurePersists(lines: seq<string>, s: Scan, i: nat)
    requires i <= |lines| && ScanLines(lines[..i], s).Fail?
    ensures ScanLines(lines, s) == ScanLines(lines[..i], s)
    decreases |lines|
  {
    if i < |lines| {
      var init := lines[..|lines| - 1];
      assert init[..i] == lines[..i];
      ScanLinesFailurePersists(init, s, i);
    } else {
      assert lines[..i] == lines;
    }
  }

  /** The readings of all lines, independent of what they do to the state. */
  function ReadAll(lines: seq<string>): (r: Result<seq<LineReading>>)
    ensures r.Ok? ==> |r.value| == |lines|
  {
    if lines == [] then Ok([])
    else
      var init :- ReadAll(lines[..|lines| - 1]);
      var rd :- ReadLine(lines[|lines| - 1]);
      Ok(init + [rd])
  }

  /** Processors over a list of readings. */
  function CpuTotal(rds: seq<LineReading>): int
  {
    if rds == [] then 0 else CpuTotal(rds[..|rds| - 1]) + CpuOf(rds[|rds| - 1])
  }

  /** KiB of allocated memory over a list of readings. */
  function RamTotal(rds: seq<LineReading>): int
  {
    if rds == [] then 0 else RamTotal(rds[..|rds| - 1]) + RamOf(rds[|rds| - 1])
  }

  lemma {:induction false} TotalsAppend(a: seq<LineReading>, b: seq<LineReading>)
    ensures CpuTotal(a + b) == CpuTotal(a) + CpuTotal(b)
    ensures RamTotal(a + b) == RamTotal(a) + RamTotal(b)
    decreases |b|
  {
    if b == [] {
      assert a + b == a;
    } else {
      assert (a + b)[..|a + b| - 1] == a + b[..|b| - 1];
      TotalsAppend(a, b[..|b| - 1]);
    }
  }

  /** Reading a file's lines adds every processor count and memory size it
      reads to the running totals; the host document also keeps in the
      document every field the lines do not name. */
  lemma {:induction false} ScanLinesTotals(lines: seq<string>, s: Scan)
    requires ScanLines(lines, s).Ok?
    ensures ReadAll(lines).Ok?
    ensures ScanLines(lines, s).value.carry.cpuAllocated == s.carry.cpuAllocated + CpuTotal(ReadAll(lines).value)
    ensures ScanLines(lines, s).value.carry.ramAllocated == s.carry.ramAllocated + RamTotal(ReadAll(lines).value)
    ensures "host" in s.doc ==> "host" in ScanLines(lines, s).value.doc && ScanLines(lines, s).value.doc["host"] == s.doc["host"]
  {
    if lines != [] {
      var init := lines[..|lines| - 1];
      ScanLinesTotals(init, s);
      var rds := ReadAll(init).value;
      var rd := ReadLine(lines[|lines| - 1]).value;
      assert ReadAll(lines) == Ok(rds + [rd]);
      assert (rds + [rd])[..|rds + [rd]| - 1] == rds;
    }
  }

  /** The validity test at the end of a file, as Python evaluates the `or`
      from the left: Ok(true) publishes the machine, Ok(false) skips it, and
      reading `vram_alloc` or `cpu` before any file has set it is an
      UnboundLocalError. */
  function Accept(name: string, c: Carry, cluster: string): (r: Result<bool>)
    ensures r == Ok(true) <==>
      name != "" && c.maxMem.Some? && c.maxMem.value > 0 && c.cpu.Some? && c.cpu.value > 0 && cluster != ""
    ensures r.Fail? <==> name != "" && (c.maxMem.None? || (c.maxMem.value > 0 && c.cpu.None?))
    ensures r.Fail? ==> r.error == Unbound
  {
    if name == "" then Ok(false)
    else if c.maxMem.None? then Fail(Unbound)
    else if c.maxMem.value <= 0 then Ok(false)
    else if c.cpu.None? then Fail(Unbound)
    else if c.cpu.value <= 0 then Ok(false)
    else Ok(cluster != "")
  }

  /** What one file leaves behind: the document published for it, if any, and the carry. */
  datatype FileOutcome = FileOutcome(published: Option<Record>, carry: Carry)

  /** One VM statistics file (None when it cannot be read: it is skipped).
      The name starts as "false", the document with the host's name. */
  function VmFile(fqdn: string, cluster: string, file: Option<string>, c: Carry): (r: Result<FileOutcome>)
    ensures file.None? ==> r == Ok(FileOutcome(None, c))
    ensures r.Ok? && r.value.published.Some? ==>
      && cluster != ""
      && r.value.carry.maxMem.Some? && r.value.carry.maxMem.value > 0
      && r.value.carry.cpu.Some? && r.value.carry.cpu.value > 0
      && "cluster" in r.value.published.value && r.value.published.value["cluster"] == Str(cluster)
  {
    match file
    case None => Ok(FileOutcome(None, c))
    case Some(content) =>
      var s :- ScanLines(Split(content, '\n'), Scan("false", map["host" := Str(fqdn)], c));
      var ok :- Accept(s.name, s.carry, cluster);
      Ok(FileOutcome(if ok then Some(s.doc["cluster" := Str(cluster)]) else None, s.carry))
  }

  /** What the loop over all VM files has produced. */
  datatype VmsState = VmsState(published: seq<Record>, carry: Carry)

  /** The loop over the VM files, in order, from nothing read. */
  function VmsSpec(fqdn: string, cluster: string, files: seq<Option<string>>): (r: Result<VmsState>)
    ensures r.Ok? ==> |r.value.published| <= |files|
  {
    if files == [] then Ok(VmsState([], Fresh))
    else
      var prev :- VmsSpec(fqdn, cluster, files[..|files| - 1]);
      var out :- VmFile(fqdn, cluster, files[|files| - 1], prev.carry);
      Ok(VmsState(prev.published + (if out.published.Some? then [out.published.value] else []), out.carry))
  }

  /** One more VM file: what it publishes is appended and its carry passed on,
      or its failure ends the loop. */
  lemma {:induction false} VmsSpecStep(fqdn: string, cluster: string, files: seq<Option<string>>, i: nat)
    requires i < |files| && VmsSpec(fqdn, cluster, files[..i]).Ok?
    ensures var prev := VmsSpec(fqdn, cluster, files[..i]).value;
      var out := VmFile(fqdn, cluster, files[i], prev.carry);
      out.Fail? ==> VmsSpec(fqdn, cluster, files) == Fail(out.error)
    ensures var prev := VmsSpec(fqdn, cluster, files[..i]).value;
      var out := VmFile(fqdn, cluster, files[i], prev.carry);
      out.Ok? ==> (VmsSpec(fqdn, cluster, files[..i + 1]) ==
                   Ok(VmsState(prev.published + (if out.value.published.Some? then [out.value.published.value] else []),
                               out.value.carry)))
  {
    var prefix := files[..i + 1];
    assert prefix[..i] == files[..i];
    assert prefix[i] == files[i];
    var prev := VmsSpec(fqdn, cluster, files[..i]).value;
    if VmFile(fqdn, cluster, files[i], prev.carry).Fail? {
      VmsSpecFailurePersists(fqdn, cluster, files, i + 1);
    }
  }

  lemma {:induction false} VmsSpecFailurePersists(fqdn: string, cluster: string, files: seq<Option<string>>, i: nat)
    requires i <= |files| && VmsSpec(fqdn, cluster, files[..i]).Fail?
    ensures VmsSpec(fqdn, cluster, files) == VmsSpec(fqdn, cluster, files[..i])
    decreases |files|
  {
    if i < |files| {
      var init := files[..|files| - 1];
      assert init[..i] == files[..i];
      VmsSpecFailurePersists(fqdn, cluster, init, i);
    } else {
      assert files[..i] == files;
    }
  }

  /** The readings of every line of a file; none for a file that cannot be read. */
  function FileReadings(file: Option<string>): Result<seq<LineReading>>
  {
    match file
    case None => Ok([])
    case Some(content) => ReadAll(Split(content, '\n'))
  }

  /** The readings of every line of every readable file, whether or not its machine is published. */
  function Readings(files: seq<Option<string>>): (r: Result<seq<LineReading>>)
  {
    if files == [] then Ok([])
    else
      var init :- Readings(files[..|files| - 1]);
      var rds :- FileReadings(files[|files| - 1]);
      Ok(init + rds)
  }

  /** One file adds what its lines read to the totals, whether or not its
      machine is published; a published document names the host and the
      (non-empty) cluster. */
  lemma {:induction false} FileTotals(fqdn: string, cluster: string, file: Option<string>, c: Carry)
    requires VmFile(fqdn, cluster, file, c).Ok?
    ensures FileReadings(file).Ok?
    ensures VmFile(fqdn, cluster, file, c).value.carry.cpuAllocated == c.cpuAllocated + CpuTotal(FileReadings(file).value)
    ensures VmFile(fqdn, cluster, file, c).value.carry.ramAllocated == c.ramAllocated + RamTotal(FileReadings(file).value)
    ensures var out := VmFile(fqdn, cluster, file, c).value;
      out.published.Some? ==>
        "host" in out.published.value && out.published.value["host"] == Str(fqdn) &&
        "cluster" in out.published.value && out.published.value["cluster"] == Str(cluster) && cluster != ""
  {
    if file.Some? {
      ScanLinesTotals(Split(file.value, '\n'), Scan("false", map["host" := Str(fqdn)], c));
    }
  }

  /** The host's totals count every `CPU(s)` and `Max memory` value read,
      also those of machines the validity test skips; every published
      document carries the host's name and the (non-empty) cluster. */
  lemma {:induction false} VmsTotals(fqdn: string, cluster: string, files: seq<Option<string>>)
    requires VmsSpec(fqdn, cluster, files).Ok?
    ensures Readings(files).Ok?
    ensures VmsSpec(fqdn, cluster, files).value.carry.cpuAllocated == CpuTotal(Readings(files).value)
    ensures VmsSpec(fqdn, cluster, files).value.carry.ramAllocated == RamTotal(Readings(files).value)
    ensures forall d :: d in VmsSpec(fqdn, cluster, files).value.published ==>
      "host" in d && d["host"] == Str(fqdn) && "cluster" in d && d["cluster"] == Str(cluster) && cluster != ""
  {
    if files != [] {
      var init := files[..|files| - 1];
      VmsTotals(fqdn, cluster, init);
      var prev := VmsSpec(fqdn, cluster, init).value;
      FileTotals(fqdn, cluster, files[|files| - 1], prev.carry);
      TotalsAppend(Readings(init).value, FileReadings(files[|files| - 1]).value);
    }
  }

  /** A key and a value without colons split into exactly those two fields. */
  lemma {:induction false} FieldsOf(key: string, value: string)
    requires ':' !in key && ':' !in value
    ensures Split(key + ":" + value, ':') == [key, value]
  {
    assert key + ":" + value == key + [':'] + value;
    SplitAfter(key, value, ':');
    SplitNone(value, ':');
  }

  /** A line `key: value` is read from its stripped key and its two fields. */
  lemma {:induction false} LineFields(key: string, value: string)
    requires ':' !in key && ':' !in value
    ensures ReadLine(key + ":" + value) == ReadFields(Strip(key), [key, value])
  {
    FieldsOf(key, value);
  }

  /** Decimal notation is tight and holds none of the separators the parsers split at. */
  lemma {:induction false} DecimalPlain(n: nat)
    ensures Tight(DecimalString(n))
    ensures ':' !in DecimalString(n) && ' ' !in DecimalString(n) && '\n' !in DecimalString(n) && 'k' !in DecimalString(n)
  {
    var d := DecimalString(n);
    assert IsDigit(d[0]) && IsDigit(d[|d| - 1]);
    forall i | 0 <= i < |d|
      ensures d[i] != ':' && d[i] != ' ' && d[i] != '\n' && d[i] != 'k'
    {
      assert IsDigit(d[i]);
    }
  }

  /** Whitespace holds none of the separators the parsers split at except itself. */
  lemma {:induction false} SpacesPlain(pad: string)
    requires forall i :: 0 <= i < |pad| ==> IsSpace(pad[i])
    ensures ':' !in pad && 'k' !in pad
  {
    forall i | 0 <= i < |pad|
      ensures pad[i] != ':' && pad[i] != 'k'
    {
      assert IsSpace(pad[i]);
    }
  }

  /** Stripping whitespace in front of tight text leaves the text. */
  lemma {:induction false} StripFront(pad: string, w: string)
    requires forall i :: 0 <= i < |pad| ==> IsSpace(pad[i])
    requires w != [] && Tight(w)
    ensures Strip(pad + w) == w
  {
    StripPadded(pad, w, "");
    assert pad + w + "" == pad + w;
  }

  /** `Name:` with nothing after it reads an empty name. */
  lemma {:induction false} NameLineEmpty()
    ensures ReadLine("Name:") == Ok(NameIs(""))
  {
    FieldsOf("Name", "");
    assert "Name" + ":" + "" == "Name:";
    StripTight("Name");
    StripTight("");
  }

  /** `CPU(s):  n` reads n processors. */
  lemma {:induction false} CpusLine(pad: string, n: nat)
    requires forall i :: 0 <= i < |pad| ==> IsSpace(pad[i])
    ensures ReadLine("CPU(s):" + pad + DecimalString(n)) == Ok(Cpus(n))
  {
    var digits := DecimalString(n);
    DecimalPlain(n);
    SpacesPlain(pad);
    assert "CPU(s):" + pad + digits == "CPU(s)" + ":" + (pad + digits);
    LineFields("CPU(s)", pad + digits);
    StripTight("CPU(s)");
    StripFront(pad, digits);
    StripTight(digits);
    ParseIntDecimal(n);
    CpusField(pad + digits);
  }

  /** The value of a `CPU(s)` line is read by int() after stripping. */
  lemma {:induction false} CpusField(value: string)
    ensures ParseInt(Strip(value)).Some? ==> ReadFields("CPU(s)", ["CPU(s)", value]) == Ok(Cpus(ParseInt(Strip(value)).value))
  {
  }

  /** The value of a `Max memory` line is its first word, read by int(). */
  lemma {:induction false} MaxMemoryField(value: string)
    ensures ParseInt(FirstWord(value)).Some? ==> ReadFields("Max memory", ["Max memory", value]) == Ok(MaxMemory(ParseInt(FirstWord(value)).value))
  {
  }

  /** `Max memory:  n KiB` reads n KiB. */
  lemma {:induction false} MaxMemoryLine(pad: string, n: nat)
    requires forall i :: 0 <= i < |pad| ==> IsSpace(pad[i])
    ensures ReadLine("Max memory:" + pad + DecimalString(n) + " KiB") == Ok(MaxMemory(n))
  {
    var digits := DecimalString(n);
    DecimalPlain(n);
    SpacesPlain(pad);
    var value := pad + digits + " KiB";
    assert "Max memory:" + pad + digits + " KiB" == "Max memory" + ":" + value;
    LineFields("Max memory", value);
    StripTight("Max memory");
    SizeValue(pad, n);
    MaxMemoryField(value);
  }

  /** A size written `n KiB` after some whitespace reads as n. */
  lemma {:induction false} SizeValue(pad: string, n: nat)
    requires forall i :: 0 <= i < |pad| ==> IsSpace(pad[i])
    ensures ParseInt(FirstWord(pad + DecimalString(n) + " KiB")) == Some(n)
  {
    var digits := DecimalString(n);
    DecimalPlain(n);
    var body := digits + " KiB";
    assert Tight(body);
    StripFront(pad, body);
    assert pad + digits + " KiB" == pad + body;
    assert " KiB" == [' '] + "KiB";
    assert body == digits + [' '] + "KiB";
    SplitAfter(digits, "KiB", ' ');
    assert FirstWord(pad + body) == digits;
    StripTight(digits);
    ParseIntDecimal(n);
  }

  // ------------------------------------------------------- host figures

  /** `allocated / (capacity * overcommit/100) * 100`: the share of the
      overcommitted capacity in use, in percent; ZeroDivisionError when the
      capacity or the overcommit factor is 0. */
  function OvercommitRatio(inUse: int, capacity: int, overcommit: int): (r: Result<real>)
    ensures r.Ok? <==> capacity != 0 && overcommit != 0
    ensures r.Fail? ==> r.error == DivisionByZero
  {
    var limit := capacity as real * (overcommit as real / 100.0);
    if limit == 0.0 then Fail(DivisionByZero) else Ok(inUse as real / limit * 100.0)
  }

  /** With a positive capacity, the ratio is at most 100 exactly when the
      allocation fits within the overcommitted capacity. */
  lemma {:induction false} OvercommitRatioBound(inUse: int, capacity: int, overcommit: int)
    requires capacity > 0 && overcommit > 0
    ensures OvercommitRatio(inUse, capacity, overcommit).Ok?
    ensures OvercommitRatio(inUse, capacity, overcommit).value <= 100.0 <==>
      inUse as real <= capacity as real * (overcommit as real / 100.0)
  {
    var limit := capacity as real * (overcommit as real / 100.0);
    assert limit > 0.0;
    PercentAtMostHundred(inUse as real, limit);
  }

  /** `vCPUfree`: overcommitted processors minus those allocated, truncated. */
  function CpuHeadroom(pcpu: int, overcommit: int, inUse: int): (r: int)
    ensures r > 0 <==> pcpu as real * (overcommit as real / 100.0) - inUse as real >= 1.0
    ensures r < 0 <==> pcpu as real * (overcommit as real / 100.0) - inUse as real <= -1.0
  {
    Trunc(pcpu as real * (overcommit as real / 100.0) - inUse as real)
  }

  /** `vRAMfree`: overcommitted memory minus that allocated, in whole GiB. */
  function RamHeadroom(total: int, overcommit: int, inUse: int): (r: int)
    ensures r > 0 <==> total as real * (overcommit as real / 100.0) - inUse as real >= 1048576.0
    ensures r < 0 <==> total as real * (overcommit as real / 100.0) - inUse as real <= -1048576.0
  {
    KibToGib(total as real * (overcommit as real / 100.0) - inUse as real)
  }

  /** Eight processors at a 200% overcommit with twelve inUse: 75% in use, four left. */
  lemma {:induction false} CpuFiguresExample()
    ensures OvercommitRatio(12, 8, 200) == Ok(75.0)
    ensures CpuHeadroom(8, 200, 12) == 4
  {
    TruncWhole(4);
  }

  /** The keys of a host document (the posting date is not modelled). */
  const HostKeys: set<string> := {"name", "pRAMfree", "pRAMused", "pRAMtotal", "pCPU", "cluster",
    "vRAMallocated", "vCPUallocated", "CPUratio", "RAMratio", "vCPUfree", "vRAMfree"}

  /** The host document: the fields set when it is created, then those set after the VM loop. */
  function HostDoc(fqdn: string, cluster: string, mem: Memory, pcpu: int, c: Carry, cpuOvercommit: int, ramOvercommit: int)
    : (r: Result<Record>)
    ensures r.Ok? <==> pcpu != 0 && cpuOvercommit != 0 && mem.total != 0 && ramOvercommit != 0
    ensures r.Ok? ==> r.value.Keys == HostKeys
    ensures r.Ok? ==> "name" in r.value && r.value["name"] == Str(fqdn)
    ensures r.Ok? ==> "cluster" in r.value && r.value["cluster"] == Str(cluster)
    ensures r.Ok? ==> "pRAMfree" in r.value && r.value["pRAMfree"] == Num(KibToGib(mem.free as real) as real)
    ensures r.Ok? ==> "pRAMused" in r.value && r.value["pRAMused"] == Num(KibToGib(mem.used as real) as real)
    ensures r.Ok? ==> "pRAMtotal" in r.value && r.value["pRAMtotal"] == Num(KibToGib(mem.total as real) as real)
    ensures r.Ok? ==> "pCPU" in r.value && r.value["pCPU"] == Num(pcpu as real)
    ensures r.Ok? ==> "vCPUallocated" in r.value && r.value["vCPUallocated"] == Num(c.cpuAllocated as real)
    ensures r.Ok? ==> "vRAMallocated" in r.value && r.value["vRAMallocated"] == Num(KibToGib(c.ramAllocated as real) as real)
    ensures r.Ok? ==> "CPUratio" in r.value && r.value["CPUratio"] == Num(OvercommitRatio(c.cpuAllocated, pcpu, cpuOvercommit).value)
    ensures r.Ok? ==> "RAMratio" in r.value && r.value["RAMratio"] == Num(OvercommitRatio(c.ramAllocated, mem.total, ramOvercommit).value)
    ensures r.Ok? ==> "vCPUfree" in r.value && r.value["vCPUfree"] == Num(CpuHeadroom(pcpu, cpuOvercommit, c.cpuAllocated) as real)
    ensures r.Ok? ==> "vRAMfree" in r.value && r.value["vRAMfree"] == Num(RamHeadroom(mem.total, ramOvercommit, c.ramAllocated) as real)
  {
    var base := map[
      "name" := Str(fqdn),
      "pRAMfree" := Num(KibToGib(mem.free as real) as real),
      "pRAMused" := Num(KibToGib(mem.used as real) as real),
      "pRAMtotal" := Num(KibToGib(mem.total as real) as real),
      "pCPU" := Num(pcpu as real),
      "cluster" := Str(cluster)];
    var cpuRatio :- OvercommitRatio(c.cpuAllocated, pcpu, cpuOvercommit);
    var ramRatio :- OvercommitRatio(c.ramAllocated, mem.total, ramOvercommit);
    Ok(base["vRAMallocated" := Num(KibToGib(c.ramAllocated as real) as real)]
           ["vCPUallocated" := Num(c.cpuAllocated as real)]
           ["CPUratio" := Num(cpuRatio)]
           ["RAMratio" := Num(ramRatio)]
           ["vCPUfree" := Num(CpuHeadroom(pcpu, cpuOvercommit, c.cpuAllocated) as real)]
           ["vRAMfree" := Num(RamHeadroom(mem.total, ramOvercommit, c.ramAllocated) as real)])
  }

  // --------------------------------------------------------------- main

  /** Everything the collector reads: command outputs, VM file contents and
      the configured cluster and overcommit percentages. */
  datatype HostInput = HostInput(
    hostname: string,          // `hostname`
    domain: string,            // `hostname -d`
    memFree: string,           // `grep MemFree /proc/meminfo`
    cached: string,            // `grep Cached /proc/meminfo`
    buffers: string,           // `grep Buffers /proc/meminfo`
    slab: string,              // `grep Slab /proc/meminfo`
    memTotal: string,          // `grep MemTotal /proc/meminfo`
    nproc: string,             // `nproc`
    vmFiles: seq<Option<string>>, // each VM statistics file, None when it cannot be read
    cluster: string,
    cpuOvercommit: int,
    ramOvercommit: int)

  /** What one run publishes: the VM documents in file order, then the host document. */
  datatype Report = Report(vms: seq<Record>, host: Record)

  /** The host's memory (KiB) and processor count. */
  datatype Hardware = Hardware(mem: Memory, pcpu: int)

  /** The meminfo figures in the order they are read. */
  function MemoryReadings(input: HostInput): (r: Result<Memory>)
    ensures r.Ok? ==> r.value.free + r.value.used == r.value.total
  {
    var memFree :- MeminfoValue(input.memFree);
    var cached :- MeminfoValue(input.cached);
    var buffers :- MeminfoValue(input.buffers);
    var slab :- MeminfoValue(input.slab);
    var total :- MeminfoValue(input.memTotal);
    Ok(HostMemory(memFree, cached, buffers, slab, total))
  }

  /** The memory figures, then `nproc`. */
  function HostHardware(input: HostInput): (r: Result<Hardware>)
    ensures r.Ok? ==> r.value.mem.free + r.value.mem.used == r.value.mem.total
  {
    var mem :- MemoryReadings(input);
    var pcpu :- Need(ParseInt(input.nproc), NotANumber);
    Ok(Hardware(mem, pcpu))
  }

  /** One run of the collector. */
  function HostReport(input: HostInput): (r: Result<Report>)
    ensures r.Ok? ==> |r.value.vms| <= |input.vmFiles|
    ensures r.Ok? ==> input.cpuOvercommit != 0 && input.ramOvercommit != 0
    ensures r.Ok? ==> r.value.host.Keys == HostKeys
    ensures r.Ok? ==> r.value.host["name"] == Str(Fqdn(input.hostname, input.domain))
    ensures r.Ok? ==> r.value.host["cluster"] == Str(input.cluster)
  {
    var fqdn := Fqdn(input.hostname, input.domain);
    var hw :- HostHardware(input);
    var vms :- VmsSpec(fqdn, input.cluster, input.vmFiles);
    var host :- HostDoc(fqdn, input.cluster, hw.mem, hw.pcpu, vms.carry, input.cpuOvercommit, input.ramOvercommit);
    Ok(Report(vms.published, host))
  }

  // ------------------------------------------------------------ methods

  /** The inner loop of `main` over the lines of one VM file, and the validity test after it. */
  method ScanVmFile(fqdn: string, cluster: string, file: Option<string>, c: Carry) returns (r: Result<FileOutcome>)
    ensures r == VmFile(fqdn, cluster, file, c)
  {
    if file.None? {
      return Ok(FileOutcome(None, c));
    }
    var lines := Split(file.value, '\n');
    var s0 := Scan("false", map["host" := Str(fqdn)], c);
    var name := "false";
    var data: Record := map["host" := Str(fqdn)];
    var carry := c;
    var i := 0;
    while i < |lines|
      invariant 0 <= i <= |lines|
      invariant ScanLines(lines[..i], s0) == Ok(Scan(name, data, carry))
    {
      var rd := ReadLine(lines[i]);
      ScanLinesStep(lines, s0, i);
      if rd.Fail? {
        return Fail(rd.error);
      }
      var next := Apply(Scan(name, data, carry), rd.value);
      name, data, carry := next.name, next.doc, next.carry;
      i := i + 1;
    }
    assert lines[..i] == lines;
    data := data["cluster" := Str(cluster)];
    var ok := Accept(name, carry, cluster);
    if ok.Fail? {
      return Fail(ok.error);
    }
    if ok.value {
      return Ok(FileOutcome(Some(data), carry));
    }
    return Ok(FileOutcome(None, carry));
  }

  /** The loop of `main` over the VM files. */
  method ScanVmFiles(fqdn: string, cluster: string, files: seq<Option<string>>) returns (r: Result<VmsState>)
    ensures r == VmsSpec(fqdn, cluster, files)
  {
    var published: seq<Record> := [];
    var carry := Fresh;
    var i := 0;
    while i < |files|
      invariant 0 <= i <= |files|
      invariant VmsSpec(fqdn, cluster, files[..i]) == Ok(VmsState(published, carry))
    {
      var out := ScanVmFile(fqdn, cluster, files[i], carry);
      VmsSpecStep(fqdn, cluster, files, i);
      if out.Fail? {
        return Fail(out.error);
      }
      var extra := if out.value.published.Some? then [out.value.published.value] else [];
      published, carry := published + extra, out.value.carry;
      i := i + 1;
    }
    assert files[..i] == files;
    return Ok(VmsState(published, carry));
  }

  /** `main`: memory and processors, the VM files, then the host figures. */
  method Collect(input: HostInput) returns (r: Result<Report>)
    ensures r == HostReport(input)
  {
    var fqdn := Fqdn(input.hostname, input.domain);
    var hw := HostHardware(input);
    if hw.Fail? { return Fail(hw.error); }
    var vms := ScanVmFiles(fqdn, input.cluster, input.vmFiles);
    if vms.Fail? { return Fail(vms.error); }
    var host := HostDoc(fqdn, input.cluster, hw.value.mem, hw.value.pcpu, vms.value.carry, input.cpuOvercommit, input.ramOvercommit);
    if host.Fail? { return Fail(host.error); }
    return Ok(Report(vms.value.published, host.value));
  }
}
