/** Model of the SAN collector and its hierarchical rollup
    (src/capacity_planning_san.py).

    A SAN group ("host") is read over SNMP: a walk of the pool-name table
    lists its pools, and one `get` per statistic and pool fetches the values.
    Each pool becomes a document; the storage pools of a host are summed into
    a host document, hosts into a cluster document, clusters into a
    datacenter document, and every level's fill ratio is recomputed from the
    summed volumes. The SNMP agent's answers are inputs here. */
module San {
  import opened Results
  import opened Strings
  import opened Numbers
  import opened Records

  // ------------------------------------------------------------ SNMP side

  /** What one SAN group answers: the lines of the walk of the pool-name
      table ("<oid> = <name>") and, by full OID, the text `get` returns. */
  datatype Agent = Agent(walk: seq<string>, table: map<string, string>)

  /** An unreachable group: walk() and get() only print the SNMP error, so the
      walk yields no line and every get yields nothing. */
  const Unreachable := Agent([], map[])

  function AgentOf(agents: map<string, Agent>, host: string): Agent
  {
    if host in agents then agents[host] else Unreachable
  }

  /** mib_to_gib: MiB to GiB, kept fractional. */
  function MibToGib(mib: real): (gib: real)
    ensures gib * 1024.0 == mib
  {
    mib / 1024.0
  }

  /** get_oid_num: the last dot-separated component of the stripped text
      before the first '=' of a walk line. */
  function OidNum(line: string): (r: string)
    ensures '.' !in r
    ensures var head := Strip(Split(line, '=')[0]);
      |r| <= |head| && head[|head| - |r|..] == r &&
      (|r| < |head| ==> head[|head| - |r| - 1] == '.')
  {
    LastComponent(Strip(Split(line, '=')[0]))
  }

  /** The text after the last '.' of `head` (all of it when there is none). */
  function LastComponent(head: string): (r: string)
    ensures '.' !in r
    ensures |r| <= |head| && head[|head| - |r|..] == r
    ensures |r| < |head| ==> head[|head| - |r| - 1] == '.'
  {
    SplitLast(head, '.');
    Split(head, '.')[|Split(head, '.')| - 1]
  }

  /** When `head` ends in "." + index, with no dot in index, the last component is index. */
  lemma {:induction false} LastComponentOf(head: string, index: string)
    requires '.' !in index && |index| < |head|
    requires head[|head| - |index|..] == index && head[|head| - |index| - 1] == '.'
    ensures LastComponent(head) == index
  {
    var r := LastComponent(head);
    if |r| < |index| {
      assert false;
    }
    if |r| > |index| {
      assert false;
    }
  }

  /** When the stripped key of a line ends in "." + index, the OID is that index. */
  lemma {:induction false} OidNumIsLastComponent(line: string, head: string, index: string)
    requires head == Strip(Split(line, '=')[0])
    requires '.' !in index && |index| < |head|
    requires head[|head| - |index|..] == index && head[|head| - |index| - 1] == '.'
    ensures OidNum(line) == index
  {
    LastComponentOf(head, index);
  }

  /** A walk line "<prefix>.<index> = <name>" is keyed by its index. */
  lemma {:induction false} OidNumOfWalkLine(prefix: string, index: string, name: string)
    requires '=' !in prefix && '=' !in index && '.' !in index
    requires prefix == [] || !IsSpace(prefix[0])
    requires index != [] && !IsSpace(index[|index| - 1])
    ensures OidNum(prefix + "." + index + " = " + name) == index
  {
    var head := prefix + "." + index;
    var line := prefix + "." + index + " = " + name;
    assert Strip(Split(line, '=')[0]) == head by {
      WalkLineKey(head, name);
      assert line == head + " = " + name;
      TightKey(prefix, index);
      StripPadded("", head, " ");
      assert "" + head + " " == head + " ";
    }
    assert head[|head| - |index|..] == index && head[|head| - |index| - 1] == '.';
    OidNumIsLastComponent(line, head, index);
  }

  lemma {:induction false} WalkLineKey(head: string, name: string)
    requires '=' !in head
    ensures Split(head + " = " + name, '=')[0] == head + " "
  {
    assert head + " = " + name == (head + " ") + ['='] + (" " + name);
    assert '=' !in head + " ";
    SplitAfter(head + " ", " " + name, '=');
  }

  lemma {:induction false} TightKey(prefix: string, index: string)
    requires prefix == [] || !IsSpace(prefix[0])
    requires index != [] && !IsSpace(index[|index| - 1])
    ensures Tight(prefix + "." + index) && prefix + "." + index != []
  {
  }

  // ------------------------------------------------------------ list_pools

  datatype Pool = Pool(oid: string, name: string)

  function Oids(pools: seq<Pool>): set<string>
  {
    set q | q in pools :: q.oid
  }

  /** The pools form a dictionary: no OID twice. */
  predicate DistinctOids(pools: seq<Pool>)
  {
    forall i, j :: 0 <= i < j < |pools| ==> pools[i].oid != pools[j].oid
  }

  /** `res[oid] = name` on a dictionary, kept as its items in insertion order:
      an existing key keeps its place and takes the new name, a new key goes last. */
  function Assign(pools: seq<Pool>, p: Pool): (r: seq<Pool>)
    requires DistinctOids(pools)
    ensures Oids(r) == Oids(pools) + {p.oid}
    ensures p in r
    ensures forall q :: q in r ==> q == p || (q in pools && q.oid != p.oid)
    ensures forall q :: q in pools && q.oid != p.oid ==> q in r
    ensures DistinctOids(r)
  {
    if pools == [] then [p]
    else
      ConsOids(pools);
      if pools[0].oid == p.oid then
        ConsDistinct(p, pools[1..]);
        [p] + pools[1..]
      else
        var rest := Assign(pools[1..], p);
        ConsDistinct(pools[0], rest);
        [pools[0]] + rest
  }

  /** A dictionary's first pool and the rest: distinct OIDs, the first one not among the rest. */
  lemma {:induction false} ConsOids(pools: seq<Pool>)
    requires pools != [] && DistinctOids(pools)
    ensures pools == [pools[0]] + pools[1..]
    ensures DistinctOids(pools[1..]) && pools[0].oid !in Oids(pools[1..])
  {
    assert pools == [pools[0]] + pools[1..];
    forall j | 0 <= j < |pools| - 1 ensures pools[1..][j] == pools[j + 1] {}
  }

  /** A pool whose OID is new put in front of a dictionary keeps the OIDs distinct. */
  lemma {:induction false} ConsDistinct(p: Pool, pools: seq<Pool>)
    requires DistinctOids(pools) && p.oid !in Oids(pools)
    ensures DistinctOids([p] + pools)
  {
    var r := [p] + pools;
    forall i, j | 0 <= i < j < |r| ensures r[i].oid != r[j].oid {
      assert r[j] == pools[j - 1];
      if i > 0 {
        assert r[i] == pools[i - 1];
      }
    }
  }

  /** The name a walk line gives: the stripped text after its first '='. */
  function LineName(line: string): (r: Result<string>)
    ensures r.Ok? <==> '=' in line
    ensures r.Fail? ==> r.error == IndexOutOfRange
  {
    SplitFirst(line, '=');
    var parts := Split(line, '=');
    if |parts| < 2 then Fail(IndexOutOfRange) else Ok(Strip(parts[1]))
  }

  /** What one walk line contributes to list_pools. */
  datatype WalkEntry = Unnamed | DefaultPool | Named(pool: Pool)

  function ParseWalkLine(line: string): (e: WalkEntry)
    ensures e.Unnamed? <==> '=' !in line
    ensures e.DefaultPool? <==> LineName(line) == Ok("default")
    ensures e.Named? ==> LineName(line) == Ok(e.pool.name) && e.pool.oid == OidNum(line)
  {
    match LineName(line)
    case Fail(_) => Unnamed
    case Ok(name) => if name == "default" then DefaultPool else Named(Pool(OidNum(line), name))
  }

  function Entries(lines: seq<string>): (es: seq<WalkEntry>)
    ensures |es| == |lines|
    ensures forall i :: 0 <= i < |lines| ==> es[i] == ParseWalkLine(lines[i])
  {
    seq(|lines|, i requires 0 <= i < |lines| => ParseWalkLine(lines[i]))
  }

  /** The dictionary list_pools builds from the parsed walk lines, in order;
      the first line without '=' raises IndexError. */
  function PoolsOf(es: seq<WalkEntry>): (r: Result<seq<Pool>>)
    ensures r.Ok? ==> DistinctOids(r.value)
  {
    if es == [] then Ok([])
    else
      var prev :- PoolsOf(es[..|es| - 1]);
      match es[|es| - 1]
      case Unnamed => Fail(IndexOutOfRange)
      case DefaultPool => Ok(prev)
      case Named(p) => Ok(Assign(prev, p))
  }

  /** A failure in the first lines is the outcome of the whole walk. */
  lemma {:induction false} PoolsOfFailurePersists(es: seq<WalkEntry>, i: nat)
    requires i <= |es| && PoolsOf(es[..i]).Fail?
    ensures PoolsOf(es) == PoolsOf(es[..i])
    decreases |es|
  {
    if i < |es| {
      var init := es[..|es| - 1];
      assert init[..i] == es[..i];
      PoolsOfFailurePersists(init, i);
    } else {
      assert es[..i] == es;
    }
  }

  /** One more walk line: a kept line assigns its pool, "default" is skipped,
      and a line without '=' ends the walk with an IndexError. */
  lemma {:induction false} PoolsOfStep(es: seq<WalkEntry>, i: nat)
    requires i < |es| && PoolsOf(es[..i]).Ok?
    ensures es[i].Unnamed? ==> PoolsOf(es) == Fail(IndexOutOfRange)
    ensures es[i].DefaultPool? ==> PoolsOf(es[..i + 1]) == PoolsOf(es[..i])
    ensures es[i].Named? ==> PoolsOf(es[..i + 1]) == Ok(Assign(PoolsOf(es[..i]).value, es[i].pool))
  {
    var prefix := es[..i + 1];
    assert prefix[..i] == es[..i];
    assert prefix[i] == es[i];
    if es[i].Unnamed? {
      PoolsOfFailurePersists(es, i + 1);
    }
  }

  /** list_pools fails, with an IndexError, exactly when some line has no '='. */
  lemma {:induction false} PoolsOfFails(es: seq<WalkEntry>)
    ensures PoolsOf(es).Fail? <==> Unnamed in es
    ensures PoolsOf(es).Fail? ==> PoolsOf(es).error == IndexOutOfRange
  {
    if es != [] {
      var init := es[..|es| - 1];
      PoolsOfFails(init);
      assert es == init + [es[|es| - 1]];
    }
  }

  /** Entry `i` is a line whose pool list_pools keeps. */
  predicate Kept(es: seq<WalkEntry>, i: int)
  {
    0 <= i < |es| && es[i].Named?
  }

  /** Entry `i` is the last kept line with pool `q`'s OID, and names `q`. */
  predicate LastNaming(es: seq<WalkEntry>, i: int, q: Pool)
  {
    Kept(es, i) && es[i].pool == q &&
    forall j :: i < j < |es| && Kept(es, j) ==> es[j].pool.oid != q.oid
  }

  /** One more entry on a walk that list_pools accepts: a kept line assigns its pool. */
  lemma {:induction false} PoolsOfOkStep(es: seq<WalkEntry>)
    requires es != [] && PoolsOf(es).Ok?
    ensures PoolsOf(es[..|es| - 1]).Ok?
    ensures var n := |es| - 1; var prev := PoolsOf(es[..n]).value;
      PoolsOf(es).value == if es[n].Named? then Assign(prev, es[n].pool) else prev
  {
  }

  /** Every listed pool is the pool some kept line names. */
  lemma {:induction false} PoolsOfKeepsNamed(es: seq<WalkEntry>)
    requires PoolsOf(es).Ok?
    ensures forall q :: q in PoolsOf(es).value ==> Named(q) in es
  {
    if es != [] {
      PoolsOfOkStep(es);
      PoolsOfKeepsNamed(es[..|es| - 1]);
      assert es == es[..|es| - 1] + [es[|es| - 1]];
    }
  }

  /** `k` is a listed OID exactly when some kept line has it. */
  lemma {:induction false} PoolsOfOid(es: seq<WalkEntry>, k: string)
    requires PoolsOf(es).Ok?
    ensures k in Oids(PoolsOf(es).value) <==> exists i :: Kept(es, i) && es[i].pool.oid == k
  {
    if es != [] {
      var n := |es| - 1;
      var init := es[..n];
      PoolsOfOkStep(es);
      PoolsOfOid(init, k);
      if exists i :: Kept(init, i) && init[i].pool.oid == k {
        var i :| Kept(init, i) && init[i].pool.oid == k;
        assert Kept(es, i) && es[i].pool.oid == k;
      }
      if exists i :: Kept(es, i) && es[i].pool.oid == k {
        var i :| Kept(es, i) && es[i].pool.oid == k;
        if i < n {
          assert Kept(init, i) && init[i].pool.oid == k;
        }
      }
    }
  }

  /** A last naming line stays the last one when the next line does not name its OID. */
  lemma {:induction false} LastNamingExtends(es: seq<WalkEntry>, i: int, q: Pool)
    requires es != [] && LastNaming(es[..|es| - 1], i, q)
    requires es[|es| - 1].Named? ==> es[|es| - 1].pool.oid != q.oid
    ensures LastNaming(es, i, q)
  {
    var init := es[..|es| - 1];
    forall j | i < j < |es| && Kept(es, j) ensures es[j].pool.oid != q.oid {
      if j < |init| {
        assert Kept(init, j) && init[j] == es[j];
      }
    }
    assert init[i] == es[i];
  }

  /** A listed pool carries the name of the last kept line with its OID. */
  lemma {:induction false} PoolsOfName(es: seq<WalkEntry>, q: Pool)
    requires PoolsOf(es).Ok? && q in PoolsOf(es).value
    ensures exists i :: LastNaming(es, i, q)
  {
    var n := |es| - 1;
    var init := es[..n];
    PoolsOfOkStep(es);
    if es[n].Named? && q == es[n].pool {
      assert LastNaming(es, n, q);
    } else {
      assert q in PoolsOf(init).value && (es[n].Named? ==> es[n].pool.oid != q.oid);
      PoolsOfName(init, q);
      var i :| LastNaming(init, i, q);
      LastNamingExtends(es, i, q);
    }
  }

  /** list_pools keeps one entry per OID, never a pool named "default", the
      OIDs of exactly the lines it keeps, and for each OID the name of the
      last kept line that carries it. */
  lemma {:induction false} PoolsOfListsKeptLines(lines: seq<string>)
    requires PoolsOf(Entries(lines)).Ok?
    ensures var es := Entries(lines); var ps := PoolsOf(es).value;
      DistinctOids(ps) &&
      (forall q :: q in ps ==> q.name != "default") &&
      (forall k :: k in Oids(ps) <==> exists i :: Kept(es, i) && OidNum(lines[i]) == k) &&
      (forall q :: q in ps ==> exists i :: LastNaming(es, i, q) && LineName(lines[i]) == Ok(q.name))
  {
    var es := Entries(lines);
    var ps := PoolsOf(es).value;
    PoolsOfKeepsNamed(es);
    forall q | q in ps ensures q.name != "default" {
      var i :| 0 <= i < |es| && es[i] == Named(q);
    }
    forall k {
      PoolsOfOid(es, k);
    }
    forall q | q in ps {
      PoolsOfName(es, q);
    }
  }

  /** A line is kept exactly when it has a '=' and names a pool other than "default". */
  lemma {:induction false} KeptLine(lines: seq<string>, i: int)
    requires 0 <= i < |lines|
    ensures Kept(Entries(lines), i) <==>
      LineName(lines[i]).Ok? && LineName(lines[i]).value != "default"
  {
  }

  /** list_pools: the pools of one SAN group, by OID, skipping "default". */
  method ListPools(walk: seq<string>) returns (r: Result<seq<Pool>>)
    ensures r == PoolsOf(Entries(walk))
  {
    ghost var es := Entries(walk);
    var res: seq<Pool> := [];
    var i := 0;
    while i < |walk|
      invariant 0 <= i <= |walk|
      invariant PoolsOf(es[..i]) == Ok(res)
    {
      var line := walk[i];
      PoolsOfStep(es, i);
      var parts := Split(line, '=');
      SplitFirst(line, '=');
      if |parts| < 2 {
        return Fail(IndexOutOfRange);
      }
      var name := Strip(parts[1]);
      if name != "default" {
        res := Assign(res, Pool(OidNum(line), name));
      }
      i := i + 1;
    }
    assert es[..i] == es;
    return Ok(res);
  }

  // ------------------------------------------------------------ get_stat_on_pools

  /** A per-pool statistic: the document field it fills, the OID prefix to
      which a pool's index is appended, and whether it is a volume in MiB. */
  datatype Stat = Stat(name: string, oidPrefix: string, toGib: bool)

  /** The statistics get_stats_on_all_pools fetches, in its order. */
  const Stats: seq<Stat> := [
    Stat("SANCountVol", "1.3.6.1.4.1.12740.16.1.2.1.16.1.", false),
    Stat("SANTotalVol", "1.3.6.1.4.1.12740.16.1.2.1.1.1.", true),
    Stat("SANFreeVol", "1.3.6.1.4.1.12740.16.1.2.1.3.1.", true),
    Stat("SANTotalReplication", "1.3.6.1.4.1.12740.16.1.2.1.4.1.", true),
    Stat("SANUsedReplication", "1.3.6.1.4.1.12740.16.1.2.1.5.1.", true),
    Stat("SANFreeReplication", "1.3.6.1.4.1.12740.16.1.2.1.6.1.", true),
    Stat("SANReservedSnapshot", "1.3.6.1.4.1.12740.16.1.2.1.9.1.", true),
    Stat("SANUsedSnapshot", "1.3.6.1.4.1.12740.16.1.2.1.10.1.", true),
    Stat("SANTotalDelegatedSpace", "1.3.6.1.4.1.12740.16.1.2.1.17.1.", true),
    Stat("SANUsedDelegatedSpace", "1.3.6.1.4.1.12740.16.1.2.1.18.1.", true),
    Stat("SANAllocatedVolSpace", "1.3.6.1.4.1.12740.16.1.2.1.21.1.", true),
    Stat("SANFreeThinProv", "1.3.6.1.4.1.12740.16.1.2.1.23.1.", true),
    Stat("SANFreeSnaphot", "1.3.6.1.4.1.12740.16.1.2.1.25.1.", true)
  ]

  /** The value stored for one pool: what get() answers for the full OID,
      converted to GiB for a volume. An unanswered get() is None: float(None)
      raises TypeError, while the volume count keeps None. */
  function Reading(table: map<string, string>, stat: Stat, oid: string): (r: Result<Value>)
    ensures var key := stat.oidPrefix + oid;
      r.Ok? <==> (stat.toGib ==> key in table && ParseDecimal(table[key]).Some?)
    ensures var key := stat.oidPrefix + oid;
      r.Ok? && stat.toGib ==> r.value.Num? && r.value.n * 1024.0 == ParseDecimal(table[key]).value
    ensures var key := stat.oidPrefix + oid;
      r.Ok? && !stat.toGib ==> r.value == if key in table then Str(table[key]) else Null
    ensures r.Fail? ==> r.error == if stat.oidPrefix + oid in table then NotANumber else TypeMismatch
  {
    var key := stat.oidPrefix + oid;
    var v := if key in table then Str(table[key]) else Null;
    if stat.toGib then
      var mib :- FloatOf(v);
      Ok(Num(MibToGib(mib)))
    else
      Ok(v)
  }

  /** What get_stat_on_pools computes: the statistic of every pool, keyed by
      OID, in pool order; the first pool whose value cannot be read ends it. */
  function StatOnPools(table: map<string, string>, stat: Stat, pools: seq<Pool>): (r: Result<map<string, Value>>)
    ensures r.Ok? <==> forall q :: q in pools ==> Reading(table, stat, q.oid).Ok?
    ensures r.Ok? ==> r.value.Keys == Oids(pools)
    ensures r.Ok? ==> forall k :: k in r.value ==> Reading(table, stat, k) == Ok(r.value[k])
  {
    if pools == [] then Ok(map[])
    else
      var init := pools[..|pools| - 1];
      var q := pools[|pools| - 1];
      assert pools == init + [q];
      var prev :- StatOnPools(table, stat, init);
      var v :- Reading(table, stat, q.oid);
      Ok(prev[q.oid := v])
  }

  lemma {:induction false} StatOnPoolsFailurePersists(table: map<string, string>, stat: Stat, pools: seq<Pool>, i: nat)
    requires i <= |pools| && StatOnPools(table, stat, pools[..i]).Fail?
    ensures StatOnPools(table, stat, pools) == StatOnPools(table, stat, pools[..i])
    decreases |pools|
  {
    if i < |pools| {
      var init := pools[..|pools| - 1];
      assert init[..i] == pools[..i];
      StatOnPoolsFailurePersists(table, stat, init, i);
    } else {
      assert pools[..i] == pools;
    }
  }

  /** One more pool: its reading is added under its OID, or its failure ends the run. */
  lemma {:induction false} StatOnPoolsStep(table: map<string, string>, stat: Stat, pools: seq<Pool>, i: nat)
    requires i < |pools| && StatOnPools(table, stat, pools[..i]).Ok?
    ensures var v := Reading(table, stat, pools[i].oid);
      v.Ok? ==> StatOnPools(table, stat, pools[..i + 1]) == Ok(StatOnPools(table, stat, pools[..i]).value[pools[i].oid := v.value])
    ensures var v := Reading(table, stat, pools[i].oid);
      v.Fail? ==> StatOnPools(table, stat, pools) == Fail(v.error)
  {
    var prefix := pools[..i + 1];
    assert prefix[..i] == pools[..i];
    assert prefix[i] == pools[i];
    if Reading(table, stat, pools[i].oid).Fail? {
      StatOnPoolsFailurePersists(table, stat, pools, i + 1);
    }
  }

  /** get_stat_on_pools: one get() per pool. */
  method GetStatOnPools(table: map<string, string>, pools: seq<Pool>, stat: Stat)
    returns (r: Result<map<string, Value>>)
    ensures r == StatOnPools(table, stat, pools)
  {
    var res: map<string, Value> := map[];
    var i := 0;
    while i < |pools|
      invariant 0 <= i <= |pools|
      invariant StatOnPools(table, stat, pools[..i]) == Ok(res)
    {
      var value := Reading(table, stat, pools[i].oid);
      StatOnPoolsStep(table, stat, pools, i);
      if value.Fail? {
        return Fail(value.error);
      }
      res := res[pools[i].oid := value.value];
      i := i + 1;
    }
    assert pools[..i] == pools;
    return Ok(res);
  }

  /** The fetched part of the two-dimensional table data[stat][oid],
      statistic after statistic. */
  function StatsTable(table: map<string, string>, pools: seq<Pool>, stats: seq<Stat>)
    : (r: Result<map<string, map<string, Value>>>)
    ensures r.Ok? ==> r.value.Keys == set s | s in stats :: s.name
    ensures r.Ok? ==> forall k :: k in r.value ==> r.value[k].Keys == Oids(pools)
    ensures r.Ok? <==> forall s :: s in stats ==> StatOnPools(table, s, pools).Ok?
  {
    if stats == [] then Ok(map[])
    else
      var init := stats[..|stats| - 1];
      var last := stats[|stats| - 1];
      assert stats == init + [last];
      assert forall s :: s in stats <==> s in init || s == last;
      var prev :- StatsTable(table, pools, init);
      var m :- StatOnPools(table, last, pools);
      Ok(prev[last.name := m])
  }

  lemma {:induction false} StatsTableFailurePersists(table: map<string, string>, pools: seq<Pool>, stats: seq<Stat>, i: nat)
    requires i <= |stats| && StatsTable(table, pools, stats[..i]).Fail?
    ensures StatsTable(table, pools, stats) == StatsTable(table, pools, stats[..i])
    decreases |stats|
  {
    if i < |stats| {
      var init := stats[..|stats| - 1];
      assert init[..i] == stats[..i];
      StatsTableFailurePersists(table, pools, init, i);
    } else {
      assert stats[..i] == stats;
    }
  }

  // ------------------------------------------------------------ per-pool derivation

  /** data[stat][oid], a KeyError when either key is absent. */
  function Cell(data: map<string, map<string, Value>>, stat: string, oid: string): (r: Result<Value>)
    ensures r.Ok? <==> stat in data && oid in data[stat]
    ensures r.Ok? ==> r.value == data[stat][oid]
  {
    if stat in data && oid in data[stat] then Ok(data[stat][oid]) else Fail(KeyMissing)
  }

  /** `a / b` on two document values: TypeError unless both are numbers,
      ZeroDivisionError on a zero divisor. */
  function Divide(a: Value, b: Value): (r: Result<real>)
    ensures r.Ok? <==> a.Num? && b.Num? && b.n != 0.0
    ensures r.Ok? ==> r.value * b.n == a.n
  {
    var x :- NumberOf(a);
    var y :- NumberOf(b);
    if y == 0.0 then Fail(DivisionByZero) else Ok(x / y)
  }

  /** The figures derived for one pool: its used volume, its fill ratio and
      whether it serves storage or only replication. */
  datatype Derived = Derived(used: real, ratio: real, usage: string)

  function DerivePool(data: map<string, map<string, Value>>, oid: string): (r: Result<Derived>)
    ensures r.Ok? ==> "SANTotalVol" in data && oid in data["SANTotalVol"]
    ensures r.Ok? ==> "SANFreeVol" in data && oid in data["SANFreeVol"]
    ensures r.Ok? ==> "SANCountVol" in data && oid in data["SANCountVol"]
    ensures r.Ok? ==> r.value.usage == "storage" || r.value.usage == "replication"
    ensures "SANTotalVol" !in data ==> r == Fail(KeyMissing)
  {
    var total :- Cell(data, "SANTotalVol", oid);
    var free :- Cell(data, "SANFreeVol", oid);
    var t :- NumberOf(total);
    var f :- NumberOf(free);
    var used := t - f;
    var share :- Divide(Num(used), total);
    var count :- Cell(data, "SANCountVol", oid);
    var volumes :- IntOf(count);
    Ok(Derived(used, share * 100.0, if volumes > 0 then "storage" else "replication"))
  }

  /** A pool's used and free volumes add up to its total. */
  lemma {:induction false} PoolVolumesAddUp(data: map<string, map<string, Value>>, oid: string)
    requires DerivePool(data, oid).Ok?
    ensures data["SANTotalVol"][oid].Num? && data["SANFreeVol"][oid].Num?
    ensures DerivePool(data, oid).value.used + data["SANFreeVol"][oid].n == data["SANTotalVol"][oid].n
  {
  }

  /** A pool's fill ratio is its used share of the total, in percent, and lies
      in [0, 100] when its free volume lies between 0 and its total. */
  lemma {:induction false} PoolRatioInRange(data: map<string, map<string, Value>>, oid: string)
    requires DerivePool(data, oid).Ok?
    ensures var t := data["SANTotalVol"][oid].n; var f := data["SANFreeVol"][oid].n;
      t != 0.0 && DerivePool(data, oid).value.ratio * t == (t - f) * 100.0 &&
      (0.0 <= f <= t ==> 0.0 <= DerivePool(data, oid).value.ratio <= 100.0)
  {
    var total := data["SANTotalVol"][oid];
    var free := data["SANFreeVol"][oid];
    var used := total.n - free.n;
    assert Divide(Num(used), total).Ok?;
    assert DerivePool(data, oid).value.ratio == Divide(Num(used), total).value * 100.0;
    ShareBounds(total.n, free.n);
  }

  /** The used share of a total lies in [0, 1] when the free part does. */
  lemma {:induction false} ShareBounds(t: real, f: real)
    requires t != 0.0
    ensures (t - f) / t * 100.0 * t == (t - f) * 100.0
    ensures 0.0 <= f <= t ==> 0.0 <= (t - f) / t * 100.0 <= 100.0
  {
    var share := (t - f) / t;
    assert share * t == t - f;
    if 0.0 <= f <= t {
      assert 0.0 <= share <= 1.0;
    }
  }

  /** A pool is tagged "replication" exactly when it holds no volume. */
  lemma {:induction false} PoolUsageTag(data: map<string, map<string, Value>>, oid: string)
    requires DerivePool(data, oid).Ok?
    ensures IntOf(data["SANCountVol"][oid]).Ok?
    ensures var u := DerivePool(data, oid).value.usage;
      (u == "replication" <==> IntOf(data["SANCountVol"][oid]).value <= 0) &&
      (u == "storage" <==> IntOf(data["SANCountVol"][oid]).value > 0)
  {
  }

  /** The three rows the derivation loop fills, each keyed by OID. */
  datatype DerivedRows = DerivedRows(used: map<string, Value>, ratio: map<string, Value>, usage: map<string, Value>)

  /** The rows SANUsedVol, SANVolRatio and SANPoolsUsage as the derivation
      loop of get_stats_on_all_pools fills them: empty at first, then one
      cell per pool, pool after pool; the first pool whose figures cannot be
      derived ends it. */
  function DeriveAll(data: map<string, map<string, Value>>, pools: seq<Pool>): (r: Result<DerivedRows>)
    ensures r.Ok? ==> (r.value.used.Keys == Oids(pools) && r.value.ratio.Keys == Oids(pools) &&
                       r.value.usage.Keys == Oids(pools))
  {
    if pools == [] then Ok(DerivedRows(map[], map[], map[]))
    else
      var init := pools[..|pools| - 1];
      var q := pools[|pools| - 1];
      assert pools == init + [q];
      var prev :- DeriveAll(data, init);
      var d :- DerivePool(data, q.oid);
      Ok(DerivedRows(prev.used[q.oid := Num(d.used)], prev.ratio[q.oid := Num(d.ratio)],
                     prev.usage[q.oid := Str(d.usage)]))
  }

  /** The derivation succeeds exactly when every pool's figures can be derived. */
  lemma {:induction false} DeriveAllOk(data: map<string, map<string, Value>>, pools: seq<Pool>)
    ensures DeriveAll(data, pools).Ok? <==> forall q :: q in pools ==> DerivePool(data, q.oid).Ok?
  {
    if pools != [] {
      var init := pools[..|pools| - 1];
      var q := pools[|pools| - 1];
      assert pools == init + [q];
      DeriveAllOk(data, init);
      assert forall p :: p in pools <==> p in init || p == q;
    }
  }

  /** Each pool's cells in the derived rows hold its own derived figures. */
  lemma {:induction false} DeriveAllCells(data: map<string, map<string, Value>>, pools: seq<Pool>, oid: string)
    requires DeriveAll(data, pools).Ok? && oid in Oids(pools)
    ensures DerivePool(data, oid).Ok?
    ensures var r := DeriveAll(data, pools).value;
      r.used[oid] == Num(DerivePool(data, oid).value.used) &&
      r.ratio[oid] == Num(DerivePool(data, oid).value.ratio) &&
      r.usage[oid] == Str(DerivePool(data, oid).value.usage)
  {
    assert |pools| > 0 by {
      var p :| p in pools && p.oid == oid;
    }
    var init := pools[..|pools| - 1];
    var q := pools[|pools| - 1];
    assert pools == init + [q];
    assert forall p :: p in pools <==> p in init || p == q;
    if oid != q.oid {
      DeriveAllCells(data, init, oid);
    }
  }

  /** One more pool: its derived figures are added under its OID, or its failure ends the loop. */
  lemma {:induction false} DeriveAllStep(data: map<string, map<string, Value>>, pools: seq<Pool>, i: nat)
    requires i < |pools| && DeriveAll(data, pools[..i]).Ok?
    ensures var d := DerivePool(data, pools[i].oid);
      d.Fail? ==> DeriveAll(data, pools) == Fail(d.error)
    ensures var d := DerivePool(data, pools[i].oid); var prev := DeriveAll(data, pools[..i]).value;
      var oid := pools[i].oid;
      d.Ok? ==> (DeriveAll(data, pools[..i + 1]) ==
                 Ok(DerivedRows(prev.used[oid := Num(d.value.used)], prev.ratio[oid := Num(d.value.ratio)],
                                prev.usage[oid := Str(d.value.usage)])))
  {
    var prefix := pools[..i + 1];
    assert prefix[..i] == pools[..i];
    assert prefix[i] == pools[i];
    if DerivePool(data, pools[i].oid).Fail? {
      DeriveAllFailurePersists(data, pools, i + 1);
    }
  }

  lemma {:induction false} DeriveAllFailurePersists(data: map<string, map<string, Value>>, pools: seq<Pool>, i: nat)
    requires i <= |pools| && DeriveAll(data, pools[..i]).Fail?
    ensures DeriveAll(data, pools) == DeriveAll(data, pools[..i])
    decreases |pools|
  {
    if i < |pools| {
      var init := pools[..|pools| - 1];
      assert init[..i] == pools[..i];
      DeriveAllFailurePersists(data, init, i);
    } else {
      assert pools[..i] == pools;
    }
  }

  /** The fetched table with the three derived rows added. */
  function WithDerived(data: map<string, map<string, Value>>, rows: DerivedRows): (r: map<string, map<string, Value>>)
    ensures r.Keys == data.Keys + {"SANUsedVol", "SANVolRatio", "SANPoolsUsage"}
    ensures r["SANUsedVol"] == rows.used && r["SANVolRatio"] == rows.ratio && r["SANPoolsUsage"] == rows.usage
    ensures forall k :: k in data && k !in {"SANUsedVol", "SANVolRatio", "SANPoolsUsage"} ==> r[k] == data[k]
  {
    data["SANUsedVol" := rows.used]["SANVolRatio" := rows.ratio]["SANPoolsUsage" := rows.usage]
  }

  // ------------------------------------------------------------ pool documents

  /** The document of one pool: its identity, then every row of the table at
      its OID (a KeyError if a row lacks it). */
  function PoolDoc(p: Pool, host: string, cluster: string, dc: string, data: map<string, map<string, Value>>)
    : (r: Result<Record>)
    ensures r.Ok? <==> forall k :: k in data ==> p.oid in data[k]
  {
    if forall k :: k in data ==> p.oid in data[k] then
      var identity := map["name" := Str(p.name), "host" := Str(host),
                          "cluster" := Str(cluster), "datacenter" := Str(dc)];
      Ok(identity + map k | k in data :: data[k][p.oid])
    else
      Fail(KeyMissing)
  }

  /** A pool's document holds its identity and, under each row's name, that row's cell for the pool. */
  lemma PoolDocFields(p: Pool, host: string, cluster: string, dc: string, data: map<string, map<string, Value>>)
    requires PoolDoc(p, host, cluster, dc, data).Ok?
    ensures var doc := PoolDoc(p, host, cluster, dc, data).value;
      doc.Keys == data.Keys + {"name", "host", "cluster", "datacenter"} &&
      (forall k :: k in data ==> doc[k] == data[k][p.oid])
  {
  }

  /** `PoolDoc` for the given SAN group and table, as a function of the pool. */
  function PoolDocOf(host: string, cluster: string, dc: string, data: map<string, map<string, Value>>)
    : Pool -> Result<Record>
  {
    p => PoolDoc(p, host, cluster, dc, data)
  }

  /** The documents of the pools, in order; the first pool missing from a row ends it. */
  function PoolDocsOf(pools: seq<Pool>, host: string, cluster: string, dc: string, data: map<string, map<string, Value>>)
    : (r: Result<seq<Record>>)
    ensures r.Ok? ==> |r.value| == |pools|
  {
    Collect(PoolDocOf(host, cluster, dc, data), pools)
  }

  /** What get_stats_on_all_pools returns for one SAN group: its pools, every
      statistic of every pool, the derived figures, then one document per pool. */
  function PoolDocs(agent: Agent, host: string, cluster: string, dc: string): (r: Result<seq<Record>>)
  {
    var pools :- PoolsOf(Entries(agent.walk));
    var data :- StatsTable(agent.table, pools, Stats);
    var rows :- DeriveAll(data, pools);
    PoolDocsOf(pools, host, cluster, dc, WithDerived(data, rows))
  }

  /** One more statistic: its values join the table, or its failure ends the whole loop. */
  lemma {:induction false} StatsTableStep(table: map<string, string>, pools: seq<Pool>, stats: seq<Stat>, i: nat)
    requires i < |stats| && StatsTable(table, pools, stats[..i]).Ok?
    ensures StatOnPools(table, stats[i], pools).Fail? ==>
      StatsTable(table, pools, stats) == Fail(StatOnPools(table, stats[i], pools).error)
    ensures StatOnPools(table, stats[i], pools).Ok? ==>
      StatsTable(table, pools, stats[..i + 1]) ==
        Ok(StatsTable(table, pools, stats[..i]).value[stats[i].name := StatOnPools(table, stats[i], pools).value])
  {
    var prefix := stats[..i + 1];
    assert prefix[..i] == stats[..i];
    assert prefix[i] == stats[i];
    if StatOnPools(table, stats[i], pools).Fail? {
      StatsTableFailurePersists(table, pools, stats, i + 1);
    }
  }

  /** The statistics loop of get_stats_on_all_pools: one get_stat_on_pools per statistic. */
  method FetchStats(table: map<string, string>, pools: seq<Pool>, stats: seq<Stat>)
    returns (r: Result<map<string, map<string, Value>>>)
    ensures r == StatsTable(table, pools, stats)
  {
    var data: map<string, map<string, Value>> := map[];
    var s := 0;
    while s < |stats|
      invariant 0 <= s <= |stats|
      invariant StatsTable(table, pools, stats[..s]) == Ok(data)
    {
      var values := GetStatOnPools(table, pools, stats[s]);
      StatsTableStep(table, pools, stats, s);
      if values.Fail? {
        return Fail(values.error);
      }
      data := data[stats[s].name := values.value];
      s := s + 1;
    }
    assert stats[..s] == stats;
    return Ok(data);
  }

  /** The derivation loop of get_stats_on_all_pools (lines 222-238). */
  method DeriveFigures(data: map<string, map<string, Value>>, pools: seq<Pool>)
    returns (r: Result<DerivedRows>)
    ensures r == DeriveAll(data, pools)
  {
    var used: map<string, Value> := map[];
    var ratio: map<string, Value> := map[];
    var usage: map<string, Value> := map[];
    var i := 0;
    while i < |pools|
      invariant 0 <= i <= |pools|
      invariant DeriveAll(data, pools[..i]) == Ok(DerivedRows(used, ratio, usage))
    {
      var oid := pools[i].oid;
      var d := DerivePool(data, oid);
      DeriveAllStep(data, pools, i);
      if d.Fail? {
        return Fail(d.error);
      }
      used := used[oid := Num(d.value.used)];
      ratio := ratio[oid := Num(d.value.ratio)];
      usage := usage[oid := Str(d.value.usage)];
      i := i + 1;
    }
    assert pools[..i] == pools;
    return Ok(DerivedRows(used, ratio, usage));
  }

  /** The document loop of get_stats_on_all_pools (lines 242-257). */
  method BuildPoolDocs(pools: seq<Pool>, host: string, cluster: string, dc: string, data: map<string, map<string, Value>>)
    returns (r: Result<seq<Record>>)
    ensures r == PoolDocsOf(pools, host, cluster, dc, data)
  {
    var res: seq<Record> := [];
    var i := 0;
    assert pools[..0] == [];
    while i < |pools|
      invariant 0 <= i <= |pools|
      invariant PoolDocsOf(pools[..i], host, cluster, dc, data) == Ok(res)
    {
      var doc := PoolDoc(pools[i], host, cluster, dc, data);
      CollectStep(PoolDocOf(host, cluster, dc, data), pools, i);
      if doc.Fail? {
        return Fail(doc.error);
      }
      res := res + [doc.value];
      i := i + 1;
    }
    assert pools[..i] == pools;
    return Ok(res);
  }

  /** get_stats_on_all_pools, with the agent's answers as input. */
  method GetStatsOnAllPools(agent: Agent, host: string, cluster: string, dc: string)
    returns (r: Result<seq<Record>>)
    ensures r == PoolDocs(agent, host, cluster, dc)
  {
    var pools := ListPools(agent.walk);
    if pools.Fail? {
      return Fail(pools.error);
    }
    var data := FetchStats(agent.table, pools.value, Stats);
    if data.Fail? {
      return Fail(data.error);
    }
    var rows := DeriveFigures(data.value, pools.value);
    if rows.Fail? {
      return Fail(rows.error);
    }
    r := BuildPoolDocs(pools.value, host, cluster, dc, WithDerived(data.value, rows.value));
  }

  // ------------------------------------------------------------ is_aggretable_stat, agg_stats

  /** The fields that identify a document or tag its usage. */
  const IdentityFields: set<string> := {"name", "host", "cluster", "datacenter", "SANPoolsUsage"}

  /** Whether a field is summed at host, cluster and datacenter level. */
  predicate IsAggregatableStat(name: string)
    ensures IsAggregatableStat(name) <==>
      name !in IdentityFields && forall i :: 0 <= i <= |name| - 5 ==> !OccursAt(name, "Ratio", i)
  {
    name !in IdentityFields && !HasSubstring(name, "Ratio")
  }

  /** A name without a capital R does not contain "Ratio". */
  lemma {:induction false} NoRatio(name: string)
    requires 'R' !in name
    ensures !HasSubstring(name, "Ratio")
  {
    if HasSubstring(name, "Ratio") {
      var i :| 0 <= i <= |name| - 5 && OccursAt(name, "Ratio", i);
      OccursAtStart(name, "Ratio", i);
    }
  }

  /** The volume fields are summed; the derived ratio and the usage tag are not. */
  lemma {:induction false} AggregatableFields()
    ensures IsAggregatableStat("SANTotalVol") && IsAggregatableStat("SANUsedVol")
    ensures IsAggregatableStat("SANFreeVol") && IsAggregatableStat("SANCountVol")
    ensures !IsAggregatableStat("SANVolRatio") && !IsAggregatableStat("SANPoolsUsage")
  {
    assert OccursAt("SANVolRatio", "Ratio", 6);
    NoRatio("SANTotalVol");
    NoRatio("SANUsedVol");
    NoRatio("SANFreeVol");
    NoRatio("SANCountVol");
  }

  /** The running total agg_stats builds for one field: float() of its value
      in every entry that has it, added in entry order. Both TypeError and
      ValueError from float() are reported as NotANumber here. */
  function FieldSum(data: seq<Record>, key: string): (r: Result<real>)
    ensures r.Fail? ==> r.error == NotANumber
  {
    if data == [] then Ok(0.0)
    else
      var prev :- FieldSum(data[..|data| - 1], key);
      var e := data[|data| - 1];
      if key !in e then Ok(prev)
      else if FloatOf(e[key]).Fail? then Fail(NotANumber)
      else Ok(prev + FloatOf(e[key]).value)
  }

  /** One more entry: its value is added when it has the field, or float() failing on it ends the sum. */
  lemma {:induction false} FieldSumStep(data: seq<Record>, key: string, i: nat)
    requires i < |data| && FieldSum(data[..i], key).Ok?
    ensures key in data[i] && FloatOf(data[i][key]).Fail? ==> FieldSum(data[..i + 1], key) == Fail(NotANumber)
    ensures key !in data[i] ==> FieldSum(data[..i + 1], key) == FieldSum(data[..i], key)
    ensures key in data[i] && FloatOf(data[i][key]).Ok? ==>
      FieldSum(data[..i + 1], key) == Ok(FieldSum(data[..i], key).value + FloatOf(data[i][key]).value)
  {
    var prefix := data[..i + 1];
    assert prefix[..|prefix| - 1] == data[..i];
    assert prefix[|prefix| - 1] == data[i];
  }

  lemma {:induction false} FieldSumFailurePersists(data: seq<Record>, key: string, i: nat)
    requires i <= |data| && FieldSum(data[..i], key).Fail?
    ensures FieldSum(data, key) == FieldSum(data[..i], key)
    decreases |data|
  {
    if i < |data| {
      var init := data[..|data| - 1];
      assert init[..i] == data[..i];
      FieldSumFailurePersists(init, key, i);
    } else {
      assert data[..i] == data;
    }
  }

  /** When every entry holds the field as a number, its running total is the
      sum of those numbers. */
  lemma {:induction false} FieldSumOfNumbers(data: seq<Record>, key: string)
    requires forall i :: 0 <= i < |data| ==> key in data[i] && data[i][key].Num?
    ensures FieldSum(data, key) == Ok(Sum(seq(|data|, i requires 0 <= i < |data| => data[i][key].n)))
  {
    if data != [] {
      var init := data[..|data| - 1];
      FieldSumOfNumbers(init, key);
      var xs := seq(|data|, i requires 0 <= i < |data| => data[i][key].n);
      assert xs[..|xs| - 1] == seq(|init|, i requires 0 <= i < |init| => init[i][key].n);
    }
  }

  /** The values of `key` in the entries that hold it, in entry order. */
  function Present(data: seq<Record>, key: string): (vs: seq<Value>)
    ensures |vs| <= |data|
  {
    if data == [] then []
    else
      var e := data[|data| - 1];
      Present(data[..|data| - 1], key) + (if key in e then [e[key]] else [])
  }

  /** The running total of a field succeeds exactly when float() accepts
      every value the entries hold for it, and is then the sum of those
      readings in entry order; entries without the field add nothing. */
  lemma {:induction false} FieldSumPresent(data: seq<Record>, key: string)
    ensures var c := Collect(FloatOf, Present(data, key));
      && (FieldSum(data, key).Ok? <==> c.Ok?)
      && (c.Ok? ==> FieldSum(data, key).value == Sum(c.value))
      && (FieldSum(data, key).Ok? <==> forall j :: 0 <= j < |Present(data, key)| ==> FloatOf(Present(data, key)[j]).Ok?)
    decreases |data|
  {
    CollectOk(FloatOf, Present(data, key));
    if data != [] {
      var init := data[..|data| - 1];
      var e := data[|data| - 1];
      FieldSumPresent(init, key);
      var p := Present(init, key);
      if key in e {
        var vs := p + [e[key]];
        assert Present(data, key) == vs;
        assert vs[..|vs| - 1] == p;
        var c := Collect(FloatOf, p);
        if c.Ok? && FloatOf(e[key]).Ok? {
          var xs := c.value + [FloatOf(e[key]).value];
          assert xs[..|xs| - 1] == c.value;
        }
      } else {
        assert Present(data, key) == p;
      }
    }
  }

  /** What agg_stats returns: nothing for no entries; otherwise, for every
      aggregatable field of the first entry, the sum over the entries that
      have it. */
  function AggSpec(data: seq<Record>): (r: Result<Record>)
    ensures r.Fail? ==> r.error == NotANumber
  {
    if data == [] then Ok(map[])
    else if forall k :: k in data[0] && IsAggregatableStat(k) ==> FieldSum(data, k).Ok? then
      Ok(Totals(data))
    else
      Fail(NotANumber)
  }

  /** The summed fields of a non-empty list of entries whose sums all succeed. */
  function Totals(data: seq<Record>): Record
    requires data != []
    requires forall k :: k in data[0] && IsAggregatableStat(k) ==> FieldSum(data, k).Ok?
  {
    map k | k in data[0] && IsAggregatableStat(k) :: Num(FieldSum(data, k).value)
  }

  /** agg_stats of no entries is the empty document. */
  lemma {:induction false} AggOfNothing()
    ensures AggSpec([]) == Ok(map[])
  {
  }

  /** agg_stats sums exactly the aggregatable fields of the first entry: no
      identity field and no ratio is ever summed, and a field absent from
      the first entry is dropped even when later entries have it. */
  lemma {:induction false} AggKeys(data: seq<Record>)
    requires AggSpec(data).Ok?
    ensures forall k :: k in AggSpec(data).value <==> data != [] && k in data[0] && IsAggregatableStat(k)
    ensures forall k :: k in AggSpec(data).value ==> k !in IdentityFields && !HasSubstring(k, "Ratio")
    ensures "SANVolRatio" !in AggSpec(data).value && "SANPoolsUsage" !in AggSpec(data).value
  {
    AggregatableFields();
  }

  /** Each summed field holds the sum of float() of that field over the
      entries that have it, in entry order. */
  lemma {:induction false} AggSums(data: seq<Record>, k: string)
    requires AggSpec(data).Ok? && k in AggSpec(data).value
    ensures Collect(FloatOf, Present(data, k)).Ok?
    ensures AggSpec(data).value[k] == Num(Sum(Collect(FloatOf, Present(data, k)).value))
  {
    FieldSumPresent(data, k);
  }

  /** agg_stats fails exactly when float() rejects a value that some entry
      holds for an aggregatable field of the first entry. */
  lemma {:induction false} AggFails(data: seq<Record>)
    ensures AggSpec(data).Fail? <==>
      data != [] && exists k, j :: k in data[0] && IsAggregatableStat(k) &&
                                   0 <= j < |Present(data, k)| && FloatOf(Present(data, k)[j]).Fail?
  {
    forall k | data != [] && k in data[0] && IsAggregatableStat(k) {
      FieldSumPresent(data, k);
    }
    if AggSpec(data).Fail? {
      var k :| k in data[0] && IsAggregatableStat(k) && FieldSum(data, k).Fail?;
      var j :| 0 <= j < |Present(data, k)| && FloatOf(Present(data, k)[j]).Fail?;
      assert data != [] && k in data[0] && IsAggregatableStat(k) &&
             0 <= j < |Present(data, k)| && FloatOf(Present(data, k)[j]).Fail?;
    }
  }

  /** The inner loop of agg_stats: the running total of one field. */
  method SumField(data: seq<Record>, key: string) returns (r: Result<real>)
    ensures r == FieldSum(data, key)
  {
    var sum := 0.0;
    var j := 0;
    while j < |data|
      invariant 0 <= j <= |data|
      invariant FieldSum(data[..j], key) == Ok(sum)
    {
      FieldSumStep(data, key, j);
      if key in data[j] {
        var x := FloatOf(data[j][key]);
        if x.Fail? {
          FieldSumFailurePersists(data, key, j + 1);
          return Fail(NotANumber);
        }
        sum := sum + x.value;
      }
      j := j + 1;
    }
    assert data[..j] == data;
    return Ok(sum);
  }

  /** agg_stats: one running total per aggregatable field of the first entry. */
  method AggStats(data: seq<Record>) returns (r: Result<Record>)
    ensures r == AggSpec(data)
  {
    var res: Record := map[];
    if data == [] {
      return Ok(res);
    }
    var todo := data[0].Keys;
    ghost var done: set<string> := {};
    while todo != {}
      invariant todo + done == data[0].Keys && todo !! done
      invariant forall k :: k in res <==> k in done && IsAggregatableStat(k)
      invariant forall k :: k in res ==> FieldSum(data, k).Ok? && res[k] == Num(FieldSum(data, k).value)
      decreases |todo|
    {
      var k :| k in todo;
      if k !in IdentityFields && !HasSubstring(k, "Ratio") {
        var sum := SumField(data, k);
        if sum.Fail? {
          return Fail(NotANumber);
        }
        res := res[k := Num(sum.value)];
      }
      todo := todo - {k};
      done := done + {k};
    }
    assert res == Totals(data);
    return Ok(res);
  }

  // ------------------------------------------------------------ exlude_replication_pools

  /** What exlude_replication_pools returns: the entries not tagged
      "replication", in order; an entry without a usage tag is a KeyError. */
  function StorageOnly(docs: seq<Record>): (r: Result<seq<Record>>)
    ensures r.Ok? <==> forall i :: 0 <= i < |docs| ==> "SANPoolsUsage" in docs[i]
    ensures r.Fail? ==> r.error == KeyMissing
  {
    if docs == [] then Ok([])
    else
      var prev :- StorageOnly(docs[..|docs| - 1]);
      var d := docs[|docs| - 1];
      var usage :- Get(d, "SANPoolsUsage");
      if usage != Str("replication") then Ok(prev + [d]) else Ok(prev)
  }

  /** One more entry: kept unless tagged "replication", or a missing tag ends the filter. */
  lemma {:induction false} StorageOnlyStep(docs: seq<Record>, i: nat)
    requires i < |docs| && StorageOnly(docs[..i]).Ok?
    ensures "SANPoolsUsage" !in docs[i] ==> StorageOnly(docs) == Fail(KeyMissing)
    ensures "SANPoolsUsage" in docs[i] ==>
      StorageOnly(docs[..i + 1]) ==
        Ok(if docs[i]["SANPoolsUsage"] != Str("replication") then StorageOnly(docs[..i]).value + [docs[i]]
           else StorageOnly(docs[..i]).value)
  {
    var prefix := docs[..i + 1];
    assert prefix[..i] == docs[..i];
    assert prefix[i] == docs[i];
    if "SANPoolsUsage" !in docs[i] {
      StorageOnlyFailurePersists(docs, i + 1);
    }
  }

  lemma {:induction false} StorageOnlyFailurePersists(docs: seq<Record>, i: nat)
    requires i <= |docs| && StorageOnly(docs[..i]).Fail?
    ensures StorageOnly(docs) == StorageOnly(docs[..i])
    decreases |docs|
  {
    if i < |docs| {
      var init := docs[..|docs| - 1];
      assert init[..i] == docs[..i];
      StorageOnlyFailurePersists(init, i);
    } else {
      assert docs[..i] == docs;
    }
  }

  /** The filter keeps exactly the entries whose usage is not "replication". */
  lemma {:induction false} StorageOnlyMembers(docs: seq<Record>)
    requires StorageOnly(docs).Ok?
    ensures forall d :: d in StorageOnly(docs).value <==>
      d in docs && d["SANPoolsUsage"] != Str("replication")
  {
    if docs != [] {
      var init := docs[..|docs| - 1];
      StorageOnlyMembers(init);
      assert docs == init + [docs[|docs| - 1]];
    }
  }

  /** The filter keeps the order of the entries: filtering a concatenation
      concatenates the filtered parts. */
  lemma {:induction false} StorageOnlyAppend(a: seq<Record>, b: seq<Record>)
    requires StorageOnly(a + b).Ok?
    ensures StorageOnly(a).Ok? && StorageOnly(b).Ok?
    ensures StorageOnly(a + b).value == StorageOnly(a).value + StorageOnly(b).value
    decreases |b|
  {
    assert forall i :: 0 <= i < |a| ==> a[i] == (a + b)[i];
    assert forall i :: 0 <= i < |b| ==> b[i] == (a + b)[|a| + i];
    if b == [] {
      assert a + b == a;
    } else {
      var b' := b[..|b| - 1];
      assert (a + b)[..|a + b| - 1] == a + b';
      StorageOnlyAppend(a, b');
    }
  }

  /** Filtering twice is filtering once. */
  lemma {:induction false} StorageOnlyIdempotent(docs: seq<Record>)
    requires StorageOnly(docs).Ok?
    ensures StorageOnly(StorageOnly(docs).value) == StorageOnly(docs)
  {
    StorageOnlyMembers(docs);
    var kept := StorageOnly(docs).value;
    KeepAll(kept);
  }

  /** Entries none of which is tagged "replication" all pass. */
  lemma {:induction false} KeepAll(docs: seq<Record>)
    requires forall d :: d in docs ==> "SANPoolsUsage" in d && d["SANPoolsUsage"] != Str("replication")
    ensures StorageOnly(docs) == Ok(docs)
  {
    if docs != [] {
      var init := docs[..|docs| - 1];
      KeepAll(init);
      assert init + [docs[|docs| - 1]] == docs;
    }
  }

  /** exlude_replication_pools: copies of the entries not used for replication only. */
  method ExcludeReplicationPools(docs: seq<Record>) returns (r: Result<seq<Record>>)
    ensures r == StorageOnly(docs)
  {
    var res: seq<Record> := [];
    var i := 0;
    while i < |docs|
      invariant 0 <= i <= |docs|
      invariant StorageOnly(docs[..i]) == Ok(res)
    {
      StorageOnlyStep(docs, i);
      if "SANPoolsUsage" !in docs[i] {
        return Fail(KeyMissing);
      }
      if docs[i]["SANPoolsUsage"] != Str("replication") {
        res := res + [docs[i]];
      }
      i := i + 1;
    }
    assert docs[..i] == docs;
    return Ok(res);
  }

  // ------------------------------------------------------------ host rollup

  /** `free - total * 5 / 100`: the free volume less the 5% kept back to
      protect the group's performance. */
  function SafetyMargin(free: Value, total: Value): (r: Result<real>)
    ensures r.Ok? <==> free.Num? && total.Num?
  {
    var t :- NumberOf(total);
    var f :- NumberOf(free);
    Ok(f - t * 5.0 / 100.0)
  }

  /** The fields the host rollup recomputes. */
  const VolumeFields: set<string> := {"SANVolRatio", "SANTotalVol", "SANUsedVol", "SANFreeVol"}

  /** The ratio step of a host (lines 318-326): the ratio of the summed
      volumes, or every volume zeroed when no storage pool was summed. */
  function HostRatio(d: Record): (r: Result<Record>)
    ensures r.Ok? ==> "SANTotalVol" in r.value && "SANVolRatio" in r.value
    ensures r.Ok? ==> forall k :: k in d ==> k in r.value
    ensures r.Ok? ==> forall k :: k in d && k !in VolumeFields ==> r.value[k] == d[k]
  {
    if "SANUsedVol" in d && "SANTotalVol" in d then
      var share :- Divide(d["SANUsedVol"], d["SANTotalVol"]);
      Ok(d["SANVolRatio" := Num(share * 100.0)])
    else
      Ok(d["SANVolRatio" := Num(0.0)]["SANTotalVol" := Num(0.0)]
          ["SANUsedVol" := Num(0.0)]["SANFreeVol" := Num(0.0)])
  }

  /** The host document made from the sums of its storage pools (lines 315-331). */
  function FinishHost(agg: Record, host: string, cluster: string, dc: string): (r: Result<Record>)
    ensures r.Ok? ==> "name" in r.value && r.value["name"] == Str(host)
    ensures r.Ok? ==> "cluster" in r.value && r.value["cluster"] == Str(cluster)
    ensures r.Ok? ==> "datacenter" in r.value && r.value["datacenter"] == Str(dc)
    ensures r.Ok? ==> forall k :: k in agg ==> k in r.value
  {
    var d := agg["name" := Str(host)]["cluster" := Str(cluster)]["datacenter" := Str(dc)];
    var rated :- HostRatio(d);
    var free :- Get(rated, "SANFreeVol");
    var margin :- SafetyMargin(free, rated["SANTotalVol"]);
    Ok(rated["SANFreeVol" := Num(margin)])
  }

  /** The document of a host with no storage pool: every volume and the ratio are 0.0. */
  function IdleHost(host: string, cluster: string, dc: string): Record
  {
    map["name" := Str(host), "cluster" := Str(cluster), "datacenter" := Str(dc),
        "SANVolRatio" := Num(0.0), "SANTotalVol" := Num(0.0),
        "SANUsedVol" := Num(0.0), "SANFreeVol" := Num(0.0)]
  }

  /** A host whose sums lack the used or the total volume (no storage pool)
      gets 0.0 for its ratio and its total, used and free volumes. */
  lemma {:induction false} HostWithoutStorage(agg: Record, host: string, cluster: string, dc: string)
    requires "SANUsedVol" !in agg || "SANTotalVol" !in agg
    ensures FinishHost(agg, host, cluster, dc).Ok?
    ensures var r := FinishHost(agg, host, cluster, dc).value;
      r["SANVolRatio"] == Num(0.0) && r["SANTotalVol"] == Num(0.0) &&
      r["SANUsedVol"] == Num(0.0) && r["SANFreeVol"] == Num(0.0)
    ensures agg == map[] ==> FinishHost(agg, host, cluster, dc) == Ok(IdleHost(host, cluster, dc))
  {
    var d := agg["name" := Str(host)]["cluster" := Str(cluster)]["datacenter" := Str(dc)];
    assert "SANUsedVol" !in d || "SANTotalVol" !in d;
    if agg == map[] {
      var z := d["SANVolRatio" := Num(0.0)]["SANTotalVol" := Num(0.0)]
        ["SANUsedVol" := Num(0.0)]["SANFreeVol" := Num(0.0)];
      assert z["SANFreeVol" := Num(0.0 - 0.0 * 5.0 / 100.0)] == IdleHost(host, cluster, dc);
    }
  }

  /** The host ratio is recomputed from the summed used and total volumes,
      never summed from the pools' own ratios; the free volume loses 5% of
      the total. */
  lemma {:induction false} HostFromSums(agg: Record, host: string, cluster: string, dc: string)
    requires "SANUsedVol" in agg && "SANTotalVol" in agg
    requires FinishHost(agg, host, cluster, dc).Ok?
    ensures var r := FinishHost(agg, host, cluster, dc).value;
      agg["SANUsedVol"].Num? && agg["SANTotalVol"].Num? && agg["SANTotalVol"].n != 0.0 &&
      r["SANVolRatio"] == Num(agg["SANUsedVol"].n / agg["SANTotalVol"].n * 100.0) &&
      r["SANTotalVol"] == agg["SANTotalVol"] && r["SANUsedVol"] == agg["SANUsedVol"] &&
      "SANFreeVol" in agg && agg["SANFreeVol"].Num? &&
      r["SANFreeVol"] == Num(agg["SANFreeVol"].n - agg["SANTotalVol"].n * 5.0 / 100.0)
  {
    var d := agg["name" := Str(host)]["cluster" := Str(cluster)]["datacenter" := Str(dc)];
    assert d["SANUsedVol"] == agg["SANUsedVol"] && d["SANTotalVol"] == agg["SANTotalVol"];
    assert "SANFreeVol" in agg by {
      assert "SANFreeVol" in HostRatio(d).value;
    }
  }

  /** Total 100 GiB with 50 GiB free and 50 GiB used: ratio 50%, and 45 GiB free once 5% is held back. */
  lemma {:induction false} HostMarginExample()
    ensures var agg := map["SANTotalVol" := Num(100.0), "SANFreeVol" := Num(50.0), "SANUsedVol" := Num(50.0)];
      var r := FinishHost(agg, "san1", "c1", "dc1");
      r.Ok? && r.value["SANFreeVol"] == Num(45.0) && r.value["SANVolRatio"] == Num(50.0)
  {
  }

  /** A SAN group whose walk lists no pool yields no pool document. */
  lemma {:induction false} SilentAgentHasNoPools(agent: Agent, host: string, cluster: string, dc: string)
    requires agent.walk == []
    ensures PoolDocs(agent, host, cluster, dc) == Ok([])
  {
    assert Entries(agent.walk) == [];
    forall s | s in Stats
      ensures StatOnPools(agent.table, s, []).Ok?
    {
    }
  }

  /** A SAN group that cannot be reached (every SNMP query answers nothing)
      is reported as a host with no storage: all of its volumes are 0.0. */
  lemma {:induction false} UnreachableHostIsIdle(agents: map<string, Agent>, host: string, cluster: string, dc: string)
    requires host !in agents
    ensures HostDoc(agents, host, cluster, dc) == Ok(IdleHost(host, cluster, dc))
  {
    SilentAgentHasNoPools(Unreachable, host, cluster, dc);
    HostWithoutStorage(map[], host, cluster, dc);
  }

  /** Summing a single idle host gives zero total, used and free volumes and
      nothing else. */
  lemma {:induction false} IdleHostSums(host: string, cluster: string, dc: string)
    ensures AggSpec([IdleHost(host, cluster, dc)]) ==
      Ok(map["SANTotalVol" := Num(0.0), "SANUsedVol" := Num(0.0), "SANFreeVol" := Num(0.0)])
  {
    AggregatableFields();
    var data := [IdleHost(host, cluster, dc)];
    assert data[..0] == [];
    var sums := map["SANTotalVol" := Num(0.0), "SANUsedVol" := Num(0.0), "SANFreeVol" := Num(0.0)];
    forall k | k in data[0] && IsAggregatableStat(k)
      ensures k in sums && FieldSum(data, k) == Ok(0.0)
    {
      assert k in sums;
      IdleFieldSum(host, cluster, dc, k);
    }
    assert AggSpec(data) == Ok(Totals(data));
    assert Totals(data).Keys == sums.Keys;
    assert Totals(data) == sums;
  }

  /** Each volume of an idle host sums to zero. */
  lemma {:induction false} IdleFieldSum(host: string, cluster: string, dc: string, k: string)
    requires k == "SANTotalVol" || k == "SANUsedVol" || k == "SANFreeVol"
    ensures FieldSum([IdleHost(host, cluster, dc)], k) == Ok(0.0)
  {
    var data := [IdleHost(host, cluster, dc)];
    assert data[..0] == [];
  }

  /** The host rollup, updating the host document in place. */
  method RollUpHost(agg: Record, host: string, cluster: string, dc: string) returns (r: Result<Record>)
    ensures r == FinishHost(agg, host, cluster, dc)
  {
    var hostData := agg;
    hostData := hostData["name" := Str(host)];
    hostData := hostData["cluster" := Str(cluster)];
    hostData := hostData["datacenter" := Str(dc)];
    if "SANUsedVol" in hostData && "SANTotalVol" in hostData {
      var share := Divide(hostData["SANUsedVol"], hostData["SANTotalVol"]);
      if share.Fail? {
        return Fail(share.error);
      }
      hostData := hostData["SANVolRatio" := Num(share.value * 100.0)];
    } else {
      hostData := hostData["SANVolRatio" := Num(0.0)];
      hostData := hostData["SANTotalVol" := Num(0.0)];
      hostData := hostData["SANUsedVol" := Num(0.0)];
      hostData := hostData["SANFreeVol" := Num(0.0)];
    }
    if "SANFreeVol" !in hostData {
      return Fail(KeyMissing);
    }
    var margin := SafetyMargin(hostData["SANFreeVol"], hostData["SANTotalVol"]);
    if margin.Fail? {
      return Fail(margin.error);
    }
    hostData := hostData["SANFreeVol" := Num(margin.value)];
    return Ok(hostData);
  }

  /** One SAN group's document: its pools, less the replication pools, summed, then finished. */
  function HostDoc(agents: map<string, Agent>, host: string, cluster: string, dc: string): (r: Result<Record>)
    ensures r.Ok? ==> "name" in r.value && r.value["name"] == Str(host)
    ensures r.Ok? ==> "cluster" in r.value && r.value["cluster"] == Str(cluster)
    ensures r.Ok? ==> "datacenter" in r.value && r.value["datacenter"] == Str(dc)
  {
    var pools :- PoolDocs(AgentOf(agents, host), host, cluster, dc);
    var storage :- StorageOnly(pools);
    var agg :- AggSpec(storage);
    FinishHost(agg, host, cluster, dc)
  }

  /** `HostDoc` for the given cluster, as a function of the SAN group. */
  function HostDocOf(agents: map<string, Agent>, cluster: string, dc: string): string -> Result<Record>
  {
    host => HostDoc(agents, host, cluster, dc)
  }

  /** What get_stats_on_all_hosts returns for the hosts of one cluster, in order. */
  function HostsSpec(agents: map<string, Agent>, hosts: seq<string>, cluster: string, dc: string)
    : (r: Result<seq<Record>>)
    ensures r.Ok? ==> |r.value| == |hosts|
  {
    Collect(HostDocOf(agents, cluster, dc), hosts)
  }

  /** One pass of the loop of get_stats_on_all_hosts. */
  method GetStatsOnHost(agents: map<string, Agent>, host: string, cluster: string, dc: string)
    returns (r: Result<Record>)
    ensures r == HostDoc(agents, host, cluster, dc)
  {
    var pools := GetStatsOnAllPools(AgentOf(agents, host), host, cluster, dc);
    if pools.Fail? {
      return Fail(pools.error);
    }
    var storage := ExcludeReplicationPools(pools.value);
    if storage.Fail? {
      return Fail(storage.error);
    }
    var agg := AggStats(storage.value);
    if agg.Fail? {
      return Fail(agg.error);
    }
    r := RollUpHost(agg.value, host, cluster, dc);
  }

  /** A cluster of one host reports that host's document alone. */
  lemma {:induction false} OneHost(agents: map<string, Agent>, host: string, cluster: string, dc: string, doc: Record)
    requires HostDoc(agents, host, cluster, dc) == Ok(doc)
    ensures HostsSpec(agents, [host], cluster, dc) == Ok([doc])
  {
    CollectOne(HostDocOf(agents, cluster, dc), host);
  }

  /** get_stats_on_all_hosts. */
  method GetStatsOnAllHosts(agents: map<string, Agent>, hosts: seq<string>, cluster: string, dc: string)
    returns (r: Result<seq<Record>>)
    ensures r == HostsSpec(agents, hosts, cluster, dc)
  {
    var res: seq<Record> := [];
    var i := 0;
    assert hosts[..0] == [];
    while i < |hosts|
      invariant 0 <= i <= |hosts|
      invariant HostsSpec(agents, hosts[..i], cluster, dc) == Ok(res)
    {
      var hostData := GetStatsOnHost(agents, hosts[i], cluster, dc);
      CollectStep(HostDocOf(agents, cluster, dc), hosts, i);
      if hostData.Fail? {
        return Fail(hostData.error);
      }
      res := res + [hostData.value];
      i := i + 1;
    }
    assert hosts[..i] == hosts;
    return Ok(res);
  }

  // ------------------------------------------------------------ cluster and datacenter rollups

  /** A cluster of the configuration: its name and its SAN groups, in order. */
  datatype ClusterConf = ClusterConf(name: string, hosts: seq<string>)

  /** A datacenter of the configuration: its name and its clusters, in order. */
  datatype DcConf = DcConf(name: string, clusters: seq<ClusterConf>)

  /** The cluster document as lines 353-358 build it: the ratio of the summed
      volumes, dividing by a zero total. */
  function FinishClusterAsWritten(agg: Record, cluster: string, dc: string): (r: Result<Record>)
    ensures r.Ok? ==> "name" in r.value && r.value["name"] == Str(cluster)
    ensures r.Ok? ==> "datacenter" in r.value && r.value["datacenter"] == Str(dc)
    ensures r.Fail? <==>
      "SANUsedVol" in agg && "SANTotalVol" in agg && Divide(agg["SANUsedVol"], agg["SANTotalVol"]).Fail?
  {
    var d := agg["name" := Str(cluster)]["datacenter" := Str(dc)];
    if "SANUsedVol" in d && "SANTotalVol" in d then
      var share :- Divide(d["SANUsedVol"], d["SANTotalVol"]);
      Ok(d["SANVolRatio" := Num(share * 100.0)])
    else
      Ok(d)
  }

  /** The cluster document with a zero total giving ratio 0.0, as the host
      level does for a host without storage. */
  function FinishCluster(agg: Record, cluster: string, dc: string): (r: Result<Record>)
    ensures r.Ok? ==> "name" in r.value && r.value["name"] == Str(cluster)
    ensures r.Ok? ==> "datacenter" in r.value && r.value["datacenter"] == Str(dc)
  {
    var d := agg["name" := Str(cluster)]["datacenter" := Str(dc)];
    if "SANUsedVol" in d && "SANTotalVol" in d then
      if d["SANTotalVol"] == Num(0.0) then
        Ok(d["SANVolRatio" := Num(0.0)])
      else
        var share :- Divide(d["SANUsedVol"], d["SANTotalVol"]);
        Ok(d["SANVolRatio" := Num(share * 100.0)])
    else
      Ok(d)
  }

  /** The corrected cluster rollup differs from the code only where the code
      divides by a zero total. */
  lemma {:induction false} FinishClusterAgrees(agg: Record, cluster: string, dc: string)
    requires FinishClusterAsWritten(agg, cluster, dc).Ok?
    ensures FinishCluster(agg, cluster, dc) == FinishClusterAsWritten(agg, cluster, dc)
  {
  }

  /** The cluster ratio is recomputed from the summed used and total volumes. */
  lemma {:induction false} ClusterFromSums(agg: Record, cluster: string, dc: string)
    requires "SANUsedVol" in agg && "SANTotalVol" in agg
    requires agg["SANUsedVol"].Num? && agg["SANTotalVol"].Num?
    requires FinishCluster(agg, cluster, dc).Ok?
    ensures var r := FinishCluster(agg, cluster, dc).value;
      r["SANVolRatio"] == Num(if agg["SANTotalVol"].n == 0.0 then 0.0
                              else agg["SANUsedVol"].n / agg["SANTotalVol"].n * 100.0)
  {
    var d := agg["name" := Str(cluster)]["datacenter" := Str(dc)];
    assert d["SANUsedVol"] == agg["SANUsedVol"] && d["SANTotalVol"] == agg["SANTotalVol"];
  }

  /** The cluster document as lines 348-358 build it. */
  function ClusterDocAsWritten(agents: map<string, Agent>, c: ClusterConf, dc: string): (r: Result<Record>)
    ensures r.Ok? ==> r == ClusterDoc(agents, c, dc)
  {
    var hosts :- HostsSpec(agents, c.hosts, c.name, dc);
    var agg :- AggSpec(hosts);
    var d := FinishClusterAsWritten(agg, c.name, dc);
    if d.Ok? then FinishClusterAgrees(agg, c.name, dc); d else d
  }

  /** One cluster's document: its hosts' documents, summed, then finished. */
  function ClusterDoc(agents: map<string, Agent>, c: ClusterConf, dc: string): (r: Result<Record>)
    ensures r.Ok? ==> "name" in r.value && r.value["name"] == Str(c.name)
    ensures r.Ok? ==> "datacenter" in r.value && r.value["datacenter"] == Str(dc)
  {
    var hosts :- HostsSpec(agents, c.hosts, c.name, dc);
    var agg :- AggSpec(hosts);
    FinishCluster(agg, c.name, dc)
  }

  /** A cluster whose only SAN group is unreachable: the host level reports
      it with zero volumes, and the cluster level as written then divides
      0.0 by 0.0 where the corrected rollup reports ratio 0.0. */
  lemma {:induction false} ClusterZeroTotalCounterexample(agents: map<string, Agent>, host: string, cluster: string, dc: string)
    requires host !in agents
    ensures ClusterDocAsWritten(agents, ClusterConf(cluster, [host]), dc) == Fail(DivisionByZero)
    ensures ClusterDoc(agents, ClusterConf(cluster, [host]), dc).Ok?
    ensures ClusterDoc(agents, ClusterConf(cluster, [host]), dc).value["SANVolRatio"] == Num(0.0)
  {
    var idle := IdleHost(host, cluster, dc);
    var zero := map["SANTotalVol" := Num(0.0), "SANUsedVol" := Num(0.0), "SANFreeVol" := Num(0.0)];
    var c := ClusterConf(cluster, [host]);
    UnreachableHostIsIdle(agents, host, cluster, dc);
    OneHost(agents, host, cluster, dc, idle);
    IdleHostSums(host, cluster, dc);
    assert HostsSpec(agents, c.hosts, c.name, dc) == Ok([idle]);
    assert AggSpec([idle]) == Ok(zero);
    ZeroTotalRollups(cluster, dc);
    assert ClusterDocAsWritten(agents, c, dc) == FinishClusterAsWritten(zero, cluster, dc);
    assert ClusterDoc(agents, c, dc) == FinishCluster(zero, cluster, dc);
  }

  /** Sums of zero volumes: the code divides 0.0 by 0.0, the corrected rollup reports ratio 0.0. */
  lemma {:induction false} ZeroTotalRollups(cluster: string, dc: string)
    ensures var zero := map["SANTotalVol" := Num(0.0), "SANUsedVol" := Num(0.0), "SANFreeVol" := Num(0.0)];
      FinishClusterAsWritten(zero, cluster, dc) == Fail(DivisionByZero) &&
      FinishCluster(zero, cluster, dc).Ok? && FinishCluster(zero, cluster, dc).value["SANVolRatio"] == Num(0.0)
  {
    var zero := map["SANTotalVol" := Num(0.0), "SANUsedVol" := Num(0.0), "SANFreeVol" := Num(0.0)];
    var d := zero["name" := Str(cluster)]["datacenter" := Str(dc)];
    assert d["SANUsedVol"] == Num(0.0) && d["SANTotalVol"] == Num(0.0);
  }

  /** `ClusterDoc` for the given datacenter, as a function of the cluster. */
  function ClusterDocOf(agents: map<string, Agent>, dc: string): ClusterConf -> Result<Record>
  {
    c => ClusterDoc(agents, c, dc)
  }

  /** What get_stats_on_all_clusters returns for one datacenter. */
  function ClustersSpec(agents: map<string, Agent>, clusters: seq<ClusterConf>, dc: string)
    : (r: Result<seq<Record>>)
    ensures r.Ok? ==> |r.value| == |clusters|
  {
    Collect(ClusterDocOf(agents, dc), clusters)
  }

  /** The cluster rollup, updating the cluster document in place. */
  method RollUpCluster(agg: Record, cluster: string, dc: string) returns (r: Result<Record>)
    ensures r == FinishCluster(agg, cluster, dc)
  {
    var clusterData := agg;
    clusterData := clusterData["name" := Str(cluster)];
    clusterData := clusterData["datacenter" := Str(dc)];
    if "SANUsedVol" in clusterData && "SANTotalVol" in clusterData {
      if clusterData["SANTotalVol"] == Num(0.0) {
        clusterData := clusterData["SANVolRatio" := Num(0.0)];
      } else {
        var share := Divide(clusterData["SANUsedVol"], clusterData["SANTotalVol"]);
        if share.Fail? {
          return Fail(share.error);
        }
        clusterData := clusterData["SANVolRatio" := Num(share.value * 100.0)];
      }
    }
    return Ok(clusterData);
  }

  /** One pass of the loop of get_stats_on_all_clusters. */
  method GetStatsOnCluster(agents: map<string, Agent>, c: ClusterConf, dc: string) returns (r: Result<Record>)
    ensures r == ClusterDoc(agents, c, dc)
  {
    var hosts := GetStatsOnAllHosts(agents, c.hosts, c.name, dc);
    if hosts.Fail? {
      return Fail(hosts.error);
    }
    var agg := AggStats(hosts.value);
    if agg.Fail? {
      return Fail(agg.error);
    }
    r := RollUpCluster(agg.value, c.name, dc);
  }

  /** get_stats_on_all_clusters, with the corrected cluster rollup. */
  method GetStatsOnAllClusters(agents: map<string, Agent>, d: DcConf) returns (r: Result<seq<Record>>)
    ensures r == ClustersSpec(agents, d.clusters, d.name)
  {
    var res: seq<Record> := [];
    var i := 0;
    assert d.clusters[..0] == [];
    while i < |d.clusters|
      invariant 0 <= i <= |d.clusters|
      invariant ClustersSpec(agents, d.clusters[..i], d.name) == Ok(res)
    {
      var clusterData := GetStatsOnCluster(agents, d.clusters[i], d.name);
      CollectStep(ClusterDocOf(agents, d.name), d.clusters, i);
      if clusterData.Fail? {
        return Fail(clusterData.error);
      }
      res := res + [clusterData.value];
      i := i + 1;
    }
    assert d.clusters[..i] == d.clusters;
    return Ok(res);
  }

  /** The datacenter document as lines 379-383 build it. The guard
      `'SANUsedVol' in dc_data and 'SANTotalVol' and dc_data` tests the
      non-empty string 'SANTotalVol' for truth instead of its presence. */
  function FinishDcAsWritten(agg: Record, dc: string): (r: Result<Record>)
    ensures r.Ok? ==> "name" in r.value && r.value["name"] == Str(dc)
    ensures r.Fail? ==> "SANUsedVol" in agg
    ensures "SANUsedVol" in agg && "SANTotalVol" !in agg ==> r == Fail(KeyMissing)
  {
    var d := agg["name" := Str(dc)];
    if "SANUsedVol" in d && |d| > 0 then
      var total :- Get(d, "SANTotalVol");
      var share :- Divide(d["SANUsedVol"], total);
      Ok(d["SANVolRatio" := Num(share * 100.0)])
    else
      Ok(d)
  }

  /** The datacenter document with both volumes checked and a zero total giving ratio 0.0. */
  function FinishDc(agg: Record, dc: string): (r: Result<Record>)
    ensures r.Ok? ==> "name" in r.value && r.value["name"] == Str(dc)
  {
    var d := agg["name" := Str(dc)];
    if "SANUsedVol" in d && "SANTotalVol" in d then
      if d["SANTotalVol"] == Num(0.0) then
        Ok(d["SANVolRatio" := Num(0.0)])
      else
        var share :- Divide(d["SANUsedVol"], d["SANTotalVol"]);
        Ok(d["SANVolRatio" := Num(share * 100.0)])
    else
      Ok(d)
  }

  /** The corrected datacenter rollup differs from the code only where the
      code looks up a missing total or divides by a zero total. */
  lemma {:induction false} FinishDcAgrees(agg: Record, dc: string)
    requires FinishDcAsWritten(agg, dc).Ok?
    ensures FinishDc(agg, dc) == FinishDcAsWritten(agg, dc)
  {
  }

  /** Sums holding a used volume but no total: the code raises KeyError where
      the corrected rollup leaves the ratio out; with a zero total the code
      divides by zero where the corrected rollup gives 0.0. */
  lemma {:induction false} DcGuardCounterexample()
    ensures FinishDcAsWritten(map["SANUsedVol" := Num(1.0)], "dc1") == Fail(KeyMissing)
    ensures FinishDc(map["SANUsedVol" := Num(1.0)], "dc1") ==
      Ok(map["SANUsedVol" := Num(1.0), "name" := Str("dc1")])
    ensures FinishDcAsWritten(map["SANUsedVol" := Num(0.0), "SANTotalVol" := Num(0.0)], "dc1") ==
      Fail(DivisionByZero)
    ensures FinishDc(map["SANUsedVol" := Num(0.0), "SANTotalVol" := Num(0.0)], "dc1").Ok?
  {
    var d := map["SANUsedVol" := Num(1.0)]["name" := Str("dc1")];
    assert "SANTotalVol" !in d;
    assert d == map["SANUsedVol" := Num(1.0), "name" := Str("dc1")];
  }

  /** One datacenter's document: its clusters' documents, summed, then finished. */
  function DcDoc(agents: map<string, Agent>, d: DcConf): (r: Result<Record>)
    ensures r.Ok? ==> "name" in r.value && r.value["name"] == Str(d.name)
  {
    var clusters :- ClustersSpec(agents, d.clusters, d.name);
    var agg :- AggSpec(clusters);
    FinishDc(agg, d.name)
  }

  /** `DcDoc` as a function of the datacenter. */
  function DcDocOf(agents: map<string, Agent>): DcConf -> Result<Record>
  {
    d => DcDoc(agents, d)
  }

  /** What get_stats_on_all_datacenters returns for the whole configuration. */
  function DcsSpec(agents: map<string, Agent>, conf: seq<DcConf>): (r: Result<seq<Record>>)
    ensures r.Ok? ==> |r.value| == |conf|
  {
    Collect(DcDocOf(agents), conf)
  }

  /** The datacenter rollup, updating the datacenter document in place. */
  method RollUpDc(agg: Record, dc: string) returns (r: Result<Record>)
    ensures r == FinishDc(agg, dc)
  {
    var dcData := agg;
    dcData := dcData["name" := Str(dc)];
    if "SANUsedVol" in dcData && "SANTotalVol" in dcData {
      if dcData["SANTotalVol"] == Num(0.0) {
        dcData := dcData["SANVolRatio" := Num(0.0)];
      } else {
        var share := Divide(dcData["SANUsedVol"], dcData["SANTotalVol"]);
        if share.Fail? {
          return Fail(share.error);
        }
        dcData := dcData["SANVolRatio" := Num(share.value * 100.0)];
      }
    }
    return Ok(dcData);
  }

  /** One pass of the loop of get_stats_on_all_datacenters. */
  method GetStatsOnDc(agents: map<string, Agent>, d: DcConf) returns (r: Result<Record>)
    ensures r == DcDoc(agents, d)
  {
    var clusters := GetStatsOnAllClusters(agents, d);
    if clusters.Fail? {
      return Fail(clusters.error);
    }
    var agg := AggStats(clusters.value);
    if agg.Fail? {
      return Fail(agg.error);
    }
    r := RollUpDc(agg.value, d.name);
  }

  /** get_stats_on_all_datacenters, with the corrected rollups. */
  method GetStatsOnAllDatacenters(agents: map<string, Agent>, conf: seq<DcConf>) returns (r: Result<seq<Record>>)
    ensures r == DcsSpec(agents, conf)
  {
    var res: seq<Record> := [];
    var i := 0;
    assert conf[..0] == [];
    while i < |conf|
      invariant 0 <= i <= |conf|
      invariant DcsSpec(agents, conf[..i]) == Ok(res)
    {
      var dcData := GetStatsOnDc(agents, conf[i]);
      CollectStep(DcDocOf(agents), conf, i);
      if dcData.Fail? {
        return Fail(dcData.error);
      }
      res := res + [dcData.value];
      i := i + 1;
    }
    assert conf[..i] == conf;
    return Ok(res);
  }
}
