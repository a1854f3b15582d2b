# Capacity planning: collectors and rollups

A model, in Dafny, of the capacity-planning scripts of an infrastructure team.
Five scripts publish documents into an Elasticsearch index:

- the SAN collector (`San`) walks each SAN group over SNMP, lists its pools,
  fetches thirteen statistics per pool, derives used volume, fill ratio and
  usage tag, and rolls the figures up per host (summed storage pools, ratio
  recomputed, 5% of the total held back from the free volume), per cluster
  and per datacenter;
- the hypervisor collector (`Hypervisors`) reads `/proc/meminfo`, `nproc` and
  one statistics file per VM, publishes one document per valid VM and one per
  host with its allocated processors and memory, the overcommit ratios and
  the headroom left;
- the backup collector (`Backups`) reads the `backup` zfs pool's listing,
  compression ratio and logical usage and publishes one document per backup
  host;
- the cluster aggregator (`TotalHypervisors`) sums, over the hypervisors of a
  cluster seen in the last 24 hours, each host's average of eight capacity
  fields, recomputes the RAM and CPU ratios from those sums and counts how
  many VMs of each configured type still fit;
- the datacenter aggregator (`TotalBackups`) sums, over the backup hosts of a
  datacenter, each host's average of five volume fields and recomputes the
  used share of the total.

The two aggregators share their search layer (`Store`): the search body they
build, the de-duplicated host list, the per-host average over the hits and the
sum of those averages over the hosts. Shared value types and Python's
conversions live in `Results` (the exceptions a run can stop with), `Records`
(JSON documents, `float()` and `int()` of a value), `Numbers` (truncation,
sums, means) and `Strings` (`split`, `strip`, and `int()` and `float()` of
plain decimal texts).

Each loop of the scripts is a `method` proved against a function that states
what it computes; every exception the scripts can raise is a `Fail` of the
`Result` the function returns, the first one in program order winning. The
network, SNMP, the command lines and the files are inputs: a `Search` function
stands for the Elasticsearch query, an `Agent` for what one SAN group answers,
and strings for what each command printed.

Where the code departs from what it evidently means (see "## Findings"), the
model keeps both readings: the SAN rollups as written beside the corrected
ones, and in the cluster aggregator a `Rule` that selects the count of VMs
that still fit, `AsWritten` (the document the code posts) or `Corrected`.

## Model

| member | source | states |
|---|---|---|
| `Numbers.Trunc` | src/capacity_planning_hypervisors.py:40 | `int()` of a float truncates toward zero: the result is the whole number next to the input on the side of 0 |
| `Numbers.TruncMonotone` | src/capacity_planning_hypervisors.py:40 | truncation never decreases when its input grows |
| `Numbers.TruncWhole` | src/capacity_planning_hypervisors.py:40 | a whole number is its own truncation |
| `Numbers.TruncTowardZero` | src/capacity_planning_hypervisors.py:195-196 | `int(-0.5)` is 0, not the floor -1 |
| `Numbers.PercentAtMostHundred` | src/capacity_planning_total_backups.py:129-130 | with a positive whole, `part / whole * 100` is at most 100 exactly when the part is at most the whole |
| `Numbers.SumBounds` | src/capacity_planning_total_hypervisors.py:107-108 | a sum of n terms each in [lo, hi] lies in [n*lo, n*hi] |
| `Numbers.MeanBounds` | src/capacity_planning_total_hypervisors.py:120-126 | a mean of values in [lo, hi] lies in [lo, hi] |
| `Numbers.MeanAdds` | src/capacity_planning_total_hypervisors.py:120-126 | over the same number of hits, a field that is the sum of two others has the sum of their means as its mean |
| `Numbers.SumNonNegative` | src/capacity_planning_total_backups.py:109-111 | a sum of non-negative terms is non-negative |
| `Numbers.MeanNonNegative` | src/capacity_planning_total_backups.py:95-103 | a mean of non-negative values is non-negative |
| `Numbers.SumAppend` | src/capacity_planning_total_hypervisors.py:107-108 | the running total over two lists is the sum of their totals |
| `Numbers.SumFront` | src/capacity_planning_total_hypervisors.py:107-108 | a running total is its first term plus the total of the rest |
| `Records.Get` | src/capacity_planning_san.py:251 | a subscript succeeds exactly when the key is present and yields its value; otherwise KeyError |
| `Records.FloatOf` | src/capacity_planning_total_hypervisors.py:121 | `float()` of a number is that number, of a string its decimal reading or ValueError, of None a TypeError |
| `Records.IntOf` | src/capacity_planning_total_hypervisors.py:162 | `int()` of a number truncates it, of a string reads its digits or fails with ValueError, of None a TypeError |
| `Records.NumberOf` | src/capacity_planning_san.py:330-331 | arithmetic on a document value succeeds exactly when it is a number |
| `Results.Need` | src/capacity_planning_backups.py:124-125 | a missing value becomes the given error, a present one passes unchanged |
| `Results.Collect` | src/capacity_planning_san.py:311-336 | a loop that appends one result per element, ending at the first raise, returns one result per element |
| `Results.CollectEach` | src/capacity_planning_san.py:311-336 | the results come in the elements' order, each that element's own |
| `Results.CollectOk` | src/capacity_planning_san.py:311-336 | the loop succeeds exactly when every element's step does |
| `Results.CollectFirstFailure` | src/capacity_planning_san.py:311-336 | a failed loop fails with the error of its first failing element, all before it having succeeded |
| `Results.CollectOne` | src/capacity_planning_san.py:311-336 | a loop over one element returns that element's result alone, or its failure |
| `Results.CollectStep` | src/capacity_planning_san.py:311-336 | one more pass appends the element's result, or its failure is the loop's outcome |
| `Results.CollectFailurePersists` | src/capacity_planning_san.py:311-336 | once a prefix of the elements fails, the whole loop fails the same way |
| `Strings.Split` | src/capacity_planning_backups.py:121 | `str.split(sep)` gives at least one part and no part holds the separator |
| `Strings.SplitJoin` | src/capacity_planning_backups.py:121 | joining the parts of a split with the separator gives back the text |
| `Strings.JoinSplit` | src/capacity_planning_backups.py:121 | splitting parts joined by a separator they lack gives back the parts |
| `Strings.SplitAfter` | src/capacity_planning_backups.py:131 | text before the first separator is the first part, the rest is split on its own |
| `Strings.Strip` | src/capacity_planning_backups.py:116 | `str.strip()` leaves no whitespace at either end |
| `Strings.StripTight` | src/capacity_planning_backups.py:124 | a text without whitespace at its ends is its own strip |
| `Strings.StripIdempotent` | src/capacity_planning_backups.py:116 | stripping twice is stripping once |
| `Strings.StripPadded` | src/capacity_planning_hypervisors.py:164 | whitespace around a tight text is removed and nothing else |
| `Strings.ParseIntDecimal` | src/capacity_planning_hypervisors.py:112 | `int()` reads a decimal numeral, with or without a minus sign, as its value |
| `Strings.ParseInt` | src/capacity_planning_hypervisors.py:112 | of plain decimal texts, `int()` reads only those that are, after stripping, an optional sign and then digits, and a negative value needs a minus sign |
| `Strings.ParseDecimal` | src/capacity_planning_backups.py:124-125 | of plain decimal texts, `float()` rejects text that is blank after stripping, and a negative value needs a minus sign |
| `Strings.DigitsDecimal` | src/capacity_planning_backups.py:124 | `float()` reads a string of digits as its value |
| `Strings.ParseDecimalRejectsEmpty` | src/capacity_planning_backups.py:135-137 | `float()` rejects the empty text and a lone minus sign |
| `Strings.ParseDecimalRejectsPoint` | src/capacity_planning_backups.py:135-137 | `float()` rejects a lone decimal point |
| `Strings.ParseDecimalRejectsTwoPoints` | src/capacity_planning_backups.py:135-137 | `float()` rejects a numeral with two decimal points |
| `Strings.ParseDecimalExample` | src/capacity_planning_backups.py:135 | `float("1.52")` is 1.52 |
| `San.MibToGib` | src/capacity_planning_san.py:21-25 | MiB to GiB keeps the fraction: the result times 1024 is the input |
| `San.OidNum` | src/capacity_planning_san.py:28-34 | the pool index is the dot-free tail of the stripped key, preceded by a dot unless it is the whole key |
| `San.LastComponent` | src/capacity_planning_san.py:32-34 | the last dot-separated component is a dot-free suffix, preceded by a dot unless it is all of the text |
| `San.LastComponentOf` | src/capacity_planning_san.py:32-34 | a key ending in "." and a dot-free index yields that index |
| `San.OidNumIsLastComponent` | src/capacity_planning_san.py:31-34 | a walk line whose stripped key ends in "." and an index yields that index |
| `San.OidNumOfWalkLine` | src/capacity_planning_san.py:28-34 | a walk line `<prefix>.<index> = <name>` yields `<index>` |
| `San.Assign` | src/capacity_planning_san.py:131 | `res[oid] = name` adds the OID, keeps every other pool, replaces the pool with that OID and keeps the OIDs distinct |
| `San.LineName` | src/capacity_planning_san.py:129 | a line names a pool exactly when it holds a '='; otherwise IndexError |
| `San.ParseWalkLine` | src/capacity_planning_san.py:128-131 | a line is unnamed exactly when it lacks '=', a default pool exactly when it names "default", and otherwise yields its name and index |
| `San.Entries` | src/capacity_planning_san.py:128-131 | every walk line is parsed, in order |
| `San.PoolsOf` | src/capacity_planning_san.py:125-133 | the listed pools never repeat an OID |
| `San.PoolsOfFailurePersists` | src/capacity_planning_san.py:128-131 | the first line without '=' ends the listing whatever follows |
| `San.PoolsOfFails` | src/capacity_planning_san.py:128-129 | listing fails, with IndexError, exactly when some walk line has no '=' |
| `San.PoolsOfOkStep` | src/capacity_planning_san.py:128-131 | each further line leaves the listing unchanged or assigns its pool |
| `San.PoolsOfKeepsNamed` | src/capacity_planning_san.py:128-131 | every listed pool is one a walk line names |
| `San.PoolsOfOid` | src/capacity_planning_san.py:128-131 | an OID is listed exactly when some kept line carries it |
| `San.PoolsOfName` | src/capacity_planning_san.py:128-131 | a listed pool carries the name of the last kept line with its OID |
| `San.PoolsOfListsKeptLines` | src/capacity_planning_san.py:118-133 | list_pools: one entry per OID, no pool named "default", the OIDs of exactly the kept lines, each with its last name |
| `San.KeptLine` | src/capacity_planning_san.py:129-130 | a line is kept exactly when it has a '=' and names a pool other than "default" |
| `San.ListPools` | src/capacity_planning_san.py:118-133 | the loop of list_pools computes `PoolsOf` of the parsed walk |
| `San.Reading` | src/capacity_planning_san.py:147-149 | a volume is get()'s answer in GiB, failing with TypeError when get() answers None and ValueError when the answer is not a number; the volume count keeps the raw answer or None |
| `San.StatOnPools` | src/capacity_planning_san.py:136-152 | one statistic succeeds exactly when every pool's reading does, and then maps exactly the listed OIDs to their readings |
| `San.StatOnPoolsFailurePersists` | src/capacity_planning_san.py:146-150 | the first failed reading ends the statistic whatever follows |
| `San.StatOnPoolsStep` | src/capacity_planning_san.py:146-150 | one more pool adds its reading under its OID, or its failed reading ends the statistic |
| `San.GetStatOnPools` | src/capacity_planning_san.py:136-152 | the loop of get_stat_on_pools computes `StatOnPools` |
| `San.StatsTable` | src/capacity_planning_san.py:166-218 | the table holds one row per statistic, each keyed by exactly the listed OIDs, and succeeds exactly when every statistic does |
| `San.StatsTableFailurePersists` | src/capacity_planning_san.py:166-218 | the first failed statistic ends the table whatever follows |
| `San.StatsTableStep` | src/capacity_planning_san.py:166-218 | one more statistic adds its row to the table, or its failure ends the whole loop with that error |
| `San.FetchStats` | src/capacity_planning_san.py:166-218 | the statistics loop computes `StatsTable` |
| `San.Cell` | src/capacity_planning_san.py:227-228 | `data[stat][oid]` succeeds exactly when both keys are present and yields that cell |
| `San.Divide` | src/capacity_planning_san.py:229-231 | a division succeeds exactly when both operands are numbers and the divisor is non-zero, and the quotient times the divisor is the dividend |
| `San.DerivePool` | src/capacity_planning_san.py:226-238 | a pool's figures exist only when its total, free and count cells do, its tag is "storage" or "replication", and a table without totals raises KeyError |
| `San.PoolVolumesAddUp` | src/capacity_planning_san.py:227-228 | a pool's used volume plus its free volume is its total |
| `San.PoolRatioInRange` | src/capacity_planning_san.py:229-231 | a pool's ratio is its used share of a non-zero total in percent, and lies in [0, 100] when the free volume lies in [0, total] |
| `San.ShareBounds` | src/capacity_planning_san.py:229-231 | `(t - f) / t * 100` times t is `(t - f) * 100`, and lies in [0, 100] when f lies in [0, t] |
| `San.PoolUsageTag` | src/capacity_planning_san.py:233-238 | a pool is tagged "replication" exactly when `int()` of its volume count is not positive, "storage" otherwise |
| `San.DeriveAll` | src/capacity_planning_san.py:222-238 | the derived rows are keyed by exactly the listed OIDs |
| `San.DeriveAllOk` | src/capacity_planning_san.py:226-238 | the derivation succeeds exactly when every pool's figures can be derived |
| `San.DeriveAllCells` | src/capacity_planning_san.py:226-238 | each pool's cells in the three derived rows hold its own used volume, ratio and tag |
| `San.DeriveAllFailurePersists` | src/capacity_planning_san.py:226-238 | the first pool whose figures cannot be derived ends the loop |
| `San.WithDerived` | src/capacity_planning_san.py:222-224 | the three derived rows are added and every fetched row is kept |
| `San.PoolDoc` | src/capacity_planning_san.py:245-251 | a pool's document exists exactly when every row has the pool; KeyError otherwise |
| `San.PoolDocFields` | src/capacity_planning_san.py:245-251 | a pool's document has its identity and one field per row holding that row's cell for the pool |
| `San.PoolDocsOf` | src/capacity_planning_san.py:242-257 | one document per listed pool: `Collect` of `PoolDoc` over the pools |
| `San.DeriveFigures` | src/capacity_planning_san.py:222-238 | the derivation loop computes `DeriveAll` |
| `San.IsAggregatableStat` | src/capacity_planning_san.py:260-265 | a field is summed exactly when it is none of the identity fields and "Ratio" occurs nowhere in its name |
| `San.BuildPoolDocs` | src/capacity_planning_san.py:242-257 | the document loop computes `PoolDocsOf` |
| `San.GetStatsOnAllPools` | src/capacity_planning_san.py:155-257 | get_stats_on_all_pools lists the pools, fetches the table, derives the figures and builds the documents |
| `San.NoRatio` | src/capacity_planning_san.py:265 | a field name without a capital R does not contain "Ratio" |
| `San.AggregatableFields` | src/capacity_planning_san.py:260-265 | volumes and the volume count are summed; the ratio and the usage tag are not |
| `San.FieldSum` | src/capacity_planning_san.py:280-283 | the running total of a field fails only with ValueError |
| `San.FieldSumPresent` | src/capacity_planning_san.py:280-283 | the total of a field succeeds exactly when `float()` accepts every value the entries hold for it, and is then the sum of those readings in entry order; entries without the field add nothing |
| `San.FieldSumFailurePersists` | src/capacity_planning_san.py:281-283 | the first entry whose value `float()` rejects ends the total |
| `San.FieldSumOfNumbers` | src/capacity_planning_san.py:280-283 | when every entry holds the field as a number, its total is the sum of those numbers |
| `San.AggSpec` | src/capacity_planning_san.py:268-285 | agg_stats fails only with a value `float()` rejects |
| `San.AggOfNothing` | src/capacity_planning_san.py:275-285 | no entries give the empty document |
| `San.AggKeys` | src/capacity_planning_san.py:277-280 | the sums have exactly the aggregatable fields of the first entry: no identity field, no ratio, no usage tag |
| `San.AggSums` | src/capacity_planning_san.py:280-283 | each summed field holds the sum of `float()` of that field over the entries that hold it, in entry order, skipping the entries without it |
| `San.AggFails` | src/capacity_planning_san.py:277-283 | agg_stats fails exactly when `float()` rejects a value some entry holds for an aggregatable field of the first entry |
| `San.SumField` | src/capacity_planning_san.py:280-283 | the inner loop of agg_stats computes `FieldSum` |
| `San.AggStats` | src/capacity_planning_san.py:268-285 | the loops of agg_stats compute `AggSpec` |
| `San.StorageOnly` | src/capacity_planning_san.py:288-299 | the filter succeeds exactly when every entry has a usage tag; otherwise KeyError |
| `San.StorageOnlyFailurePersists` | src/capacity_planning_san.py:295-297 | the first entry without a usage tag ends the filter |
| `San.StorageOnlyMembers` | src/capacity_planning_san.py:295-297 | an entry is kept exactly when it is not tagged "replication" |
| `San.StorageOnlyAppend` | src/capacity_planning_san.py:293-299 | the filter keeps the entries' order: filtering a concatenation concatenates the filtered parts |
| `San.StorageOnlyIdempotent` | src/capacity_planning_san.py:288-299 | filtering twice is filtering once |
| `San.KeepAll` | src/capacity_planning_san.py:295-297 | entries none of which is tagged "replication" all pass |
| `San.ExcludeReplicationPools` | src/capacity_planning_san.py:288-299 | the loop of exlude_replication_pools computes `StorageOnly` |
| `San.SafetyMargin` | src/capacity_planning_san.py:330-331 | the margin is computable exactly when the free and total volumes are numbers |
| `San.HostRatio` | src/capacity_planning_san.py:318-326 | the ratio step sets the total and the ratio, keeps every field and changes none but the volumes and the ratio |
| `San.FinishHost` | src/capacity_planning_san.py:315-331 | the host document carries the host, cluster and datacenter names and every summed field |
| `San.HostWithoutStorage` | src/capacity_planning_san.py:321-326 | a host whose sums lack the used or total volume reports 0.0 for the ratio and the three volumes |
| `San.HostFromSums` | src/capacity_planning_san.py:318-331 | the host ratio is the summed used volume over the summed total in percent, and the free volume loses 5% of the total |
| `San.HostMarginExample` | src/capacity_planning_san.py:318-331 | total 100 and free 50 give ratio 50 and 45 free after the margin |
| `San.SilentAgentHasNoPools` | src/capacity_planning_san.py:155-257 | a group whose walk lists no pool yields no pool document |
| `San.UnreachableHostIsIdle` | src/capacity_planning_san.py:311-331 | an unreachable group is reported with every volume and the ratio at 0.0 |
| `San.IdleHostSums` | src/capacity_planning_san.py:275-285 | summing one idle host gives zero total, used and free volumes |
| `San.RollUpHost` | src/capacity_planning_san.py:315-331 | the in-place updates of the host document compute `FinishHost` |
| `San.HostsSpec` | src/capacity_planning_san.py:309-338 | one document per host of the cluster: `Collect` of `HostDoc` over the hosts |
| `San.HostDoc` | src/capacity_planning_san.py:311-336 | a SAN group's document carries its host, cluster and datacenter names |
| `San.GetStatsOnHost` | src/capacity_planning_san.py:312-336 | one pass of the host loop computes the host's document |
| `San.OneHost` | src/capacity_planning_san.py:309-338 | a cluster of one host reports that host's document alone |
| `San.GetStatsOnAllHosts` | src/capacity_planning_san.py:302-338 | the loop of get_stats_on_all_hosts computes `HostsSpec` |
| `San.FinishCluster` | src/capacity_planning_san.py:353-358 | the cluster document carries the cluster and datacenter names |
| `San.FinishClusterAsWritten` | src/capacity_planning_san.py:353-358 | the code's cluster document carries the cluster and datacenter names, and fails exactly when both volumes are summed and their division fails |
| `San.FinishClusterAgrees` | src/capacity_planning_san.py:355-358 | wherever the code's cluster rollup succeeds, the corrected one gives the same document |
| `San.ClusterFromSums` | src/capacity_planning_san.py:352-358 | the cluster ratio is the summed used volume over the summed total in percent, 0.0 for a zero total |
| `San.ClusterZeroTotalCounterexample` | src/capacity_planning_san.py:355-358 | a cluster whose only group is unreachable makes the code divide 0.0 by 0.0, while the corrected rollup reports ratio 0.0 |
| `San.ClusterDocAsWritten` | src/capacity_planning_san.py:348-358 | wherever the code's cluster document exists it equals the corrected one |
| `San.ClusterDoc` | src/capacity_planning_san.py:348-358 | a cluster's document carries its cluster and datacenter names |
| `San.ClustersSpec` | src/capacity_planning_san.py:348-364 | one document per cluster of the datacenter: `Collect` of `ClusterDoc` over the clusters |
| `San.RollUpCluster` | src/capacity_planning_san.py:353-358 | the in-place updates of the cluster document compute `FinishCluster` |
| `San.GetStatsOnCluster` | src/capacity_planning_san.py:351-362 | one pass of the cluster loop computes the cluster's document |
| `San.GetStatsOnAllClusters` | src/capacity_planning_san.py:341-364 | the loop of get_stats_on_all_clusters computes `ClustersSpec` |
| `San.FinishDc` | src/capacity_planning_san.py:379-383 | the datacenter document carries the datacenter name |
| `San.FinishDcAsWritten` | src/capacity_planning_san.py:379-383 | the code's datacenter document carries its name, fails only when a used volume is summed, and raises KeyError when the total is not |
| `San.FinishDcAgrees` | src/capacity_planning_san.py:380-383 | wherever the code's datacenter rollup succeeds, the corrected one gives the same document |
| `San.DcGuardCounterexample` | src/capacity_planning_san.py:380-383 | sums with a used volume and no total make the code raise KeyError, and a zero total makes it divide by zero; the corrected rollup succeeds on both |
| `San.DcDoc` | src/capacity_planning_san.py:374-386 | a datacenter's document carries its name |
| `San.DcsSpec` | src/capacity_planning_san.py:374-388 | one document per configured datacenter: `Collect` of `DcDoc` over the datacenters |
| `San.RollUpDc` | src/capacity_planning_san.py:379-383 | the in-place updates of the datacenter document compute `FinishDc` |
| `San.GetStatsOnDc` | src/capacity_planning_san.py:377-386 | one pass of the datacenter loop computes the datacenter's document |
| `San.GetStatsOnAllDatacenters` | src/capacity_planning_san.py:367-388 | the loop of get_stats_on_all_datacenters computes `DcsSpec` |
| `Hypervisors.KibToGib` | src/capacity_planning_hypervisors.py:37-40 | KiB to whole GiB truncated toward zero: within one GiB of the input, on the side of 0 |
| `Hypervisors.KibToGibWhole` | src/capacity_planning_hypervisors.py:37-40 | a whole number of GiB converts exactly |
| `Hypervisors.KibToGibMonotone` | src/capacity_planning_hypervisors.py:37-40 | more KiB never give fewer GiB |
| `Hypervisors.KibToGibShortfall` | src/capacity_planning_hypervisors.py:198-201 | an over-allocation under one GiB reports 0 free GiB, a full GiB over reports -1 |
| `Hypervisors.Fqdn` | src/capacity_planning_hypervisors.py:92-95 | the name is the stripped host name, a dot, then the stripped domain |
| `Hypervisors.FqdnOfCommandOutput` | src/capacity_planning_hypervisors.py:92-95 | the newline the commands print does not reach the name |
| `Hypervisors.MeminfoValue` | src/capacity_planning_hypervisors.py:97-98 | reading a meminfo figure fails only with IndexError or ValueError |
| `Hypervisors.MeminfoWithoutColon` | src/capacity_planning_hypervisors.py:98 | output without a ':' raises IndexError |
| `Hypervisors.MeminfoLine` | src/capacity_planning_hypervisors.py:97-107 | a line `Key:   n kB` reads n, whatever follows it |
| `Hypervisors.MeminfoField` | src/capacity_planning_hypervisors.py:98 | after a key without colons, the figure is `int()` of the text before the next ':' and the first 'k' |
| `Hypervisors.KibFigure` | src/capacity_planning_hypervisors.py:98 | the text before the first ':' and the first 'k' of `  n kB...` is `  n ` |
| `Hypervisors.PaddedFigure` | src/capacity_planning_hypervisors.py:98 | `int()` reads `  n ` as n |
| `Hypervisors.HostMemory` | src/capacity_planning_hypervisors.py:97-108 | free memory counts buffers, slab and page cache, and free plus used is the total |
| `Hypervisors.ReadLine` | src/capacity_planning_hypervisors.py:155-170 | a name read from a line is stripped and colon-free; a line fails only when it has no ':' or a figure `int()` rejects |
| `Hypervisors.ReadFields` | src/capacity_planning_hypervisors.py:156-170 | a name is the stripped second field; failure means a missing second field or an unreadable figure |
| `Hypervisors.Apply` | src/capacity_planning_hypervisors.py:157-170 | a reading adds its processors and memory to the host totals, sets its own document field and carried value, and leaves the rest |
| `Hypervisors.ScanLinesFailurePersists` | src/capacity_planning_hypervisors.py:155-170 | the first unreadable line ends the run whatever follows |
| `Hypervisors.ScanLines` | src/capacity_planning_hypervisors.py:155-170 | reading a file's lines succeeds exactly when every line can be read |
| `Hypervisors.ReadAll` | src/capacity_planning_hypervisors.py:155-170 | every line of a file is read, one reading per line |
| `Hypervisors.TotalsAppend` | src/capacity_planning_hypervisors.py:166-170 | the processor and memory totals of two runs of readings add up |
| `Hypervisors.ScanLinesTotals` | src/capacity_planning_hypervisors.py:155-170 | reading a file adds every `CPU(s)` and `Max memory` value to the host totals and keeps the `host` field |
| `Hypervisors.Accept` | src/capacity_planning_hypervisors.py:174-178 | a VM is published exactly when it has a name, positive memory and processors, and a cluster, with `or` short-circuiting; an unbound `vram_alloc` or `cpu` it reaches raises |
| `Hypervisors.VmFile` | src/capacity_planning_hypervisors.py:139-178 | an unreadable file is skipped; a published VM passed the validity test (positive memory and processors, a cluster) and its document carries the cluster |
| `Hypervisors.VmsSpec` | src/capacity_planning_hypervisors.py:138-182 | at most one document is published per VM file |
| `Hypervisors.VmsSpecFailurePersists` | src/capacity_planning_hypervisors.py:138-182 | the first file that raises ends the run whatever follows |
| `Hypervisors.FileTotals` | src/capacity_planning_hypervisors.py:138-178 | a file adds what its lines read to the totals whether or not its VM is published |
| `Hypervisors.VmsTotals` | src/capacity_planning_hypervisors.py:138-185 | the host's allocated processors and memory count every value read in every readable file, published or not |
| `Hypervisors.FieldsOf` | src/capacity_planning_hypervisors.py:156 | a key and a value without colons split into exactly those two fields |
| `Hypervisors.LineFields` | src/capacity_planning_hypervisors.py:156-157 | a line `key: value` is read from its stripped key and its two fields |
| `Hypervisors.NameLineEmpty` | src/capacity_planning_hypervisors.py:157-159 | `Name:` with nothing after it reads an empty name |
| `Hypervisors.CpusLine` | src/capacity_planning_hypervisors.py:163-165 | `CPU(s):  n` reads n processors |
| `Hypervisors.CpusField` | src/capacity_planning_hypervisors.py:163-164 | the processors are `int()` of the stripped value |
| `Hypervisors.MaxMemoryField` | src/capacity_planning_hypervisors.py:167-168 | the allocated memory is `int()` of the value's first word |
| `Hypervisors.MaxMemoryLine` | src/capacity_planning_hypervisors.py:167-169 | `Max memory:  n KiB` reads n KiB |
| `Hypervisors.SizeValue` | src/capacity_planning_hypervisors.py:168 | the first word of `  n KiB` reads as n |
| `Hypervisors.OvercommitRatio` | src/capacity_planning_hypervisors.py:187-193 | the ratio is defined exactly when capacity and overcommit are non-zero; ZeroDivisionError otherwise |
| `Hypervisors.OvercommitRatioBound` | src/capacity_planning_hypervisors.py:187-193 | with positive capacity and overcommit, the ratio is at most 100 exactly when the allocation fits the overcommitted capacity |
| `Hypervisors.CpuHeadroom` | src/capacity_planning_hypervisors.py:195-196 | free processors are positive exactly when at least one overcommitted processor is left, negative exactly when at least one is missing |
| `Hypervisors.RamHeadroom` | src/capacity_planning_hypervisors.py:198-201 | free memory is positive exactly when at least one GiB is left, negative exactly when at least one GiB is missing |
| `Hypervisors.CpuFiguresExample` | src/capacity_planning_hypervisors.py:187-196 | 8 processors at 200% with 12 allocated: ratio 75, 4 free |
| `Hypervisors.HostDoc` | src/capacity_planning_hypervisors.py:115-201 | the host document exists exactly when no ratio divides by zero, has exactly the name, cluster, physical memory in GiB, processor count, allocations, ratios and headroom keys, and holds those figures as computed from the readings and totals |
| `Hypervisors.MemoryReadings` | src/capacity_planning_hypervisors.py:97-108 | the meminfo readings give free plus used equal to the total |
| `Hypervisors.HostHardware` | src/capacity_planning_hypervisors.py:97-112 | the hardware readings give free plus used equal to the total |
| `Hypervisors.ScanVmFile` | src/capacity_planning_hypervisors.py:139-178 | the inner loop over one file's lines and the validity test compute `VmFile` |
| `Hypervisors.ScanVmFiles` | src/capacity_planning_hypervisors.py:138-182 | the loop over the VM files computes `VmsSpec` |
| `Hypervisors.Collect` | src/capacity_planning_hypervisors.py:92-204 | a run computes `HostReport`: the VM documents in file order, then the host document |
| `Hypervisors.HostReport` | src/capacity_planning_hypervisors.py:92-204 | a run publishes at most one document per VM file and a host document with exactly the host keys, named by the FQDN and the cluster; it needs non-zero overcommits |
| `Backups.BytesToGib` | src/capacity_planning_backups.py:61-64 | bytes to whole GiB truncated toward zero: within one GiB of the input, on the side of 0 |
| `Backups.BytesToGibMonotone` | src/capacity_planning_backups.py:61-64 | more bytes never give fewer GiB |
| `Backups.BytesToGibWhole` | src/capacity_planning_backups.py:61-64 | a whole number of GiB converts exactly |
| `Backups.NonEmpty` | src/capacity_planning_backups.py:122 | the filter keeps no empty field and never adds one |
| `Backups.NonEmptyKeeps` | src/capacity_planning_backups.py:122 | fields none of which is empty pass whole |
| `Backups.EmptyFieldDropped` | src/capacity_planning_backups.py:121-122 | an empty field anywhere, as a doubled tab leaves, is dropped |
| `Backups.ZfsFields` | src/capacity_planning_backups.py:120-122 | the fields of the listing are its tab-separated parts, none empty |
| `Backups.Volumes` | src/capacity_planning_backups.py:124-125 | used and free are fields 1 and 2 read by `float()` in GiB; IndexError or ValueError in the order the code meets them |
| `Backups.ByteCount` | src/capacity_planning_backups.py:124-125 | a byte count in decimal reads back as that count |
| `Backups.ZfsListLine` | src/capacity_planning_backups.py:120-125 | a listing `name TAB used TAB free ...` yields used and free in GiB |
| `Backups.ListingFields` | src/capacity_planning_backups.py:120-122 | the fields of a listing line are read back as written |
| `Backups.ZfsFieldsOfJoin` | src/capacity_planning_backups.py:121-122 | fields joined by single tabs are read back as they were |
| `Backups.VolumesOfCounts` | src/capacity_planning_backups.py:124-125 | fields 1 and 2 written as byte counts give those counts in GiB |
| `Backups.VolumeRatio` | src/capacity_planning_backups.py:126-127 | the ratio is used over total in percent, defined exactly when the total is non-zero; ZeroDivisionError otherwise |
| `Backups.VolumeRatioBounds` | src/capacity_planning_backups.py:126-127 | with non-negative figures and some space, the ratio lies in [0, 100] |
| `Backups.CompressRatio` | src/capacity_planning_backups.py:130-137 | the compression ratio is read whenever the output has a third field; IndexError otherwise |
| `Backups.CompressRatioOf` | src/capacity_planning_backups.py:130-135 | a third field `<number><suffix>` reads as the number |
| `Backups.CompressRatioDefault` | src/capacity_planning_backups.py:134-137 | an unreadable ratio gives 0.0 |
| `Backups.LogicalUsed` | src/capacity_planning_backups.py:140-142 | logical usage is `int()` of the third field in GiB; IndexError or ValueError otherwise |
| `Backups.LogFree` | src/capacity_planning_backups.py:154 | with non-negative free space and ratio, the logical free space is the whole part of their product |
| `Backups.LogFreeBounds` | src/capacity_planning_backups.py:154 | no ratio gives no logical free space, a ratio of at least 1 at least the free space, and the figure grows with the ratio |
| `Backups.ReadSettings` | src/capacity_planning_backups.py:96-103 | the settings are read exactly when every key is present and `logs`, `url`, `backup_hosts` and `datacenter` are non-empty; KeyError for a missing key, exit for an empty value |
| `Backups.BackupDoc` | src/capacity_planning_backups.py:146-157 | the document holds exactly the keys name, datacenter, volumeUsed, volumeFree, volumeTotal, volumeRatio, compressRatio, volumeLogUsed and volumeLogFree: the name, datacenter, the two volumes and their sum, the ratio, the compression ratio, the logical used figure and the truncated free space times compression |
| `Backups.BackupHostReport` | src/capacity_planning_backups.py:96-160 | a run succeeds exactly when the settings, listing, ratio, compression ratio and logical usage all can be read, and then sends their document |
| `Backups.SettingsFirst` | src/capacity_planning_backups.py:96-103 | a bad configuration stops the run before any command output is looked at |
| `Store.RequestFilter` | src/capacity_planning_total_hypervisors.py:42-73 | a search is the given terms over the last 24 hours |
| `Store.ByName` | src/capacity_planning_total_hypervisors.py:76-77 | the search by name holds exactly the type and name terms over the last 24 hours |
| `Store.RequestByName` | src/capacity_planning_total_hypervisors.py:76-77 | request_by_name asks the store for `ByName` |
| `Store.Matching` | src/capacity_planning_total_hypervisors.py:52-70 | a document is a hit exactly when it matches every term and is under 24 hours old |
| `Store.IndexAnswers` | src/capacity_planning_total_hypervisors.py:52-73 | a reference store with at most one page of hits answers all of them |
| `Store.IndexFinds` | src/capacity_planning_total_hypervisors.py:52-73 | a reference store returns a document's source exactly when the document matches the search |
| `Store.Distinct` | src/capacity_planning_total_hypervisors.py:84-93 | the de-duplicated names are the same set, without repeats |
| `Store.DistinctKeeps` | src/capacity_planning_total_hypervisors.py:84-93 | names without repeats pass in their order |
| `Store.DistinctIdempotent` | src/capacity_planning_total_hypervisors.py:84-93 | de-duplicating twice is de-duplicating once |
| `Store.HitNames` | src/capacity_planning_total_hypervisors.py:86-87 | every hit must have a name (KeyError otherwise), and the names are read in order |
| `Store.HostList` | src/capacity_planning_total_hypervisors.py:84-93 | the host list has no repeats and holds exactly the names of the hits; KeyError when a hit has no name |
| `Store.HostNames` | src/capacity_planning_total_hypervisors.py:84-93 | the loops over the hits and the dictionary compute `HostList` |
| `Store.HostsQueryMatch` | src/capacity_planning_total_hypervisors.py:83 | a document matches the host search exactly when it has the type, the field value and is under 24 hours old |
| `Store.HostsQuery` | src/capacity_planning_total_hypervisors.py:83 | the host search holds exactly the type and field terms over the last 24 hours |
| `Store.HostsOfIndex` | src/capacity_planning_total_hypervisors.py:80-93 | on a reference store, when at most 10 documents match, a name is listed exactly when some recent document of the type with the field value carries it |
| `Store.MatchingAll` | src/capacity_planning_total_hypervisors.py:52-70 | when every document matches, the hits are all their sources in store order |
| `Store.HostsOfFullIndex` | src/capacity_planning_total_hypervisors.py:80-93 | on a store answering with every match, a name is listed exactly when some recent document of the type with the field value carries it, however many match |
| `Store.DistinctConst` | src/capacity_planning_total_hypervisors.py:84-93 | a name repeated on every hit is listed once |
| `Store.FirstPageRepeats` | src/capacity_planning_total_hypervisors.py:80-93 | a page's worth of one host's documents ahead of another host's fills the first page with the first host alone |
| `Store.PageDropsHost` | src/capacity_planning_total_hypervisors.py:80-93 | ten recent documents of host "a" then one of host "b" in the cluster: the first page lists only "a", a store answering every match lists "b" too |
| `Store.FieldValues` | src/capacity_planning_total_hypervisors.py:120-122 | the field is read by `float()` from every hit, in order, and fails when some hit lacks it or holds an unreadable value |
| `Store.FieldValuesFailurePersists` | src/capacity_planning_total_hypervisors.py:120-122 | the first hit that fails ends the loop |
| `Store.HitsMean` | src/capacity_planning_total_hypervisors.py:117-126 | no hit gives 0.0, and the mean fails exactly when reading the field does |
| `Store.HitsMeanBounds` | src/capacity_planning_total_hypervisors.py:120-126 | the mean of values in [lo, hi] lies in [lo, hi] |
| `Store.HitsMeanConstant` | src/capacity_planning_total_hypervisors.py:120-126 | hits all holding v average to v |
| `Store.SumOfAddsUp` | src/capacity_planning_total_hypervisors.py:120-122 | when every hit's whole is part plus rest, so are the sums |
| `Store.HitsMeanAddsUp` | src/capacity_planning_total_hypervisors.py:117-126 | when every hit's whole is part plus rest, so are the means |
| `Store.MeanOfHits` | src/capacity_planning_total_hypervisors.py:117-126 | the loop of average_by_name computes `HitsMean` |
| `Store.HostMean` | src/capacity_planning_total_hypervisors.py:113-126 | a failed search is the outcome, and a host without hits averages 0.0 |
| `Store.AverageByName` | src/capacity_planning_total_hypervisors.py:113-126 | average_by_name computes `HostMean` |
| `Store.HostMeans` | src/capacity_planning_total_hypervisors.py:107-108 | one average per host: `Collect` of `HostMean` over the hosts |
| `Store.SumOfMeans` | src/capacity_planning_total_hypervisors.py:99-110 | no host gives 0.0, and the sum fails exactly when some host's average does |
| `Store.SumOfMeansAddsUp` | src/capacity_planning_total_hypervisors.py:99-110 | when the store's documents always have whole = part + rest, the sums over the hosts do too |
| `Store.SumOfMeansNonNegative` | src/capacity_planning_total_hypervisors.py:99-110 | when the store only holds non-negative values of a field, its sum over hosts is non-negative |
| `Store.SumOfAverages` | src/capacity_planning_total_hypervisors.py:107-110 | the loop over the hosts computes `SumOfMeans` |
| `TotalHypervisors.ClusterHosts` | src/capacity_planning_total_hypervisors.py:80-93 | the hosts of a cluster are the names of the search's hits without repeats; a failed search is the outcome |
| `TotalHypervisors.RequestHostsInCluster` | src/capacity_planning_total_hypervisors.py:80-93 | request_hosts_in_cluster computes `ClusterHosts` |
| `TotalHypervisors.ClusterHostsOfIndex` | src/capacity_planning_total_hypervisors.py:80-93 | on a reference store, when at most 10 documents match, a host is listed exactly when a recent hypervisor document of the cluster carries its name |
| `TotalHypervisors.ClusterSum` | src/capacity_planning_total_hypervisors.py:96-110 | an empty cluster sums to 0.0, and a failed host search fails the sum |
| `TotalHypervisors.SumByCluster` | src/capacity_planning_total_hypervisors.py:96-110 | sum_by_cluster computes `ClusterSum` |
| `TotalHypervisors.ClusterSums` | src/capacity_planning_total_hypervisors.py:132-141 | each of the eight figures is that field's sum over the cluster |
| `TotalHypervisors.OvercommitShare` | src/capacity_planning_total_hypervisors.py:143-157 | the ratio is defined exactly when the overcommit is non-zero; ZeroDivisionError otherwise |
| `TotalHypervisors.OvercommitShareAtMostHundred` | src/capacity_planning_total_hypervisors.py:143-157 | with positive capacity and overcommit, the ratio is at most 100 exactly when the allocation fits the overcommitted capacity |
| `TotalHypervisors.SumsDoc` | src/capacity_planning_total_hypervisors.py:132-157 | the document has exactly the name, the eight sums, `CPUratio`, and `RAMratio` exactly when total and allocated RAM are positive (otherwise `pRAMtotal` is reset to 0.0); the sums keep their values; `CPUratio` is 0.0 unless both CPU figures are positive; only a zero overcommit fails |
| `TotalHypervisors.SumsRecord` | src/capacity_planning_total_hypervisors.py:132-141 | the document has exactly the name and the eight sums, each holding its figure, and no ratio and no VM-type key yet |
| `TotalHypervisors.RamRatioExample` | src/capacity_planning_total_hypervisors.py:143-157 | 80 GiB allocated on 128 GiB at 150% gives a RAM ratio of 125/3 and, without processors, a CPU ratio of 0.0 |
| `TotalHypervisors.VmTypeFit` | src/capacity_planning_total_hypervisors.py:160-164 | a VM type counts exactly when it has a `type` and positive `cpu` and `ram`, and then yields `int(vCPUfree) / cpu` and `int(vRAMfree) / ram` |
| `TotalHypervisors.RemainingAsWritten` | src/capacity_planning_total_hypervisors.py:166-167 | the code publishes the larger of the two counts |
| `TotalHypervisors.Remaining` | src/capacity_planning_total_hypervisors.py:159-167 | the corrected count is the smaller of the two |
| `TotalHypervisors.RemainingFits` | src/capacity_planning_total_hypervisors.py:159-167 | that many VMs of the type need no more processors and no more memory than are free |
| `TotalHypervisors.RemainingAsWrittenOverstates` | src/capacity_planning_total_hypervisors.py:160-167 | 100 free processors and no free memory, for 2 processors and 4 GiB: the code reports 50 VMs, the corrected count is 0 |
| `TotalHypervisors.WithRemaining` | src/capacity_planning_total_hypervisors.py:160-167 | no field outside the VM-type keys is added, removed or changed |
| `TotalHypervisors.CountedKeysPrefixed` | src/capacity_planning_total_hypervisors.py:164-167 | every VM-type key starts with `remaining_vm_type_` |
| `TotalHypervisors.WithRemainingKeys` | src/capacity_planning_total_hypervisors.py:160-167 | the keys are those of the sums plus exactly one per counted VM type |
| `TotalHypervisors.WithRemainingValue` | src/capacity_planning_total_hypervisors.py:160-167 | a counted VM type with no later counted type of the same name holds its count: the larger of the two counts as the code posts it, the smaller under the correction |
| `TotalHypervisors.AsWrittenAtLeastCorrected` | src/capacity_planning_total_hypervisors.py:160-167 | the posted and the corrected documents fail together, have the same keys, and differ only at VM-type keys, where the posted count is at least the corrected one |
| `TotalHypervisors.WithRemainingOverstates` | src/capacity_planning_total_hypervisors.py:160-167 | 100 free processors and no free memory, for a type of 2 processors and 4 GiB: the posted document says 50 VMs fit, the corrected one 0 |
| `TotalHypervisors.OneVmType` | src/capacity_planning_total_hypervisors.py:160-167 | a single counted type sets its key to its count under either rule, and nothing else changes |
| `TotalHypervisors.ClusterDocFromSums` | src/capacity_planning_total_hypervisors.py:129-167 | the cluster's ratios come from its summed fields, not the hosts' own ratios, and its keys are the name, the eight sums, the ratios set and one per counted VM type |
| `TotalHypervisors.ClusterDoc` | src/capacity_planning_total_hypervisors.py:129-167 | a cluster document exists only when the eight sums do, is named after the cluster and always has `CPUratio` |
| `TotalHypervisors.FillSums` | src/capacity_planning_total_hypervisors.py:132-141 | the field-by-field fill of the cluster document computes `SumsRecord` |
| `TotalHypervisors.SetRamRatio` | src/capacity_planning_total_hypervisors.py:143-149 | the guarded RAM update computes `RamRatioStep` |
| `TotalHypervisors.SetCpuRatio` | src/capacity_planning_total_hypervisors.py:151-157 | the guarded CPU update computes `CpuRatioStep` |
| `TotalHypervisors.FillClusterData` | src/capacity_planning_total_hypervisors.py:132-157 | the in-place updates of the cluster document compute `SumsDoc` |
| `TotalHypervisors.SetRemaining` | src/capacity_planning_total_hypervisors.py:160-167 | the loop over the VM types computes `WithRemaining`; with the code's rule (the larger count) that is the document lines 160-167 build |
| `TotalHypervisors.SendSumsByCluster` | src/capacity_planning_total_hypervisors.py:129-173 | send_sums_by_cluster computes `ClusterDoc`; with the code's rule that is the document it posts |
| `TotalHypervisors.WithRemainingFailurePersists` | src/capacity_planning_total_hypervisors.py:160-167 | the first VM type that raises ends the loop |
| `TotalBackups.DcHosts` | src/capacity_planning_total_backups.py:77-88 | the backup hosts of a datacenter are the names of the search's hits without repeats; a failed search is the outcome |
| `TotalBackups.RequestBcHostInDc` | src/capacity_planning_total_backups.py:77-88 | request_bc_host_in_dc computes `DcHosts` |
| `TotalBackups.DcHostsOfIndex` | src/capacity_planning_total_backups.py:77-88 | on a reference store, when at most 10 documents match, a host is listed exactly when a recent backup-host document of the datacenter carries its name |
| `TotalBackups.DcSum` | src/capacity_planning_total_backups.py:106-112 | an empty datacenter sums to 0.0, and a failed host search fails the sum |
| `TotalBackups.SumByDc` | src/capacity_planning_total_backups.py:106-112 | sum_by_dc computes `DcSum` |
| `TotalBackups.DcVolumes` | src/capacity_planning_total_backups.py:117-123 | each of the five figures is that field's sum over the datacenter; no hosts give all zeros |
| `TotalBackups.VolumesDoc` | src/capacity_planning_total_backups.py:117-130 | the document holds the name and the five sums, and `volumeRatio` exactly when the total is positive, as used over total in percent |
| `TotalBackups.DcDoc` | src/capacity_planning_total_backups.py:115-130 | the datacenter document exists exactly when the five sums do, and is named after the datacenter |
| `TotalBackups.SendSumsByDc` | src/capacity_planning_total_backups.py:115-133 | send_sums_by_dc computes the datacenter document it posts |
| `TotalBackups.FillDcData` | src/capacity_planning_total_backups.py:117-130 | the in-place updates of the datacenter document compute `VolumesDoc` |
| `TotalBackups.DcVolumesAddUp` | src/capacity_planning_total_backups.py:119-123 | when every backup-host document has total = used + free, the datacenter sums do too |
| `TotalBackups.SumAnswered` | src/capacity_planning_total_backups.py:106-112 | a sum that succeeds had every host's search answered |
| `TotalBackups.UsedShareIsPercent` | src/capacity_planning_total_backups.py:129-130 | with non-negative used and free adding up to a positive total, the ratio lies in [0, 100] |
| `TotalBackups.VolumeRatioIsPercent` | src/capacity_planning_total_backups.py:119-130 | with consistent non-negative host documents, the datacenter total is used + free and a positive total gives a ratio in [0, 100] |
| `TotalBackups.EmptyDcHasNoRatio` | src/capacity_planning_total_backups.py:126-127 | a datacenter without backup hosts reports zero volumes and no ratio |
| `TotalBackups.VolumeRatioExample` | src/capacity_planning_total_backups.py:129-130 | 30 used of 120 is a ratio of 25 |

## Left out

- Partial posting is not modelled: a run that raises part-way has already posted the documents built before the raise (VM documents at src/capacity_planning_hypervisors.py:182; pool, host and cluster documents at src/capacity_planning_san.py:253, 334 and 360), while the model returns documents only for a run that completes and a `Fail` otherwise.
- Sending documents (`send_to_elk`) is not modelled: each collector and aggregator returns the documents it would post. The HTTP `request`, the SNMP `walk` and `get`, the command lines and the VM statistics files are inputs: a `Search` function, an `Agent` per SAN group, and strings. A non-200 answer's exit is the `StoreError` failure of a search.
- `parse_conf`, the logging set-up and the `__main__` blocks are not modelled; settings come as values, and the fixed cluster names (src/capacity_planning_total_hypervisors.py:219-220) and datacenter names (src/capacity_planning_total_backups.py:174-175) are parameters.
- `post_date` and `NOW` are not modelled: documents are compared without their timestamp.
- `datetime.datetime.NOW()` at src/capacity_planning_total_hypervisors.py:212 would raise AttributeError before any cluster is processed; the model starts after the settings are read.
- `RequestException` is never imported, so a failed post would raise NameError instead of exiting; posts are not modelled.
- Elasticsearch answers a search with its first 10 hits unless told otherwise; the reference store `Store.Index` models that page and `Store.FullIndex` a store answering every match; every other member takes whatever hits the search returns, so the aggregators hold for either.
- A search answer missing its `hits` envelope or a hit missing `_source` (KeyError) is not modelled: hits are the documents' sources.
- Strings.ParseInt: only plain decimal text is read; underscore separators ("1_000") and non-ASCII digits, which Python's `int()` accepts, are rejected, and `Records.IntOf` inherits this. None of the collected outputs uses these forms.
- Strings.ParseDecimal: only plain decimal text is read; exponents ("1e3"), "inf", "nan", underscore separators and non-ASCII digits, which Python's `float()` accepts, are rejected, and `Records.FloatOf` inherits this.
- Strings.IsSpace: only the ASCII whitespace characters are stripped; `str.strip()` also removes Unicode whitespace such as U+00A0 and U+2028, which the model keeps.
- Floating-point rounding is not modelled: figures are real numbers.
- request_filter, request_by_name and average_by_name are written twice in the source, once per aggregator; they are modelled once in `Store`, the document type being a parameter.
- The `print` at src/capacity_planning_total_backups.py:127 has no effect on the document and is not modelled.
- San.AggSpec: reports ValueError (`NotANumber`) for any field `float()` rejects, where Python raises TypeError for None; fields of a document have no order in the model, so which bad field is met first is not modelled.
- San.FieldSum: reports ValueError for any value `float()` rejects, for the same reason; its value is stated by `San.FieldSumPresent`.
- The loops over `list(d.items())` at src/capacity_planning_san.py:146, 226 and 278 iterate over pairs, not keys, and would look up `(oid, name)` tuples; the model iterates over the keys, as the functions' comments describe.
- `vram_alloc` and `cpu` at src/capacity_planning_hypervisors.py:174 keep their value from the previous VM file and are unbound before the first one; the model carries them as optional values and raises `Unbound` where Python raises UnboundLocalError (a kind of NameError).
- The `print` calls and warnings on skipped VM files, and the SNMP error messages, are not modelled.

## Findings

| source | as written | input that shows it | evidently intended | confidence | as-written member | corrected member |
|---|---|---|---|---|---|---|
| src/capacity_planning_san.py:355-358 | the cluster ratio divides the summed used volume by the summed total without checking the total | a cluster whose only SAN group is unreachable: the host level reports total 0.0, the cluster divides 0.0 by 0.0 | ratio 0.0 for a zero total, as the host level does | not executed | `San.ClusterZeroTotalCounterexample` | `San.ClusterFromSums` |
| src/capacity_planning_san.py:380 | `'SANUsedVol' in dc_data and 'SANTotalVol' and dc_data` tests the string `'SANTotalVol'` for truth, not its presence | sums holding `SANUsedVol` but no `SANTotalVol` raise KeyError; a zero total divides by zero. Latent in the code as written: cluster documents hold both volumes or neither (lines 316-324 set both on every host), and a zero total has already made the cluster level raise ZeroDivisionError at lines 356-358, so the defect shows only once the cluster rollup is corrected | test that both volumes are present, and give ratio 0.0 for a zero total | not executed | `San.DcGuardCounterexample` | `San.FinishDcAgrees` |
| src/capacity_planning_total_hypervisors.py:166-167 | the VMs that still fit are the larger of the counts the free processors and the free memory allow | 100 free processors, 0 free GiB, a type of 2 processors and 4 GiB: 50 VMs reported, none fits | the smaller of the two counts | not executed | `TotalHypervisors.WithRemainingOverstates` | `TotalHypervisors.RemainingFits` |
| src/capacity_planning_total_hypervisors.py:80-93 and src/capacity_planning_total_backups.py:77-88 | the host search sends no `size`, so Elasticsearch answers with its first 10 hits; average_by_name (src/capacity_planning_total_hypervisors.py:113-126) reads the same single page | a cluster whose host "a" posted ten documents in the last 24 hours before host "b" posted one: the host list is ["a"], "b" is left out of every sum | every host seen in the last 24 hours, as request_hosts_in_cluster's docstring says | not executed | `Store.PageDropsHost` | `Store.HostsOfFullIndex` |
