# Storage bucket lifecycle and cost report

This project models the bucket report script of the DevOps/SRE daily
challenge repository (`day-2/script.py`). The script reads an inventory of
cloud storage buckets. It then runs four passes over the buckets, in input
order:

- It lists the buckets larger than 80 GB that are more than 90 days old.
- One cost loop does three jobs. It charges every bucket's cost
  (`sizeGB` times the price per GB) to a ledger keyed by region and then by
  department; the department is the bucket's `team` tag, or `"unknown"`.
  It queues a bucket for deletion when the bucket is over 100 GB and more
  than 20 days old. Otherwise it recommends cleanup when the bucket is over
  50 GB.
- It prints the ledger and the deletion queue.
- It suggests archival for every bucket over 50 GB that is not in the
  deletion queue.

The model has three modules:

- `Sequences` (`seqs.dfy`): order-preserving filtering, subsequences and the
  first-seen order of distinct keys.
- `CostLedger` (`ledger.dfy`): the nested, insertion-ordered cost dictionary.
  Each level is an association list in key-insertion order. `SetDefault` is
  the `setdefault(region, {}).setdefault(department, 0)` chain. `Add` is the
  `+= cost` on that cell.
- `BucketReport` (`report.dfy`): the bucket record, the report constants
  (`Config`, with the script's values in `ScriptConfig`), the per-bucket
  rules, and the passes. Each pass is a method with a `while` loop. The loop
  is proved against a function that states what it builds from the input:
  `LargeAndUnusedOf`, `LedgerOf`, `DeletionQueueOf`, `CleanupOf` and
  `ArchivalOf`. The lemmas then state the report's properties about those
  functions.

The script keeps the report date and the thresholds in module globals. The
model passes them explicitly in a `Config`. Dates are whole day numbers.
Python's `(today - strptime(createdOn)).days` is the difference of the two
calendar days, rounded down. The time of day of `today` is always less than
a day, so that difference is `today - createdOn` over day numbers, also when
it is negative. Sizes and costs are `real`, so `0.023` is exact.

Three facts about the script shape the model:

- The script reads `name`, `region`, `sizeGB` and `versioning` of every
  bucket (day-2/script.py:26) and its `tags` (day-2/script.py:44). It reads
  `createdOn` only for buckets over 80 GB, because the age test comes after
  a size test that short-circuits (day-2/script.py:33, 50). A missing key
  among those read, or a date that does not parse, raises and ends the run.
  In the model every bucket carries a creation day number. For a bucket of
  80 GB or less no output depends on it: the bucket fails both age tests on
  size alone, and it cannot equal a queued bucket, which is over 100 GB.
- The script keeps separate lists, not a disposition per bucket. The model
  keeps the same lists.
- The script does not check for negative ages. In the model a negative age
  fails every "older than" test.

## Model

| member | source | states |
|---|---|---|
| BucketReport.DaysSinceCreation | day-2/script.py:20-21 | the age in whole days is the number of days from the creation day to the report day; it is non-negative exactly when the bucket was created on or before the report day |
| BucketReport.IsArchivalCandidate | day-2/script.py:67 | when queue membership agrees with the deletion test, the archival test (not in the queue, over 50 GB) holds iff the cleanup test does |
| BucketReport.Cost | day-2/script.py:45 | a bucket's cost is non-negative when its size and the price are |
| BucketReport.LargeAndUnusedMembers | day-2/script.py:31-34 | a bucket is in the large-and-unused list (the filter by `IsLargeAndUnused`, line 33) iff it is in the input, larger than 80 GB and older than 90 days; the list is an order-preserving subsequence of the input |
| BucketReport.FindLargeAndUnused | day-2/script.py:31-34 | the loop builds exactly the large-and-unused list, whose members are the input buckets passing the size and age test, in input order |
| CostLedger.SetDefault | day-2/script.py:46 | after the `setdefault` chain, the bucket's region and department cell exists |
| CostLedger.Add | day-2/script.py:47 | after `+= cost` the addressed cell holds its old value plus the cost |
| CostLedger.SetDefaultEffect | day-2/script.py:46 | `setdefault` creates the region/department cell at 0 only when it is absent and changes no other cell; a new region or department key goes at the end of its key order; the ledger total is unchanged |
| CostLedger.SetDefaultDeptEffect | day-2/script.py:46 | the inner `setdefault(department, 0)` creates only the department's cell at 0 when it is absent, appends a new key at the end, and keeps the region's total |
| CostLedger.AddEffect | day-2/script.py:47 | `+= cost` changes only the addressed cell, by exactly the cost; every key and its order stays the same; the ledger total grows by the cost |
| CostLedger.AddToDeptEffect | day-2/script.py:47 | within one region, `+= cost` changes only the department's cell, by the cost, and keeps the key order |
| BucketReport.Charge | day-2/script.py:46-47 | one iteration appends the bucket's region to the region keys when it is new and keeps them otherwise; the ledger total grows by the bucket's cost |
| BucketReport.ChargeCell | day-2/script.py:43-47 | one iteration of the cost loop changes exactly one ledger cell, the bucket's `[region][department]`: it is the old value (or 0 if absent) plus `sizeGB * rate`; every other cell is as before |
| BucketReport.UnknownDepartment | day-2/script.py:44-47 | a bucket whose tags have no `team` is charged to the department `"unknown"` of its region |
| BucketReport.TeamDepartment | day-2/script.py:44-47 | a bucket with a `team` tag is charged to the department named by that tag in its region: that cell becomes its old value (or 0) plus `sizeGB * rate` |
| BucketReport.ChargeNeverDecreases | day-2/script.py:46-47 | with non-negative sizes and price, an iteration removes no cell and lowers no cell |
| BucketReport.LedgerOf | day-2/script.py:42-47 | the ledger after the loop has visited every bucket; the sum of all its cells is the sum of `sizeGB * rate` over all buckets, whatever their classification |
| BucketReport.LedgerCells | day-2/script.py:42-47 | cell `[r][d]` exists iff some bucket of region `r` is charged to department `d`, and then it holds the summed cost of exactly those buckets |
| BucketReport.LedgerKeyOrder | day-2/script.py:42-58 | region keys are in the order regions are first met in the input; each region's department keys are in the order its departments are first met. This is the order in which the report is printed |
| BucketReport.LedgerKeysDistinct | day-2/script.py:46 | no region key, and no department key within a region, occurs twice |
| BucketReport.TwoBucketLedgerExample | day-2/script.py:42-47 | two buckets of 10 GB and 5 GB in the same region and team, at 0.023 per GB, leave that cell at 0.345 |
| BucketReport.DeletionQueueMembers | day-2/script.py:41-51 | a bucket is in the deletion queue (the filter by `IsDeletionCandidate`, line 50) iff it is in the input, larger than 100 GB and older than 20 days; the queue is an order-preserving subsequence of the input |
| BucketReport.CleanupMembers | day-2/script.py:49-53 | cleanup (the filter by `IsCleanupCandidate`, the `elif` at line 52) is recommended exactly for the input buckets not in the deletion queue that are larger than 50 GB, in input order |
| BucketReport.DeletionCleanupDisjoint | day-2/script.py:50-53 | no bucket is both queued for deletion and recommended for cleanup |
| BucketReport.CostPass | day-2/script.py:40-53 | the single loop builds exactly the ledger, the deletion queue and the cleanup recommendations of the input; the ledger total is the summed cost; the queue and the recommendations are disjoint subsequences of the input |
| BucketReport.SuggestArchival | day-2/script.py:65-68 | the loop lists exactly the input buckets that are not in the queue (record equality) and are larger than 50 GB, in input order |
| BucketReport.ArchivalIsCleanup | day-2/script.py:66-67 | run against the deletion queue, the archival list equals the cleanup recommendations, in the same order. The test uses list membership by record equality, and it agrees with the per-bucket deletion rule |
| BucketReport.RunReport | day-2/script.py:31-68 | the whole script computes the large-and-unused list, the ledger, the queue and the cleanup list that the functions above define; its archival list is the cleanup list; its ledger total is the summed cost |

## Left out

- `day-1/script.py`: every part of it is a wrapper over system sampling (`psutil`), a `systemctl` call through `os.popen`, SMTP, or an `input()` menu. None of it has logic of its own to model.
- Loading `buckets.json` (day-2/script.py:5-8): the bucket sequence is an input of the model.
- `datetime.today()` and `strptime` (day-2/script.py:11, 21): the report day and the creation day are integer day numbers. A creation date that fails to parse, on a bucket over 80 GB, ends the script with an error; the model cannot represent such a date.
- Printing: the bucket summary (day-2/script.py:24-27), every `print` of the passes, the ledger and queue listings (day-2/script.py:55-58, 61-63) and the `:.2f` rounding. The model produces the lists and the ledger these lines print. The printed cleanup recommendations are the `cleanup` list, in print order.
- Binary floating point: sizes, the price and costs are exact reals, so floating-point rounding of the sums is not modelled.
- `glacier_cost_per_gb` (day-2/script.py:17): the script declares it and never uses it.
- Missing or unparsable `createdOn` on a bucket of 80 GB or less: the script never reads it, because the size test short-circuits, and the model's `Bucket` always has a day number. As argued above, no output depends on that day number for such a bucket.
