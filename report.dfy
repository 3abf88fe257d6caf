/**
 The storage-bucket report: given the bucket inventory and the report date it
 lists the large buckets unused for long, builds the region/department cost
 ledger, queues the old large buckets for deletion, recommends cleanup of the
 other large ones, and suggests archival of every large bucket not queued for
 deletion.

 Dates are day numbers; the report date, the thresholds and the cost per GB
 are passed in a `Config` instead of living in module globals.
 */
module BucketReport {
  import opened Sequences
  import opened CostLedger

  /** One bucket record of the inventory; `createdOn` is a day number. */
  datatype Bucket = Bucket(
    name: string,
    region: string,
    sizeGB: real,
    versioning: bool,
    createdOn: int,
    tags: map<string, string>)

  /** The report date and the constants of the report. */
  datatype Config = Config(
    today: int,
    unusedDays: int,        // age a large bucket must exceed to be listed as unused
    deleteUnusedDays: int,  // age a bucket must exceed to be queued for deletion
    cleanupSizeGB: real,    // size above which cleanup or archival is suggested
    deleteSizeGB: real,     // size a bucket must exceed to be queued for deletion
    largeSizeGB: real,      // size a bucket must exceed to be listed as large and unused
    costPerGB: real)        // storage price per GB

  /** The constants the report script uses. */
  function ScriptConfig(today: int): Config
  {
    Config(today, 90, 20, 50.0, 100.0, 80.0, 0.023)
  }

  /** Whole days from the creation day to the report day (negative for a future creation day). */
  function DaysSinceCreation(createdOn: int, today: int): (days: int)
    ensures createdOn + days == today
    ensures days >= 0 <==> createdOn <= today
  {
    today - createdOn
  }

  // ---------------------------------------------------------------------
  // Per-bucket rules
  // ---------------------------------------------------------------------

  /** Larger than the size limit and created more than `unusedDays` days before the report day. */
  predicate IsLargeAndUnused(b: Bucket, cfg: Config)
  {
    b.sizeGB > cfg.largeSizeGB && DaysSinceCreation(b.createdOn, cfg.today) > cfg.unusedDays
  }

  /** Larger than the delete size and created more than `deleteUnusedDays` days before the report day. */
  predicate IsDeletionCandidate(b: Bucket, cfg: Config)
  {
    b.sizeGB > cfg.deleteSizeGB && DaysSinceCreation(b.createdOn, cfg.today) > cfg.deleteUnusedDays
  }

  /** The `elif` branch of the cost pass: not queued for deletion, but large. */
  predicate IsCleanupCandidate(b: Bucket, cfg: Config)
  {
    !IsDeletionCandidate(b, cfg) && b.sizeGB > cfg.cleanupSizeGB
  }

  /** The archival test: not in the deletion queue (by record equality), and large. */
  predicate IsArchivalCandidate(b: Bucket, queue: seq<Bucket>, cfg: Config)
    ensures (b in queue <==> IsDeletionCandidate(b, cfg)) ==>
              (IsArchivalCandidate(b, queue, cfg) <==> IsCleanupCandidate(b, cfg))
  {
    b !in queue && b.sizeGB > cfg.cleanupSizeGB
  }

  /** The `team` tag, or "unknown" when the bucket has none. */
  function Department(b: Bucket): string
  {
    if "team" in b.tags then b.tags["team"] else "unknown"
  }

  /** The storage cost of one bucket: its size at the per-GB price. */
  function Cost(b: Bucket, rate: real): (c: real)
    ensures b.sizeGB >= 0.0 && rate >= 0.0 ==> c >= 0.0
  {
    b.sizeGB * rate
  }

  // ---------------------------------------------------------------------
  // What each pass produces, as functions of the input
  // ---------------------------------------------------------------------

  function LargeAndUnusedOf(bs: seq<Bucket>, cfg: Config): seq<Bucket>
  {
    Filter(bs, b => IsLargeAndUnused(b, cfg))
  }

  function DeletionQueueOf(bs: seq<Bucket>, cfg: Config): seq<Bucket>
  {
    Filter(bs, b => IsDeletionCandidate(b, cfg))
  }

  function CleanupOf(bs: seq<Bucket>, cfg: Config): seq<Bucket>
  {
    Filter(bs, b => IsCleanupCandidate(b, cfg))
  }

  function ArchivalOf(bs: seq<Bucket>, queue: seq<Bucket>, cfg: Config): seq<Bucket>
  {
    Filter(bs, b => IsArchivalCandidate(b, queue, cfg))
  }

  /** One iteration of the cost pass on the ledger: create the bucket's cell if needed, then add its cost. */
  function Charge(l: Ledger, b: Bucket, rate: real): (l': Ledger)
    ensures Regions(l') == if b.region in Regions(l) then Regions(l) else Regions(l) + [b.region]
    ensures Total(l') == Total(l) + Cost(b, rate)
  {
    var r, d := b.region, Department(b);
    SetDefaultEffect(l, r, d);
    AddEffect(SetDefault(l, r, d), r, d, Cost(b, rate));
    Add(SetDefault(l, r, d), r, d, Cost(b, rate))
  }

  /**
   The ledger after the cost pass has visited every bucket of `bs`; its cells
   sum to the cost of all the buckets, whatever their regions and departments.
   */
  function LedgerOf(bs: seq<Bucket>, rate: real): (l: Ledger)
    ensures Total(l) == TotalCost(bs, rate)
  {
    if bs == [] then [] else Charge(LedgerOf(bs[..|bs| - 1], rate), bs[|bs| - 1], rate)
  }

  /** The cost of every bucket, summed. */
  function TotalCost(bs: seq<Bucket>, rate: real): real
  {
    if bs == [] then 0.0 else TotalCost(bs[..|bs| - 1], rate) + Cost(bs[|bs| - 1], rate)
  }

  /** The cost of the buckets of region `r` and department `d`, summed. */
  function CellCost(bs: seq<Bucket>, rate: real, r: string, d: string): real
  {
    if bs == [] then 0.0
    else
      var b := bs[|bs| - 1];
      CellCost(bs[..|bs| - 1], rate, r, d) + (if b.region == r && Department(b) == d then Cost(b, rate) else 0.0)
  }

  /** The regions of the buckets, in input order, with repetitions. */
  function BucketRegions(bs: seq<Bucket>): seq<string>
  {
    if bs == [] then [] else BucketRegions(bs[..|bs| - 1]) + [bs[|bs| - 1].region]
  }

  /** The departments of the buckets in region `r`, in input order, with repetitions. */
  function DepartmentsIn(bs: seq<Bucket>, r: string): seq<string>
  {
    if bs == [] then []
    else
      var b := bs[|bs| - 1];
      DepartmentsIn(bs[..|bs| - 1], r) + (if b.region == r then [Department(b)] else [])
  }

  // ---------------------------------------------------------------------
  // The ledger
  // ---------------------------------------------------------------------

  /**
   One iteration touches exactly one cell, the bucket's own region and
   department: created at 0 if absent, then increased by the bucket's cost.
   */
  lemma ChargeCell(l: Ledger, b: Bucket, rate: real)
    ensures forall r, d :: Cell(Charge(l, b, rate), r, d)
                           == if r == b.region && d == Department(b)
                              then Some((if Cell(l, r, d).Some? then Cell(l, r, d).value else 0.0) + Cost(b, rate))
                              else Cell(l, r, d)
  {
    var r, d := b.region, Department(b);
    var l1 := SetDefault(l, r, d);
    SetDefaultCells(l, r, d);
    AddEffect(l1, r, d, Cost(b, rate));
    assert Charge(l, b, rate) == Add(l1, r, d, Cost(b, rate));
  }

  /** A bucket without a `team` tag is charged to the department "unknown" of its region. */
  lemma UnknownDepartment(l: Ledger, b: Bucket, rate: real)
    requires "team" !in b.tags
    ensures Cell(Charge(l, b, rate), b.region, "unknown")
            == Some((if Cell(l, b.region, "unknown").Some? then Cell(l, b.region, "unknown").value else 0.0)
                    + b.sizeGB * rate)
  {
    ChargeCell(l, b, rate);
    assert Department(b) == "unknown" && Cost(b, rate) == b.sizeGB * rate;
  }

  /** A bucket with a `team` tag is charged to that team's department of its region. */
  lemma TeamDepartment(l: Ledger, b: Bucket, rate: real)
    requires "team" in b.tags
    ensures var t := b.tags["team"];
            Cell(Charge(l, b, rate), b.region, t)
            == Some((if Cell(l, b.region, t).Some? then Cell(l, b.region, t).value else 0.0) + b.sizeGB * rate)
  {
    ChargeCell(l, b, rate);
    assert Department(b) == b.tags["team"] && Cost(b, rate) == b.sizeGB * rate;
  }

  /** With non-negative sizes and rate, an iteration never removes or lowers a cell. */
  lemma ChargeNeverDecreases(l: Ledger, b: Bucket, rate: real)
    requires b.sizeGB >= 0.0 && rate >= 0.0
    ensures forall r, d :: Cell(l, r, d).Some? ==>
              Cell(Charge(l, b, rate), r, d).Some? && Cell(l, r, d).value <= Cell(Charge(l, b, rate), r, d).value
  {
    ChargeCell(l, b, rate);
  }

  lemma {:induction false} CellCostUncharged(bs: seq<Bucket>, rate: real, r: string, d: string)
    requires d !in DepartmentsIn(bs, r)
    ensures CellCost(bs, rate, r, d) == 0.0
  {
    if bs != [] {
      CellCostUncharged(bs[..|bs| - 1], rate, r, d);
    }
  }

  /**
   Cell `[r][d]` exists exactly when some bucket of region `r` is charged to
   department `d`, and then holds the summed cost of those buckets.
   */
  lemma {:induction false} LedgerCells(bs: seq<Bucket>, rate: real)
    ensures forall r, d :: Cell(LedgerOf(bs, rate), r, d)
                           == if d in DepartmentsIn(bs, r) then Some(CellCost(bs, rate, r, d)) else None
  {
    if bs != [] {
      var init, b := bs[..|bs| - 1], bs[|bs| - 1];
      LedgerCells(init, rate);
      ChargeCell(LedgerOf(init, rate), b, rate);
      forall r, d
        ensures Cell(LedgerOf(bs, rate), r, d)
                == if d in DepartmentsIn(bs, r) then Some(CellCost(bs, rate, r, d)) else None
      {
        if d !in DepartmentsIn(init, r) {
          CellCostUncharged(init, rate, r, d);
        }
      }
    }
  }

  /**
   Region keys stand in the order the regions are first met in the input,
   and each region's department keys in the order its departments are first met.
   */
  lemma {:induction false} LedgerKeyOrder(bs: seq<Bucket>, rate: real)
    ensures Regions(LedgerOf(bs, rate)) == FirstSeen(BucketRegions(bs))
    ensures forall r :: Departments(LedgerOf(bs, rate), r) == FirstSeen(DepartmentsIn(bs, r))
  {
    if bs != [] {
      var init, b := bs[..|bs| - 1], bs[|bs| - 1];
      LedgerKeyOrder(init, rate);
      var l := LedgerOf(init, rate);
      assert LedgerOf(bs, rate) == Charge(l, b, rate);
      SetDefaultEffect(l, b.region, Department(b));
      AddEffect(SetDefault(l, b.region, Department(b)), b.region, Department(b), Cost(b, rate));
      assert BucketRegions(bs)[..|BucketRegions(bs)| - 1] == BucketRegions(init);
      forall r ensures Departments(LedgerOf(bs, rate), r) == FirstSeen(DepartmentsIn(bs, r)) {
        if b.region == r {
          assert DepartmentsIn(bs, r) == DepartmentsIn(init, r) + [Department(b)];
          assert DepartmentsIn(bs, r)[..|DepartmentsIn(bs, r)| - 1] == DepartmentsIn(init, r);
        } else {
          assert DepartmentsIn(bs, r) == DepartmentsIn(init, r);
        }
      }
    }
  }

  /** No region key and no department key within a region occurs twice. */
  lemma LedgerKeysDistinct(bs: seq<Bucket>, rate: real)
    ensures Distinct(Regions(LedgerOf(bs, rate)))
    ensures forall r :: Distinct(Departments(LedgerOf(bs, rate), r))
  {
    LedgerKeyOrder(bs, rate);
    FirstSeenKeys(BucketRegions(bs));
    forall r ensures Distinct(Departments(LedgerOf(bs, rate), r)) {
      FirstSeenKeys(DepartmentsIn(bs, r));
    }
  }

  /** Two buckets of one region and team at the script's rate: the cell holds 10 * 0.023 + 5 * 0.023. */
  lemma TwoBucketLedgerExample(today: int)
    ensures var rate := ScriptConfig(today).costPerGB;
            var b1 := Bucket("logs", "us", 10.0, false, today, map["team" := "a"]);
            var b2 := Bucket("backups", "us", 5.0, true, today, map["team" := "a"]);
            Cell(LedgerOf([b1, b2], rate), "us", "a") == Some(0.345)
  {
    var rate := ScriptConfig(today).costPerGB;
    var b1 := Bucket("logs", "us", 10.0, false, today, map["team" := "a"]);
    var b2 := Bucket("backups", "us", 5.0, true, today, map["team" := "a"]);
    var bs := [b1, b2];
    LedgerCells(bs, rate);
    assert bs[..1] == [b1] && [b1][..0] == [];
    assert Department(b1) == "a" && Department(b2) == "a";
    assert DepartmentsIn([b1], "us") == ["a"];
    assert DepartmentsIn(bs, "us") == ["a", "a"];
    assert CellCost([b1], rate, "us", "a") == 10.0 * 0.023;
    assert CellCost(bs, rate, "us", "a") == 10.0 * 0.023 + 5.0 * 0.023;
  }

  // ---------------------------------------------------------------------
  // The bucket lists
  // ---------------------------------------------------------------------

  /** The large-and-unused list holds exactly the buckets over the size and age limits, in input order. */
  lemma LargeAndUnusedMembers(bs: seq<Bucket>, cfg: Config)
    ensures forall b :: b in LargeAndUnusedOf(bs, cfg) <==>
              b in bs && b.sizeGB > cfg.largeSizeGB && DaysSinceCreation(b.createdOn, cfg.today) > cfg.unusedDays
    ensures IsSubsequence(LargeAndUnusedOf(bs, cfg), bs)
  {
    FilterMembers(bs, b => IsLargeAndUnused(b, cfg));
    FilterIsSubsequence(bs, b => IsLargeAndUnused(b, cfg));
  }

  /** A bucket is queued for deletion iff it is over the delete size and age limits; the queue keeps input order. */
  lemma DeletionQueueMembers(bs: seq<Bucket>, cfg: Config)
    ensures forall b :: b in DeletionQueueOf(bs, cfg) <==>
              b in bs && b.sizeGB > cfg.deleteSizeGB && DaysSinceCreation(b.createdOn, cfg.today) > cfg.deleteUnusedDays
    ensures IsSubsequence(DeletionQueueOf(bs, cfg), bs)
  {
    FilterMembers(bs, b => IsDeletionCandidate(b, cfg));
    FilterIsSubsequence(bs, b => IsDeletionCandidate(b, cfg));
  }

  /** Cleanup is recommended exactly for the large buckets that escape the deletion queue. */
  lemma CleanupMembers(bs: seq<Bucket>, cfg: Config)
    ensures forall b :: b in CleanupOf(bs, cfg) <==>
              b in bs && b !in DeletionQueueOf(bs, cfg) && b.sizeGB > cfg.cleanupSizeGB
    ensures IsSubsequence(CleanupOf(bs, cfg), bs)
  {
    FilterMembers(bs, b => IsCleanupCandidate(b, cfg));
    FilterMembers(bs, b => IsDeletionCandidate(b, cfg));
    FilterIsSubsequence(bs, b => IsCleanupCandidate(b, cfg));
  }

  /** No bucket is both queued for deletion and recommended for cleanup. */
  lemma DeletionCleanupDisjoint(bs: seq<Bucket>, cfg: Config)
    ensures forall b :: !(b in DeletionQueueOf(bs, cfg) && b in CleanupOf(bs, cfg))
  {
    FilterMembers(bs, b => IsDeletionCandidate(b, cfg));
    FilterMembers(bs, b => IsCleanupCandidate(b, cfg));
  }

  /**
   The archival pass, run against the deletion queue, lists exactly the
   buckets recommended for cleanup, in the same order.
   */
  lemma ArchivalIsCleanup(bs: seq<Bucket>, cfg: Config)
    ensures ArchivalOf(bs, DeletionQueueOf(bs, cfg), cfg) == CleanupOf(bs, cfg)
  {
    var queue := DeletionQueueOf(bs, cfg);
    FilterMembers(bs, b => IsDeletionCandidate(b, cfg));
    FilterAgrees(bs, b => IsArchivalCandidate(b, queue, cfg), b => IsCleanupCandidate(b, cfg));
  }

  // ---------------------------------------------------------------------
  // The passes of the script
  // ---------------------------------------------------------------------

  /** The large-and-unused pass. */
  method FindLargeAndUnused(buckets: seq<Bucket>, cfg: Config) returns (unused: seq<Bucket>)
    ensures unused == LargeAndUnusedOf(buckets, cfg)
    ensures forall b :: b in unused <==> b in buckets && IsLargeAndUnused(b, cfg)
    ensures IsSubsequence(unused, buckets)
  {
    unused := [];
    var i := 0;
    while i < |buckets|
      invariant 0 <= i <= |buckets|
      invariant unused == LargeAndUnusedOf(buckets[..i], cfg)
    {
      var bucket := buckets[i];
      assert buckets[..i + 1] == buckets[..i] + [bucket];
      FilterSnoc(buckets[..i], bucket, b => IsLargeAndUnused(b, cfg));
      if bucket.sizeGB > cfg.largeSizeGB && DaysSinceCreation(bucket.createdOn, cfg.today) > cfg.unusedDays {
        unused := unused + [bucket];
      }
      i := i + 1;
    }
    assert buckets[..i] == buckets;
    LargeAndUnusedMembers(buckets, cfg);
  }

  /** What one iteration of the cost pass adds to the ledger and the two lists. */
  lemma CostPassStep(bs: seq<Bucket>, i: nat, cfg: Config)
    requires i < |bs|
    ensures LedgerOf(bs[..i + 1], cfg.costPerGB) == Charge(LedgerOf(bs[..i], cfg.costPerGB), bs[i], cfg.costPerGB)
    ensures DeletionQueueOf(bs[..i + 1], cfg)
            == DeletionQueueOf(bs[..i], cfg) + (if IsDeletionCandidate(bs[i], cfg) then [bs[i]] else [])
    ensures CleanupOf(bs[..i + 1], cfg)
            == CleanupOf(bs[..i], cfg) + (if IsCleanupCandidate(bs[i], cfg) then [bs[i]] else [])
  {
    assert bs[..i + 1] == bs[..i] + [bs[i]];
    assert bs[..i + 1][..i] == bs[..i];
    FilterSnoc(bs[..i], bs[i], b => IsDeletionCandidate(b, cfg));
    FilterSnoc(bs[..i], bs[i], b => IsCleanupCandidate(b, cfg));
  }

  /** The cost pass: builds the ledger, the deletion queue and the cleanup recommendations in one loop. */
  method CostPass(buckets: seq<Bucket>, cfg: Config) returns (ledger: Ledger, queue: seq<Bucket>, cleanup: seq<Bucket>)
    ensures ledger == LedgerOf(buckets, cfg.costPerGB)
    ensures queue == DeletionQueueOf(buckets, cfg)
    ensures cleanup == CleanupOf(buckets, cfg)
    ensures Total(ledger) == TotalCost(buckets, cfg.costPerGB)
    ensures forall b :: !(b in queue && b in cleanup)
    ensures IsSubsequence(queue, buckets) && IsSubsequence(cleanup, buckets)
  {
    ledger, queue, cleanup := [], [], [];
    var i := 0;
    while i < |buckets|
      invariant 0 <= i <= |buckets|
      invariant ledger == LedgerOf(buckets[..i], cfg.costPerGB)
      invariant queue == DeletionQueueOf(buckets[..i], cfg)
      invariant cleanup == CleanupOf(buckets[..i], cfg)
    {
      var bucket := buckets[i];
      CostPassStep(buckets, i, cfg);
      ghost var before := ledger;
      var region := bucket.region;
      var department := Department(bucket);
      var cost := Cost(bucket, cfg.costPerGB);
      ledger := SetDefault(ledger, region, department);
      ledger := Add(ledger, region, department, cost);
      assert ledger == Charge(before, bucket, cfg.costPerGB);
      if bucket.sizeGB > cfg.deleteSizeGB && DaysSinceCreation(bucket.createdOn, cfg.today) > cfg.deleteUnusedDays {
        queue := queue + [bucket];
      } else if bucket.sizeGB > cfg.cleanupSizeGB {
        cleanup := cleanup + [bucket];
      }
      i := i + 1;
    }
    assert buckets[..i] == buckets;
    DeletionCleanupDisjoint(buckets, cfg);
    DeletionQueueMembers(buckets, cfg);
    CleanupMembers(buckets, cfg);
  }

  /** The archival pass, testing membership in the deletion queue by record equality. */
  method SuggestArchival(buckets: seq<Bucket>, queue: seq<Bucket>, cfg: Config) returns (archive: seq<Bucket>)
    ensures archive == ArchivalOf(buckets, queue, cfg)
    ensures forall b :: b in archive <==> b in buckets && b !in queue && b.sizeGB > cfg.cleanupSizeGB
  {
    archive := [];
    var i := 0;
    while i < |buckets|
      invariant 0 <= i <= |buckets|
      invariant archive == ArchivalOf(buckets[..i], queue, cfg)
    {
      var bucket := buckets[i];
      assert buckets[..i + 1] == buckets[..i] + [bucket];
      FilterSnoc(buckets[..i], bucket, b => IsArchivalCandidate(b, queue, cfg));
      if bucket !in queue && bucket.sizeGB > cfg.cleanupSizeGB {
        archive := archive + [bucket];
      }
      i := i + 1;
    }
    assert buckets[..i] == buckets;
    FilterMembers(buckets, b => IsArchivalCandidate(b, queue, cfg));
  }

  /** Everything the report computes, apart from its printed text. */
  datatype Report = Report(
    largeAndUnused: seq<Bucket>,
    ledger: Ledger,
    deletionQueue: seq<Bucket>,
    cleanupRecommended: seq<Bucket>,
    archivalSuggested: seq<Bucket>)

  /** The whole script: the large-and-unused pass, the cost pass, then the archival pass. */
  method RunReport(buckets: seq<Bucket>, cfg: Config) returns (report: Report)
    ensures report.largeAndUnused == LargeAndUnusedOf(buckets, cfg)
    ensures report.ledger == LedgerOf(buckets, cfg.costPerGB)
    ensures report.deletionQueue == DeletionQueueOf(buckets, cfg)
    ensures report.cleanupRecommended == CleanupOf(buckets, cfg)
    ensures report.archivalSuggested == report.cleanupRecommended
    ensures Total(report.ledger) == TotalCost(buckets, cfg.costPerGB)
  {
    var unused := FindLargeAndUnused(buckets, cfg);
    var ledger, queue, cleanup := CostPass(buckets, cfg);
    var archive := SuggestArchival(buckets, queue, cfg);
    ArchivalIsCleanup(buckets, cfg);
    report := Report(unused, ledger, queue, cleanup, archive);
  }
}
