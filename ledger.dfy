/**
 The cost ledger of the storage report: a dictionary from region to a
 dictionary from department to accumulated cost. Dictionaries keep their keys
 in insertion order, so each level is an association list whose entries stand
 in the order their keys were first inserted; a key occurs at most once.

 The ledger changes in exactly two ways, the two statements of the cost pass:
 `SetDefault` creates the cell of a region and department at 0 when it is
 missing (creating the region's dictionary first when that is missing too),
 and `Add` adds an amount to a cell that exists.
 */
module CostLedger {

  datatype Option<T> = None | Some(value: T)

  datatype DeptCost = DeptCost(dept: string, cost: real)

  datatype RegionCosts = RegionCosts(region: string, depts: seq<DeptCost>)

  type Ledger = seq<RegionCosts>

  // ---------------------------------------------------------------------
  // One region's department dictionary
  // ---------------------------------------------------------------------

  /** The cost recorded for department `d`, if it has a cell. */
  function FindDept(ds: seq<DeptCost>, d: string): Option<real>
  {
    if ds == [] then None
    else if ds[0].dept == d then Some(ds[0].cost)
    else FindDept(ds[1..], d)
  }

  /** The department keys, in insertion order. */
  function DeptNames(ds: seq<DeptCost>): seq<string>
  {
    if ds == [] then [] else [ds[0].dept] + DeptNames(ds[1..])
  }

  /** The sum of the department cells. */
  function DeptTotal(ds: seq<DeptCost>): real
  {
    if ds == [] then 0.0 else ds[0].cost + DeptTotal(ds[1..])
  }

  /** `setdefault(d, 0)`: insert a cell at 0 for `d` unless it is present. */
  function SetDefaultDept(ds: seq<DeptCost>, d: string): (r: seq<DeptCost>)
    ensures FindDept(r, d).Some?
  {
    if ds == [] then [DeptCost(d, 0.0)]
    else if ds[0].dept == d then ds
    else [ds[0]] + SetDefaultDept(ds[1..], d)
  }

  /** `ds[d] += amount` on a cell that exists. */
  function AddToDept(ds: seq<DeptCost>, d: string, amount: real): (r: seq<DeptCost>)
    requires FindDept(ds, d).Some?
    ensures FindDept(r, d) == Some(FindDept(ds, d).value + amount)
  {
    if ds[0].dept == d then [DeptCost(d, ds[0].cost + amount)] + ds[1..]
    else [ds[0]] + AddToDept(ds[1..], d, amount)
  }

  lemma {:induction false} FindDeptNames(ds: seq<DeptCost>, d: string)
    ensures FindDept(ds, d).Some? <==> d in DeptNames(ds)
  {
    if ds != [] {
      FindDeptNames(ds[1..], d);
    }
  }

  lemma {:induction false} SetDefaultDeptEffect(ds: seq<DeptCost>, d: string)
    ensures forall d2 :: FindDept(SetDefaultDept(ds, d), d2)
                         == if d2 == d && FindDept(ds, d).None? then Some(0.0) else FindDept(ds, d2)
    ensures DeptNames(SetDefaultDept(ds, d))
            == if d in DeptNames(ds) then DeptNames(ds) else DeptNames(ds) + [d]
    ensures DeptTotal(SetDefaultDept(ds, d)) == DeptTotal(ds)
  {
    FindDeptNames(ds, d);
    if ds != [] && ds[0].dept != d {
      SetDefaultDeptEffect(ds[1..], d);
      FindDeptNames(ds[1..], d);
    }
  }

  lemma {:induction false} AddToDeptEffect(ds: seq<DeptCost>, d: string, amount: real)
    requires FindDept(ds, d).Some?
    ensures forall d2 :: FindDept(AddToDept(ds, d, amount), d2)
                         == if d2 == d then Some(FindDept(ds, d).value + amount) else FindDept(ds, d2)
    ensures DeptNames(AddToDept(ds, d, amount)) == DeptNames(ds)
    ensures DeptTotal(AddToDept(ds, d, amount)) == DeptTotal(ds) + amount
  {
    if ds[0].dept != d {
      AddToDeptEffect(ds[1..], d, amount);
    }
  }

  // ---------------------------------------------------------------------
  // The region dictionary
  // ---------------------------------------------------------------------

  /** The department dictionary of region `r`, if the region has one. */
  function FindRegion(l: Ledger, r: string): Option<seq<DeptCost>>
  {
    if l == [] then None
    else if l[0].region == r then Some(l[0].depts)
    else FindRegion(l[1..], r)
  }

  /** The region keys, in insertion order. */
  function Regions(l: Ledger): seq<string>
  {
    if l == [] then [] else [l[0].region] + Regions(l[1..])
  }

  /** The department keys of region `r`, in insertion order (none when `r` is absent). */
  function Departments(l: Ledger, r: string): seq<string>
  {
    match FindRegion(l, r)
    case None => []
    case Some(ds) => DeptNames(ds)
  }

  /** `ledger[r][d]`, if that cell exists. */
  function Cell(l: Ledger, r: string, d: string): Option<real>
  {
    match FindRegion(l, r)
    case None => None
    case Some(ds) => FindDept(ds, d)
  }

  /** The sum of every cell of the ledger. */
  function Total(l: Ledger): real
  {
    if l == [] then 0.0 else DeptTotal(l[0].depts) + Total(l[1..])
  }

  /** `ledger.setdefault(r, {}).setdefault(d, 0)`. */
  function SetDefault(l: Ledger, r: string, d: string): (l': Ledger)
    ensures Cell(l', r, d).Some?
  {
    if l == [] then [RegionCosts(r, SetDefaultDept([], d))]
    else if l[0].region == r then [RegionCosts(r, SetDefaultDept(l[0].depts, d))] + l[1..]
    else [l[0]] + SetDefault(l[1..], r, d)
  }

  /** `ledger[r][d] += amount`; the cell must exist (otherwise the lookup fails). */
  function Add(l: Ledger, r: string, d: string, amount: real): (l': Ledger)
    requires Cell(l, r, d).Some?
    ensures Cell(l', r, d) == Some(Cell(l, r, d).value + amount)
  {
    if l[0].region == r then [RegionCosts(r, AddToDept(l[0].depts, d, amount))] + l[1..]
    else [l[0]] + Add(l[1..], r, d, amount)
  }

  lemma {:induction false} FindRegionNames(l: Ledger, r: string)
    ensures FindRegion(l, r).Some? <==> r in Regions(l)
  {
    if l != [] {
      FindRegionNames(l[1..], r);
    }
  }

  /**
   SetDefault creates the cell of `r` and `d` at 0 only when it is absent and
   touches no other cell; a new region or department key goes to the end of
   its key order; the total is unchanged.
   */
  lemma SetDefaultEffect(l: Ledger, r: string, d: string)
    ensures forall r2, d2 :: Cell(SetDefault(l, r, d), r2, d2)
                             == if r2 == r && d2 == d && Cell(l, r, d).None? then Some(0.0) else Cell(l, r2, d2)
    ensures Regions(SetDefault(l, r, d)) == if r in Regions(l) then Regions(l) else Regions(l) + [r]
    ensures forall r2 :: Departments(SetDefault(l, r, d), r2)
                         == if r2 == r && d !in Departments(l, r) then Departments(l, r) + [d] else Departments(l, r2)
    ensures Total(SetDefault(l, r, d)) == Total(l)
  {
    SetDefaultCells(l, r, d);
    SetDefaultKeys(l, r, d);
  }

  lemma {:induction false} SetDefaultCells(l: Ledger, r: string, d: string)
    ensures forall r2, d2 :: Cell(SetDefault(l, r, d), r2, d2)
                             == if r2 == r && d2 == d && Cell(l, r, d).None? then Some(0.0) else Cell(l, r2, d2)
    ensures Total(SetDefault(l, r, d)) == Total(l)
  {
    var l' := SetDefault(l, r, d);
    if l == [] {
      SetDefaultDeptEffect([], d);
      assert l'[1..] == [];
    } else if l[0].region == r {
      SetDefaultDeptEffect(l[0].depts, d);
      assert l'[0] == RegionCosts(r, SetDefaultDept(l[0].depts, d)) && l'[1..] == l[1..];
    } else {
      SetDefaultCells(l[1..], r, d);
      assert l'[0] == l[0] && l'[1..] == SetDefault(l[1..], r, d);
      forall r2, d2
        ensures Cell(l', r2, d2)
                == if r2 == r && d2 == d && Cell(l, r, d).None? then Some(0.0) else Cell(l, r2, d2)
      {
        if r2 != l[0].region {
          assert Cell(l', r2, d2) == Cell(l'[1..], r2, d2);
        }
      }
    }
  }

  lemma {:induction false} SetDefaultKeys(l: Ledger, r: string, d: string)
    ensures Regions(SetDefault(l, r, d)) == if r in Regions(l) then Regions(l) else Regions(l) + [r]
    ensures forall r2 :: Departments(SetDefault(l, r, d), r2)
                         == if r2 == r && d !in Departments(l, r) then Departments(l, r) + [d] else Departments(l, r2)
  {
    FindRegionNames(l, r);
    var l' := SetDefault(l, r, d);
    if l == [] {
      SetDefaultDeptEffect([], d);
      assert l'[1..] == [];
    } else if l[0].region == r {
      SetDefaultDeptEffect(l[0].depts, d);
      assert l'[0] == RegionCosts(r, SetDefaultDept(l[0].depts, d)) && l'[1..] == l[1..];
    } else {
      SetDefaultKeys(l[1..], r, d);
      FindRegionNames(l[1..], r);
      assert l'[0] == l[0] && l'[1..] == SetDefault(l[1..], r, d);
      forall r2
        ensures Departments(l', r2)
                == if r2 == r && d !in Departments(l, r) then Departments(l, r) + [d] else Departments(l, r2)
      {
        if r2 != l[0].region {
          assert Departments(l', r2) == Departments(l'[1..], r2);
        }
      }
    }
  }

  /**
   Add changes only the cell of `r` and `d`, by exactly `amount`, and leaves
   every key and its order as it was; the total grows by `amount`.
   */
  lemma {:induction false} AddEffect(l: Ledger, r: string, d: string, amount: real)
    requires Cell(l, r, d).Some?
    ensures forall r2, d2 :: Cell(Add(l, r, d, amount), r2, d2)
                             == if r2 == r && d2 == d then Some(Cell(l, r, d).value + amount) else Cell(l, r2, d2)
    ensures Regions(Add(l, r, d, amount)) == Regions(l)
    ensures forall r2 :: Departments(Add(l, r, d, amount), r2) == Departments(l, r2)
    ensures Total(Add(l, r, d, amount)) == Total(l) + amount
  {
    var l' := Add(l, r, d, amount);
    if l[0].region == r {
      AddToDeptEffect(l[0].depts, d, amount);
      assert l'[1..] == l[1..];
    } else {
      AddEffect(l[1..], r, d, amount);
      assert l'[0] == l[0] && l'[1..] == Add(l[1..], r, d, amount);
      forall r2, d2
        ensures Cell(l', r2, d2)
                == if r2 == r && d2 == d then Some(Cell(l, r, d).value + amount) else Cell(l, r2, d2)
      {
        if r2 != l[0].region {
          assert Cell(l', r2, d2) == Cell(l'[1..], r2, d2);
        }
      }
      forall r2
        ensures Departments(l', r2) == Departments(l, r2)
      {
        if r2 != l[0].region {
          assert Departments(l', r2) == Departments(l'[1..], r2);
        }
      }
    }
  }
}
