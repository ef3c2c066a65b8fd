/** The end of an evaluation: the cells it created are charged to their meters, all of them or
    none, and a meter that breaks does not keep the others from being paid back. */
module Settlement {
  import opened Forms
  import opened Arithmetic

  datatype Amount = Amount(bytes: nat, slots: nat)

  datatype Limits = Limits(maxBytes: int, maxSlots: int)

  /** A cell created by the evaluation: its meter and size, and whether it was meanwhile taken
      back by an aborted registration or swept by a rebuild. */
  datatype Pending = Pending(cell: nat, meter: Option<nat>, bytes: nat, slots: nat, dropped: bool, rebuilt: bool)

  datatype Bill = Bill(meter: nat, amount: Amount)

  datatype Outcome = Settled | Denied | Panicked

  type Balances = map<nat, Amount>

  function Plus(a: Amount, b: Amount): Amount {
    Amount(a.bytes + b.bytes, a.slots + b.slots)
  }

  predicate AtMost(a: Amount, b: Amount) {
    a.bytes <= b.bytes && a.slots <= b.slots
  }

  const ZERO := Amount(0, 0)

  function Size(p: Pending): Amount {
    Amount(p.bytes, p.slots)
  }

  // ---- what settlement owes each meter ----

  /** The live pendings of a meter. */
  function Owed(ps: seq<Pending>, m: nat): Amount {
    if ps == [] then ZERO
    else
      var p := ps[|ps| - 1];
      var before := Owed(ps[..|ps| - 1], m);
      if !p.dropped && p.meter == Some(m) then Plus(before, Size(p)) else before
  }

  /** Those whose cell is still there. */
  function Kept(ps: seq<Pending>, m: nat): Amount {
    if ps == [] then ZERO
    else
      var p := ps[|ps| - 1];
      var before := Kept(ps[..|ps| - 1], m);
      if !p.dropped && !p.rebuilt && p.meter == Some(m) then Plus(before, Size(p)) else before
  }

  /** What a list of bills says about a meter. */
  function Billed(bills: seq<Bill>, m: nat): Amount {
    if bills == [] then ZERO
    else
      var b := bills[|bills| - 1];
      var before := Billed(bills[..|bills| - 1], m);
      if b.meter == m then Plus(before, b.amount) else before
  }

  /** The meter and size each surviving cell carries from now on. */
  function Recorded(cells: map<nat, (Option<nat>, nat)>, ps: seq<Pending>): map<nat, (Option<nat>, nat)> {
    if ps == [] then cells
    else
      var p := ps[|ps| - 1];
      var before := Recorded(cells, ps[..|ps| - 1]);
      if p.dropped || p.rebuilt then before else before[p.cell := (p.meter, p.bytes)]
  }

  function Swept(ps: seq<Pending>): seq<Bill> {
    if ps == [] then []
    else
      var p := ps[|ps| - 1];
      Swept(ps[..|ps| - 1]) + if !p.dropped && p.rebuilt && p.meter.Some? && Size(p) != ZERO
          then [Bill(p.meter.value, Size(p))] else []
  }

  lemma {:induction false} SweptRest(ps: seq<Pending>, m: nat)
    ensures Kept(ps, m).bytes + Billed(Swept(ps), m).bytes == Owed(ps, m).bytes
    ensures Kept(ps, m).slots + Billed(Swept(ps), m).slots == Owed(ps, m).slots
  {
    if ps != [] {
      var k := |ps| - 1;
      SweptRest(ps[..k], m);
      SweptNext(ps, m);
    }
  }

  lemma {:induction false} SweptNext(ps: seq<Pending>, m: nat)
    requires ps != []
    ensures var p, before, now := ps[|ps| - 1], Billed(Swept(ps[..|ps| - 1]), m), Billed(Swept(ps), m);
      var counts := !p.dropped && p.rebuilt && p.meter == Some(m);
      && now.bytes == before.bytes + (if counts then p.bytes else 0)
      && now.slots == before.slots + (if counts then p.slots else 0)
  {
    var p, bills := ps[|ps| - 1], Swept(ps[..|ps| - 1]);
    if !p.dropped && p.rebuilt && p.meter.Some? && Size(p) != ZERO {
      assert Swept(ps)[..|bills|] == bills;
    } else {
      assert Swept(ps) == bills;
    }
  }

  /** A pending whose cell is still there. */
  predicate Stays(p: Pending) {
    !p.dropped && !p.rebuilt
  }

  /** A cell carries the meter and size of the last pending for it that stays, and what it carried
      before if there is none. */
  lemma {:induction false} RecordedIs(cells: map<nat, (Option<nat>, nat)>, ps: seq<Pending>, cell: nat, i: nat)
    requires i < |ps| ==> ps[i].cell == cell && Stays(ps[i])
    requires forall j :: i < j < |ps| && ps[j].cell == cell ==> !Stays(ps[j])
    requires i >= |ps| ==> forall j :: 0 <= j < |ps| && ps[j].cell == cell ==> !Stays(ps[j])
    ensures var r := Recorded(cells, ps);
      if i < |ps| then cell in r && r[cell] == (ps[i].meter, ps[i].bytes)
      else (cell in r <==> cell in cells) && (cell in cells ==> r[cell] == cells[cell])
    decreases |ps|
  {
    if ps == [] {
    } else {
      var n := |ps| - 1;
      if i != n { RecordedIs(cells, ps[..n], cell, if i < n then i else n); }
    }
  }

  function CellsOf(ps: seq<Pending>): seq<nat> {
    seq(|ps|, i requires 0 <= i < |ps| => ps[i].cell)
  }

  predicate Apart(ids: seq<nat>) {
    forall i, j :: 0 <= i < j < |ids| ==> ids[i] != ids[j]
  }

  /** The bytes of those cells that carry the meter. */
  function Carried(cells: map<nat, (Option<nat>, nat)>, ids: seq<nat>, m: nat): nat {
    if ids == [] then 0
    else
      var id := ids[|ids| - 1];
      Carried(cells, ids[..|ids| - 1], m) + if id in cells && cells[id].0 == Some(m) then cells[id].1 else 0
  }

  lemma {:induction false} CarriedElsewhere(cells: map<nat, (Option<nat>, nat)>, ids: seq<nat>, m: nat, id: nat,
      v: (Option<nat>, nat))
    requires id !in ids
    ensures Carried(cells[id := v], ids, m) == Carried(cells, ids, m)
    decreases |ids|
  {
    if ids == [] {
    } else {
      CarriedElsewhere(cells, ids[..|ids| - 1], m, id, v);
    }
  }

  /** What settling leaves charged to a meter is the size of the cells that from now on carry it. */
  lemma {:induction false} KeptIsCarried(ps: seq<Pending>, m: nat)
    requires Apart(CellsOf(ps))
    ensures Kept(ps, m).bytes == Carried(Recorded(map[], ps), CellsOf(ps), m)
    decreases |ps|
  {
    if ps == [] {
    } else {
      var n := |ps| - 1;
      var before, p, ids := ps[..n], ps[n], CellsOf(ps);
      assert CellsOf(before) == ids[..n];
      assert ids[n] == p.cell && p.cell !in ids[..n];
      KeptIsCarried(before, m);
      var cells := Recorded(map[], before);
      CarriedElsewhere(cells, ids[..n], m, p.cell, (p.meter, p.bytes));
      NotYet(before, p.cell);
    }
  }

  lemma {:induction false} NotYet(ps: seq<Pending>, cell: nat)
    requires cell !in CellsOf(ps)
    ensures cell !in Recorded(map[], ps)
    decreases |ps|
  {
    if ps == [] {
    } else {
      var n := |ps| - 1;
      assert CellsOf(ps)[..n] == CellsOf(ps[..n]) && CellsOf(ps)[n] == ps[n].cell;
      NotYet(ps[..n], cell);
    }
  }

  /** Room for a charge on both counts. */
  predicate Fits(balance: Amount, l: Limits, a: Amount) {
    && (a.bytes > 0 ==> a.bytes <= Top(l.maxBytes) - balance.bytes)
    && (a.slots > 0 ==> a.slots <= Top(l.maxSlots) - balance.slots)
  }

  // ---- bills ----

  ghost predicate Distinct(bills: seq<Bill>) {
    forall i, j :: 0 <= i < j < |bills| ==> bills[i].meter != bills[j].meter
  }

  lemma {:induction false} BilledOnce(bills: seq<Bill>, k: nat, i: nat)
    requires Distinct(bills) && k <= |bills| && i < |bills|
    ensures Billed(bills[..k], bills[i].meter) == if i < k then bills[i].amount else ZERO
    decreases k
  {
    if k > 0 {
      BilledOnce(bills, k - 1, i);
      assert bills[..k][..k - 1] == bills[..k - 1];
    }
  }

  lemma {:induction false} BilledNext(bills: seq<Bill>, k: nat, m: nat)
    requires k < |bills|
    ensures Billed(bills[..k + 1], m) == if bills[k].meter == m then Plus(Billed(bills[..k], m), bills[k].amount)
        else Billed(bills[..k], m)
  {
    assert bills[..k + 1][..k] == bills[..k];
  }

  lemma {:induction false} BilledGrows(bills: seq<Bill>, k: nat, m: nat)
    requires k <= |bills|
    ensures AtMost(Billed(bills[..k], m), Billed(bills, m))
    decreases |bills| - k
  {
    if k < |bills| {
      BilledNext(bills, k, m);
      BilledGrows(bills, k + 1, m);
    } else {
      assert bills[..k] == bills;
    }
  }

  ghost predicate Bills(bills: seq<Bill>, ps: seq<Pending>) {
    && Distinct(bills)
    && (forall m :: Billed(bills, m) == Owed(ps, m))
    && (forall i :: 0 <= i < |bills| ==> Owed(ps, bills[i].meter) == bills[i].amount != ZERO)
  }

  lemma {:induction false} BillsFrom(bills: seq<Bill>, ps: seq<Pending>)
    requires Distinct(bills)
    requires forall m :: Owed(ps, m) != ZERO ==> exists i :: 0 <= i < |bills| && bills[i].meter == m
    requires forall i :: 0 <= i < |bills| ==> Owed(ps, bills[i].meter) == bills[i].amount != ZERO
    ensures Bills(bills, ps)
  {
    hide Owed;
    forall m ensures Billed(bills, m) == Owed(ps, m) {
      assert bills[..|bills|] == bills;
      if i :| 0 <= i < |bills| && bills[i].meter == m {
        BilledOnce(bills, |bills|, i);
      } else {
        Unbilled(bills, m);
      }
    }
  }

  lemma {:induction false} Unbilled(bills: seq<Bill>, m: nat)
    requires forall i :: 0 <= i < |bills| ==> bills[i].meter != m
    ensures Billed(bills, m) == ZERO
  {
    if bills != [] { Unbilled(bills[..|bills| - 1], m); }
  }

  // ---- the ledger ----

  class Ledger {
    const limits: map<nat, Limits>
    /** Meters whose charge, or whose release, panics before it changes anything. */
    const breaksCharge: set<nat>
    const breaksRelease: set<nat>
    var balances: Balances
    var cells: map<nat, (Option<nat>, nat)>
    var pending: seq<Pending>

    constructor (limits: map<nat, Limits>, breaksCharge: set<nat>, breaksRelease: set<nat>, balances: Balances)
      requires balances.Keys == limits.Keys
      ensures Valid() && this.limits == limits && this.breaksCharge == breaksCharge
      ensures this.breaksRelease == breaksRelease
      ensures this.balances == balances && cells == map[] && pending == []
    {
      this.limits, this.breaksCharge, this.breaksRelease := limits, breaksCharge, breaksRelease;
      this.balances, cells, pending := balances, map[], [];
    }

    ghost predicate Valid()
      reads this
    {
      && balances.Keys == limits.Keys
      && (forall i :: 0 <= i < |pending| && pending[i].meter.Some? ==> pending[i].meter.value in limits)
    }

    ghost predicate Takes(m: nat, a: Amount)
      reads this
      requires Valid() && m in limits
    {
      m !in breaksCharge && Fits(balances[m], limits[m], a)
    }

    /** Bytes first; if the slots are then refused the bytes are given back. */
    method ChargeRetained(m: nat, a: Amount) returns (r: Outcome)
      requires Valid() && m in limits
      modifies this`balances
      ensures Valid()
      ensures r.Settled? <==> old(Takes(m, a))
      ensures r.Settled? ==> balances == old(balances)[m := Plus(old(balances)[m], a)]
      ensures !r.Settled? ==> balances == old(balances)
      ensures r.Panicked? <==> m in breaksCharge
    {
      if m in breaksCharge { return Panicked; }
      var b := balances[m];
      if a.bytes > 0 && a.bytes > Top(limits[m].maxBytes) - b.bytes { return Denied; }
      balances := balances[m := b.(bytes := b.bytes + a.bytes)];
      if a.slots > 0 && a.slots > Top(limits[m].maxSlots) - b.slots {
        balances := balances[m := b];
        return Denied;
      }
      balances := balances[m := Plus(b, a)];
      return Settled;
    }

    method ReleaseRetained(m: nat, a: Amount) returns (ok: bool)
      requires Valid() && m in limits
      modifies this`balances
      ensures Valid() && (ok <==> m !in breaksRelease)
      ensures forall k :: k in balances && (k != m || !ok) ==> balances[k] == old(balances)[k]
      ensures ok && AtMost(a, old(balances)[m]) ==> Plus(balances[m], a) == old(balances)[m]
    {
      if m in breaksRelease { return false; }
      var b := balances[m];
      balances := balances[m := Amount(if b.bytes < a.bytes then 0 else b.bytes - a.bytes, if b.slots < a.slots then 0
          else b.slots - a.slots)];
      return true;
    }

    /** Every bill is paid back, whichever meters break. */
    method ReleaseAll(bills: seq<Bill>) returns (ok: bool)
      requires Valid()
      requires forall i :: 0 <= i < |bills| ==> bills[i].meter in limits
      requires forall m :: m in balances ==> AtMost(Billed(bills, m), balances[m])
      modifies this`balances
      ensures Valid()
      ensures ok <==> forall i :: 0 <= i < |bills| ==> bills[i].meter !in breaksRelease
      ensures forall m :: m in balances && m !in breaksRelease ==>
        Plus(balances[m], Billed(bills, m)) == old(balances)[m]
    {
      hide Billed;
      ok := true;
      ghost var start := balances;
      assert Back(start, balances, bills[..0]) by { BackStart(start, bills); }
      for i := 0 to |bills|
        invariant Valid() && Back(start, balances, bills[..i])
        invariant ok <==> forall j :: 0 <= j < i ==> bills[j].meter !in breaksRelease
      {
        var b := bills[i];
        ghost var before := balances;
        BackRoom(start, before, bills, i);
        var released := ReleaseRetained(b.meter, b.amount);
        ok := ok && released;
        BackNext(start, before, balances, bills, i);
      }
      assert bills[..|bills|] == bills;
    }

    /** What the bills say has been given back, outside the meters that break. */
    ghost predicate Back(start: Balances, now: Balances, bills: seq<Bill>) {
      start.Keys == now.Keys && forall m :: m in start && m !in breaksRelease ==>
        Plus(now[m], Billed(bills, m)) == start[m]
    }

    lemma BackStart(start: Balances, bills: seq<Bill>)
      ensures Back(start, start, bills[..0])
    {
    }

    lemma BackRoom(start: Balances, now: Balances, bills: seq<Bill>, i: nat)
      requires i < |bills| && Back(start, now, bills[..i])
      requires forall m :: m in start ==> AtMost(Billed(bills, m), start[m])
      ensures bills[i].meter in start && bills[i].meter !in breaksRelease ==>
        AtMost(bills[i].amount, now[bills[i].meter])
    {
      hide Billed;
      BilledNext(bills, i, bills[i].meter);
      BilledGrows(bills, i + 1, bills[i].meter);
    }

    lemma BackNext(start: Balances, before: Balances, now: Balances, bills: seq<Bill>, i: nat)
      requires i < |bills| && Back(start, before, bills[..i]) && before.Keys == now.Keys
      requires bills[i].meter in before
      requires forall k :: k in now && k != bills[i].meter ==> now[k] == before[k]
      requires bills[i].meter !in breaksRelease ==> Plus(now[bills[i].meter], bills[i].amount) == before[bills[i].meter]
      ensures Back(start, now, bills[..i + 1])
    {
      hide Billed;
      forall m | m in start && m !in breaksRelease ensures Plus(now[m], Billed(bills[..i + 1], m)) == start[m] {
        BilledNext(bills, i, m);
      }
    }

    /** What the bills say has been charged. */
    ghost predicate Up(start: Balances, now: Balances, bills: seq<Bill>) {
      start.Keys == now.Keys && forall m :: m in start ==> now[m] == Plus(start[m], Billed(bills, m))
    }

    lemma UpNext(start: Balances, before: Balances, bills: seq<Bill>, i: nat)
      requires i < |bills| && Up(start, before, bills[..i]) && bills[i].meter in before
      ensures Up(start, before[bills[i].meter := Plus(before[bills[i].meter], bills[i].amount)], bills[..i + 1])
    {
      hide Billed;
      var b := bills[i];
      var now := before[b.meter := Plus(before[b.meter], b.amount)];
      forall m | m in start ensures now[m] == Plus(start[m], Billed(bills[..i + 1], m)) {
        BilledNext(bills, i, m);
      }
    }

    lemma UpOther(start: Balances, now: Balances, bills: seq<Bill>, i: nat)
      requires i < |bills| && Distinct(bills) && Up(start, now, bills[..i]) && bills[i].meter in start
      ensures now[bills[i].meter] == start[bills[i].meter]
    {
      hide Billed;
      BilledOnce(bills, i, i);
    }

    /** Charges bill by bill; when one is not taken, gives every earlier one back. */
    method ChargeAll(bills: seq<Bill>) returns (r: Outcome)
      requires Valid() && Distinct(bills)
      requires forall i :: 0 <= i < |bills| ==> bills[i].meter in limits
      modifies this`balances
      ensures Valid()
      ensures r.Settled? <==> forall i :: 0 <= i < |bills| ==> old(Takes(bills[i].meter, bills[i].amount))
      ensures r.Settled? ==> Up(old(balances), balances, bills)
      ensures !r.Settled? ==> forall m :: m in balances && m !in breaksRelease ==> balances[m] == old(balances)[m]
    {
      hide Billed, Up, Fits, Distinct;
      ghost var start := balances;
      assert Up(start, balances, bills[..0]) by { UpStart(start, bills); }
      for i := 0 to |bills|
        invariant Valid() && Up(start, balances, bills[..i])
        invariant forall j :: 0 <= j < i ==> old(Takes(bills[j].meter, bills[j].amount))
      {
        var b := bills[i];
        UpKeys(start, balances, bills[..i]);
        UpOther(start, balances, bills, i);
        UpNext(start, balances, bills, i);
        r := ChargeRetained(b.meter, b.amount);
        if !r.Settled? {
          UpRoom(start, balances, bills[..i]);
          ghost var up := balances;
          var ok := ReleaseAll(bills[..i]);
          DownAgain(start, up, balances, bills[..i]);
          if !ok { r := Panicked; }
          return;
        }
      }
      assert bills[..|bills|] == bills;
      return Settled;
    }

    lemma UpStart(start: Balances, bills: seq<Bill>)
      ensures Up(start, start, bills[..0])
    {
    }

    lemma UpKeys(start: Balances, now: Balances, bills: seq<Bill>)
      requires Up(start, now, bills)
      ensures start.Keys == now.Keys
    {
    }

    lemma UpRoom(start: Balances, now: Balances, bills: seq<Bill>)
      requires Up(start, now, bills)
      ensures forall m :: m in now ==> AtMost(Billed(bills, m), now[m])
    {
      hide Billed;
    }

    lemma DownAgain(start: Balances, up: Balances, now: Balances, bills: seq<Bill>)
      requires Up(start, up, bills) && now.Keys == up.Keys
      requires forall m :: m in now && m !in breaksRelease ==> Plus(now[m], Billed(bills, m)) == up[m]
      ensures forall m :: m in now && m !in breaksRelease ==> now[m] == start[m]
    {
      hide Billed;
    }

    /** One bill per meter, in the order the meters are first met. */
    method Gather() returns (bills: seq<Bill>)
      requires Valid()
      ensures Bills(bills, pending)
      ensures forall i :: 0 <= i < |bills| ==> bills[i].meter in limits
    {
      hide Owed, Valid;
      var order: seq<nat>, charges: map<nat, Amount> := [], map[];
      assert Tallied(order, charges, pending[..0]) by { TallyStart(pending); }
      for i := 0 to |pending|
        invariant Tallied(order, charges, pending[..i])
        invariant forall m :: m in charges ==> m in limits
      {
        var p := pending[i];
        TallyNext(order, charges, pending, i);
        if !p.dropped && p.meter.Some? && Size(p) != ZERO {
          var m := p.meter.value;
          MeterKnown(i);
          if m !in charges {
            charges, order := charges[m := ZERO], order + [m];
            PlusZero(Size(p));
          }
          charges := charges[m := Plus(charges[m], Size(p))];
        }
      }
      bills := seq(|order|, i requires 0 <= i < |order| && order[i] in charges => Bill(order[i], charges[order[i]]));
      assert pending[..|pending|] == pending;
      TallyBills(order, charges, pending, bills);
    }

    lemma MeterKnown(i: nat)
      requires Valid() && i < |pending| && pending[i].meter.Some?
      ensures pending[i].meter.value in limits
    {
    }

    /** Surviving cells take on their meter and size; what swept cells were charged goes back. */
    method Record() returns (releases: seq<Bill>)
      modifies this`cells
      ensures cells == Recorded(old(cells), pending) && releases == Swept(pending)
    {
      releases := [];
      for i := 0 to |pending|
        invariant cells == Recorded(old(cells), pending[..i]) && releases == Swept(pending[..i])
      {
        var p := pending[i];
        assert pending[..i + 1][..i] == pending[..i];
        if !p.dropped {
          if p.rebuilt {
            if p.meter.Some? && Size(p) != ZERO { releases := releases + [Bill(p.meter.value, Size(p))]; }
          } else {
            cells := cells[p.cell := (p.meter, p.bytes)];
          }
        }
      }
      assert pending[..|pending|] == pending;
    }

    /** Every meter takes what it is owed. */
    ghost predicate AllTake()
      reads this
      requires Valid()
    {
      forall m :: m in limits && Owed(pending, m) != ZERO ==> Takes(m, Owed(pending, m))
    }

    /** Either every meter takes its share, and is left with the cells that are still there;
        or no balance and no cell changes, except at a meter whose release breaks. */
    method Settle() returns (r: Outcome)
      requires Valid()
      modifies this
      ensures Valid() && pending == []
      ensures r.Settled? <==> old(AllTake()) && forall b :: b in Swept(old(pending)) ==> b.meter !in breaksRelease
      ensures old(AllTake()) ==> cells == Recorded(old(cells), old(pending))
      ensures !old(AllTake()) ==> cells == old(cells)
      ensures forall m :: m in balances && m !in breaksRelease ==>
        balances[m] == if old(AllTake()) then Plus(old(balances)[m], Kept(old(pending), m)) else old(balances)[m]
    {
      hide Owed, Kept, Billed, Fits, Distinct, Up, Swept, Recorded;
      ghost var start := balances;
      var bills := Gather();
      BillsAre(bills);
      r := ChargeAll(bills);
      if r.Settled? {
        SweptCovers(start, bills);
        var releases := Record();
        var ok := ReleaseAll(releases);
        if !ok { r := Panicked; }
      }
      pending := [];
    }

    lemma SweptCovers(start: Balances, bills: seq<Bill>)
      requires Valid() && Bills(bills, pending) && Up(start, balances, bills)
      ensures forall m :: m in balances ==> AtMost(Billed(Swept(pending), m), balances[m])
      ensures forall m :: m in balances ==>
        balances[m] == Plus(Plus(start[m], Kept(pending, m)), Billed(Swept(pending), m))
      ensures forall i :: 0 <= i < |Swept(pending)| ==> Swept(pending)[i].meter in limits
    {
      hide Bills, Billed, Swept, Kept;
      forall m | m in balances
        ensures AtMost(Billed(Swept(pending), m), balances[m])
        ensures balances[m] == Plus(Plus(start[m], Kept(pending, m)), Billed(Swept(pending), m))
      {
        SweptCovered(start, balances, bills, pending, m);
      }
      forall i | 0 <= i < |Swept(pending)| ensures Swept(pending)[i].meter in limits {
        SweptFrom(pending, i);
      }
    }

    lemma BillsAre(bills: seq<Bill>)
      requires Valid() && Bills(bills, pending)
      requires forall i :: 0 <= i < |bills| ==> bills[i].meter in limits
      ensures Distinct(bills)
      ensures AllTake() <==> forall i :: 0 <= i < |bills| ==> Takes(bills[i].meter, bills[i].amount)
    {
      hide Owed, Fits;
      if forall i :: 0 <= i < |bills| ==> Takes(bills[i].meter, bills[i].amount) {
        forall m | m in limits && Owed(pending, m) != ZERO ensures Takes(m, Owed(pending, m)) {
          if forall i :: 0 <= i < |bills| ==> bills[i].meter != m { Unbilled(bills, m); }
        }
      }
    }
  }

  lemma {:induction false} SweptCovered(start: Balances, up: Balances, bills: seq<Bill>, ps: seq<Pending>, m: nat)
    requires Bills(bills, ps) && m in start && m in up && up[m] == Plus(start[m], Billed(bills, m))
    ensures AtMost(Billed(Swept(ps), m), up[m])
    ensures up[m] == Plus(Plus(start[m], Kept(ps, m)), Billed(Swept(ps), m))
  {
    hide Billed, Owed, Swept, Kept;
    SweptRest(ps, m);
  }

  lemma {:induction false} SweptFrom(ps: seq<Pending>, i: nat)
    requires i < |Swept(ps)|
    ensures exists j :: 0 <= j < |ps| && ps[j].meter == Some(Swept(ps)[i].meter)
  {
    var k := |ps| - 1;
    if i < |Swept(ps[..k])| {
      SweptFrom(ps[..k], i);
      var j :| 0 <= j < k && ps[..k][j].meter == Some(Swept(ps[..k])[i].meter);
      assert ps[j].meter == Some(Swept(ps)[i].meter);
    } else {
      assert ps[k].meter == Some(Swept(ps)[i].meter);
    }
  }

  // ---- gathering ----

  ghost predicate Tallied(order: seq<nat>, charges: map<nat, Amount>, ps: seq<Pending>) {
    && (forall i, j :: 0 <= i < j < |order| ==> order[i] != order[j])
    && (forall m :: m in charges <==> m in order)
    && (forall m :: m in charges ==> charges[m] == Owed(ps, m) && charges[m] != ZERO)
    && (forall m :: m !in charges ==> Owed(ps, m) == ZERO)
  }

  lemma {:induction false} TallyStart(ps: seq<Pending>)
    ensures Tallied([], map[], ps[..0])
  {
  }

  lemma {:induction false} OwedNext(ps: seq<Pending>, i: nat, m: nat)
    requires i < |ps|
    ensures Owed(ps[..i + 1], m) == if !ps[i].dropped && ps[i].meter == Some(m) then Plus(Owed(ps[..i], m), Size(ps[i]))
        else Owed(ps[..i], m)
  {
    assert ps[..i + 1][..i] == ps[..i];
  }

  /** The pending after ps changes one meter's share. */
  ghost predicate Adds(ps: seq<Pending>, qs: seq<Pending>, m: nat, a: Amount) {
    && Owed(qs, m) == Plus(Owed(ps, m), a)
    && (forall k: nat :: k != m ==> Owed(qs, k) == Owed(ps, k))
  }

  lemma {:induction false} TallyOld(order: seq<nat>, charges: map<nat, Amount>, ps: seq<Pending>, qs: seq<Pending>,
      m: nat, a: Amount)
    requires Tallied(order, charges, ps) && m in charges && Adds(ps, qs, m, a)
    ensures Tallied(order, charges[m := Plus(charges[m], a)], qs)
  {
    hide Owed;
  }

  lemma {:induction false} TallyFresh(order: seq<nat>, charges: map<nat, Amount>, ps: seq<Pending>, qs: seq<Pending>,
      m: nat, a: Amount)
    requires Tallied(order, charges, ps) && m !in charges && Adds(ps, qs, m, a) && a != ZERO
    ensures Tallied(order + [m], charges[m := a], qs)
  {
    hide Owed, Plus;
    PlusZero(a);
  }

  lemma {:induction false} TallySkip(order: seq<nat>, charges: map<nat, Amount>, ps: seq<Pending>, qs: seq<Pending>)
    requires Tallied(order, charges, ps) && forall k: nat :: Owed(qs, k) == Owed(ps, k)
    ensures Tallied(order, charges, qs)
  {
    hide Owed;
  }

  lemma {:induction false} PlusZero(a: Amount)
    ensures Plus(ZERO, a) == a == Plus(a, ZERO)
  {
  }

  lemma {:induction false} TallyNext(order: seq<nat>, charges: map<nat, Amount>, ps: seq<Pending>, i: nat)
    requires i < |ps| && Tallied(order, charges, ps[..i])
    ensures var p := ps[i];
      if !p.dropped && p.meter.Some? && Size(p) != ZERO
      then
        var m := p.meter.value;
        if m in charges then Tallied(order, charges[m := Plus(charges[m], Size(p))], ps[..i + 1])
        else Tallied(order + [m], charges[m := Size(p)], ps[..i + 1])
      else Tallied(order, charges, ps[..i + 1])
  {
    hide Owed, Plus, Tallied;
    var p, before, after := ps[i], ps[..i], ps[..i + 1];
    forall m: nat ensures Owed(after, m) == if !p.dropped && p.meter == Some(m) then Plus(Owed(before, m), Size(p))
        else Owed(before, m) {
      OwedNext(ps, i, m);
    }
    if !p.dropped && p.meter.Some? && Size(p) != ZERO {
      var m := p.meter.value;
      if m in charges { TallyOld(order, charges, before, after, m, Size(p)); }
      else { TallyFresh(order, charges, before, after, m, Size(p)); }
    } else {
      forall m: nat ensures Owed(after, m) == Owed(before, m) { PlusZero(Owed(before, m)); }
      TallySkip(order, charges, before, after);
    }
  }

  lemma {:induction false} TallyBills(order: seq<nat>, charges: map<nat, Amount>, ps: seq<Pending>, bills: seq<Bill>)
    requires Tallied(order, charges, ps)
    requires |bills| == |order|
    requires forall i :: 0 <= i < |order| ==> order[i] in charges && bills[i] == Bill(order[i], charges[order[i]])
    ensures Bills(bills, ps)
  {
    hide Owed;
    forall m | Owed(ps, m) != ZERO ensures exists i :: 0 <= i < |bills| && bills[i].meter == m {
      var i :| 0 <= i < |order| && order[i] == m;
      assert bills[i].meter == m;
    }
    BillsFrom(bills, ps);
  }
}
