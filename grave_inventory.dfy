/** The grave inventory store: graveyards own plots, plots own graves.
    Graveyards carry a denormalised `totalPlots`; creating a plot creates its
    `rows * columns` graves, and deletes cascade down the hierarchy.

    The pure functions on `Inventory` are the store's operations on one
    snapshot; `GraveyardStore` holds the three lists as fields and its methods
    perform the same steps in place. Fresh ids and the current time are
    parameters. */
module GraveInventory {
  import opened Collections

  datatype GraveStatus = Available | Unavailable

  datatype Graveyard = Graveyard(id: string, name: string, location: string, totalPlots: int, createdAt: int)

  datatype Plot = Plot(id: string, graveyardId: string, plotNumber: string, rows: int, columns: int,
                       totalGraves: int, createdAt: int)

  datatype Grave = Grave(id: string, plotId: string, graveNumber: int, status: GraveStatus,
                         reservedBy: Option<string>)

  /** `Partial<Graveyard>`: every field may be absent. */
  datatype GraveyardPatch = GraveyardPatch(id: Option<string>, name: Option<string>, location: Option<string>,
                                           totalPlots: Option<int>, createdAt: Option<int>)

  /** `Partial<Plot>`. */
  datatype PlotPatch = PlotPatch(id: Option<string>, graveyardId: Option<string>, plotNumber: Option<string>,
                                 rows: Option<int>, columns: Option<int>, totalGraves: Option<int>,
                                 createdAt: Option<int>)

  /** `Partial<Grave>`; `reservedBy := Some(None)` is the key set to `undefined`, which clears it. */
  datatype GravePatch = GravePatch(id: Option<string>, plotId: Option<string>, graveNumber: Option<int>,
                                   status: Option<GraveStatus>, reservedBy: Option<Option<string>>)

  /** What addPlot is given: a plot without id, creation time and grave count. */
  datatype PlotFields = PlotFields(graveyardId: string, plotNumber: string, rows: int, columns: int)

  /** One snapshot of the store's three lists. */
  datatype Inventory = Inventory(graveyards: seq<Graveyard>, plots: seq<Plot>, graves: seq<Grave>)

  // ---------------------------------------------------------------------------
  // Merges, selections and counts

  function MergeGraveyard(g: Graveyard, u: GraveyardPatch): Graveyard
  {
    Graveyard(Pick(u.id, g.id), Pick(u.name, g.name), Pick(u.location, g.location),
              Pick(u.totalPlots, g.totalPlots), Pick(u.createdAt, g.createdAt))
  }

  function MergePlot(p: Plot, u: PlotPatch): Plot
  {
    Plot(Pick(u.id, p.id), Pick(u.graveyardId, p.graveyardId), Pick(u.plotNumber, p.plotNumber),
         Pick(u.rows, p.rows), Pick(u.columns, p.columns), Pick(u.totalGraves, p.totalGraves),
         Pick(u.createdAt, p.createdAt))
  }

  function MergeGrave(v: Grave, u: GravePatch): Grave
  {
    Grave(Pick(u.id, v.id), Pick(u.plotId, v.plotId), Pick(u.graveNumber, v.graveNumber),
          Pick(u.status, v.status), Pick(u.reservedBy, v.reservedBy))
  }

  function PlotKey(p: Plot): string { p.id }

  function InGraveyard(graveyardId: string): Plot -> bool { (p: Plot) => p.graveyardId == graveyardId }
  function OutsideGraveyard(graveyardId: string): Plot -> bool { (p: Plot) => p.graveyardId != graveyardId }
  function PlotIs(id: string): Plot -> bool { (p: Plot) => p.id == id }
  function PlotIsNot(id: string): Plot -> bool { (p: Plot) => p.id != id }
  function GraveyardIsNot(id: string): Graveyard -> bool { (g: Graveyard) => g.id != id }
  function OnPlot(plotId: string): Grave -> bool { (v: Grave) => v.plotId == plotId }
  function OffPlot(plotId: string): Grave -> bool { (v: Grave) => v.plotId != plotId }
  function OffPlots(plotIds: set<string>): Grave -> bool { (v: Grave) => v.plotId !in plotIds }

  function GraveyardIds(gs: seq<Graveyard>): set<string> { set g | g in gs :: g.id }
  function PlotIds(ps: seq<Plot>): set<string> { set p | p in ps :: p.id }

  /** Number of plots that reference the graveyard. */
  function PlotCount(ps: seq<Plot>, graveyardId: string): nat { |Filter(ps, InGraveyard(graveyardId))| }

  /** Number of graves that reference the plot. */
  function GraveCount(vs: seq<Grave>, plotId: string): nat { |Filter(vs, OnPlot(plotId))| }

  function Max0(n: int): nat { if n > 0 then n else 0 }

  function Digit(d: nat): char
    requires d < 10
  {
    "0123456789"[d]
  }

  /** `n.toString()` for a natural number. */
  function Decimal(n: nat): string
  {
    if n < 10 then [Digit(n)] else Decimal(n / 10) + [Digit(n % 10)]
  }

  /** Grave ids follow the convention `${plotId}-${n}`. */
  function GraveId(plotId: string, n: nat): string
  {
    plotId + "-" + Decimal(n)
  }

  /** The graves a new plot of `total` graves starts with: numbered 1..total, all available. */
  function FreshGraves(plotId: string, total: int): seq<Grave>
  {
    seq(Max0(total), i requires 0 <= i => Grave(GraveId(plotId, i + 1), plotId, i + 1, Available, None))
  }

  // ---------------------------------------------------------------------------
  // The consistency the store is meant to keep

  /** Every graveyard's denormalised `totalPlots` is the number of plots referencing it. */
  predicate CountsAgree(inv: Inventory)
  {
    forall g :: g in inv.graveyards ==> g.totalPlots == PlotCount(inv.plots, g.id)
  }

  /** Every plot owns exactly as many graves as its `totalGraves` says. */
  predicate GravesFilled(inv: Inventory)
  {
    forall p :: p in inv.plots ==> GraveCount(inv.graves, p.id) == Max0(p.totalGraves)
  }

  /** Every grave belongs to a live plot and every plot to a live graveyard. */
  predicate NoOrphans(inv: Inventory)
  {
    && (forall v :: v in inv.graves ==> v.plotId in PlotIds(inv.plots))
    && (forall p :: p in inv.plots ==> p.graveyardId in GraveyardIds(inv.graveyards))
  }

  predicate Consistent(inv: Inventory)
  {
    UniqueBy(inv.plots, PlotKey) && CountsAgree(inv) && GravesFilled(inv) && NoOrphans(inv)
  }

  // ---------------------------------------------------------------------------
  // Element-wise rewrites of one list

  /** `prev.map(g => g.id === id ? { ...g, ...u } : g)` */
  function PatchGraveyards(gs: seq<Graveyard>, id: string, u: GraveyardPatch): (r: seq<Graveyard>)
    ensures |r| == |gs|
  {
    seq(|gs|, i requires 0 <= i < |gs| => if gs[i].id == id then MergeGraveyard(gs[i], u) else gs[i])
  }

  /** `prev.map(p => p.id === id ? { ...p, ...u } : p)` */
  function PatchPlots(ps: seq<Plot>, id: string, u: PlotPatch): (r: seq<Plot>)
    ensures |r| == |ps|
  {
    seq(|ps|, i requires 0 <= i < |ps| => if ps[i].id == id then MergePlot(ps[i], u) else ps[i])
  }

  /** `prev.map(v => ids.includes(v.id) ? { ...v, ...u } : v)` */
  function PatchGraves(vs: seq<Grave>, ids: seq<string>, u: GravePatch): (r: seq<Grave>)
    ensures |r| == |vs|
  {
    seq(|vs|, i requires 0 <= i < |vs| => if vs[i].id in ids then MergeGrave(vs[i], u) else vs[i])
  }

  /** The parent's count goes up by one when a plot is added. */
  function Incremented(gs: seq<Graveyard>, id: string): (r: seq<Graveyard>)
    ensures |r| == |gs|
  {
    seq(|gs|, i requires 0 <= i < |gs| =>
      if gs[i].id == id then gs[i].(totalPlots := gs[i].totalPlots + 1) else gs[i])
  }

  /** The parent's count goes down by one when a plot is deleted, never below zero. */
  function Decremented(gs: seq<Graveyard>, id: string): (r: seq<Graveyard>)
    ensures |r| == |gs|
  {
    seq(|gs|, i requires 0 <= i < |gs| =>
      if gs[i].id == id then gs[i].(totalPlots := Max0(gs[i].totalPlots - 1))
      else gs[i])
  }

  // ---------------------------------------------------------------------------
  // The store's operations on one snapshot

  /** addGraveyard: append a graveyard with no plots. */
  function AddGraveyard(inv: Inventory, name: string, location: string, id: string, now: int): (r: Inventory)
    ensures r.plots == inv.plots && r.graves == inv.graves
    ensures |r.graveyards| == |inv.graveyards| + 1
    ensures r.graveyards[..|inv.graveyards|] == inv.graveyards
    ensures r.graveyards[|inv.graveyards|] == Graveyard(id, name, location, 0, now)
  {
    inv.(graveyards := inv.graveyards + [Graveyard(id, name, location, 0, now)])
  }

  /** updateGraveyard: merge u into the graveyard(s) with that id. */
  function UpdateGraveyard(inv: Inventory, id: string, u: GraveyardPatch): (r: Inventory)
    ensures r.plots == inv.plots && r.graves == inv.graves
    ensures |r.graveyards| == |inv.graveyards|
    ensures forall i :: 0 <= i < |inv.graveyards| && inv.graveyards[i].id != id ==>
              r.graveyards[i] == inv.graveyards[i]
    ensures forall i :: 0 <= i < |inv.graveyards| && inv.graveyards[i].id == id ==>
              r.graveyards[i] == MergeGraveyard(inv.graveyards[i], u)
    ensures id !in GraveyardIds(inv.graveyards) ==> r == inv
  {
    inv.(graveyards := PatchGraveyards(inv.graveyards, id, u))
  }

  /** deleteGraveyard: remove the graveyard, its plots and their graves. The
      plots to delete are chosen from the snapshot before any removal. */
  function DeleteGraveyard(inv: Inventory, id: string): (r: Inventory)
    ensures forall g :: g in r.graveyards <==> g in inv.graveyards && g.id != id
    ensures forall p :: p in r.plots <==> p in inv.plots && p.graveyardId != id
    ensures forall v :: v in r.graves ==> v in inv.graves
    ensures forall v, p :: v in r.graves && p in inv.plots && p.graveyardId == id ==> v.plotId != p.id
    ensures forall v :: v in inv.graves && v.plotId !in PlotIds(Filter(inv.plots, InGraveyard(id))) ==> v in r.graves
  {
    var doomed := PlotIds(Filter(inv.plots, InGraveyard(id)));
    Inventory(Filter(inv.graveyards, GraveyardIsNot(id)),
              Filter(inv.plots, OutsideGraveyard(id)),
              Filter(inv.graves, OffPlots(doomed)))
  }

  /** The plot addPlot creates. */
  function NewPlot(fields: PlotFields, id: string, now: int): Plot
  {
    Plot(id, fields.graveyardId, fields.plotNumber, fields.rows, fields.columns, fields.rows * fields.columns, now)
  }

  /** addPlot: append the plot, its `rows * columns` fresh graves, and bump the
      parent's `totalPlots`. A parent id that matches no graveyard changes no
      graveyard, but the plot and its graves are still added. */
  function AddPlot(inv: Inventory, fields: PlotFields, id: string, now: int): (r: Inventory)
    ensures r.plots == inv.plots + [NewPlot(fields, id, now)]
    ensures r.plots[|inv.plots|].totalGraves == fields.rows * fields.columns
    ensures |r.graves| == |inv.graves| + Max0(fields.rows * fields.columns)
    ensures r.graves[..|inv.graves|] == inv.graves
    ensures forall k :: |inv.graves| <= k < |r.graves| ==>
              var n := k - |inv.graves| + 1;
              r.graves[k].id == GraveId(id, n) && r.graves[k].plotId == id && r.graves[k].graveNumber == n &&
              r.graves[k].status == Available && r.graves[k].reservedBy == None
    ensures |r.graveyards| == |inv.graveyards|
    ensures forall i :: 0 <= i < |inv.graveyards| ==>
              r.graveyards[i].totalPlots == inv.graveyards[i].totalPlots
                                            + (if inv.graveyards[i].id == fields.graveyardId then 1 else 0)
              && r.graveyards[i].(totalPlots := 0) == inv.graveyards[i].(totalPlots := 0)
    ensures fields.graveyardId !in GraveyardIds(inv.graveyards) ==> r.graveyards == inv.graveyards
  {
    var plot := NewPlot(fields, id, now);
    Inventory(Incremented(inv.graveyards, fields.graveyardId),
              inv.plots + [plot],
              inv.graves + FreshGraves(id, plot.totalGraves))
  }

  /** updatePlot: merge u into the plot(s) with that id. The grave list is
      never touched, even when rows or columns change. */
  function UpdatePlot(inv: Inventory, id: string, u: PlotPatch): (r: Inventory)
    ensures r.graveyards == inv.graveyards && r.graves == inv.graves
    ensures |r.plots| == |inv.plots|
    ensures forall i :: 0 <= i < |inv.plots| && inv.plots[i].id != id ==> r.plots[i] == inv.plots[i]
    ensures forall i :: 0 <= i < |inv.plots| && inv.plots[i].id == id ==> r.plots[i] == MergePlot(inv.plots[i], u)
    ensures id !in PlotIds(inv.plots) ==> r == inv
  {
    inv.(plots := PatchPlots(inv.plots, id, u))
  }

  /** deletePlot: remove the plot and its graves; the parent of the first plot
      with that id loses one from `totalPlots`, floored at zero. */
  function DeletePlot(inv: Inventory, id: string): (r: Inventory)
    ensures forall v :: v in r.graves <==> v in inv.graves && v.plotId != id
    ensures forall p :: p in r.plots <==> p in inv.plots && p.id != id
    ensures |r.graveyards| == |inv.graveyards|
    ensures forall i :: 0 <= i < |r.graveyards| ==>
              r.graveyards[i].(totalPlots := 0) == inv.graveyards[i].(totalPlots := 0)
    ensures match Find(inv.plots, PlotIs(id))
              case None => r.graveyards == inv.graveyards
              case Some(p) => forall i :: 0 <= i < |inv.graveyards| ==>
                r.graveyards[i].totalPlots == (if inv.graveyards[i].id == p.graveyardId
                                               then Max0(inv.graveyards[i].totalPlots - 1)
                                               else inv.graveyards[i].totalPlots)
    ensures id !in PlotIds(inv.plots) ==> r.graveyards == inv.graveyards
  {
    var found := Find(inv.plots, PlotIs(id));
    var graveyards := match found
      case None => inv.graveyards
      case Some(plot) => Decremented(inv.graveyards, plot.graveyardId);
    Inventory(graveyards, Filter(inv.plots, PlotIsNot(id)), Filter(inv.graves, OffPlot(id)))
  }

  /** updateGrave: merge u into the grave(s) with that id. */
  function UpdateGrave(inv: Inventory, id: string, u: GravePatch): (r: Inventory)
    ensures r.graveyards == inv.graveyards && r.plots == inv.plots
    ensures |r.graves| == |inv.graves|
    ensures forall i :: 0 <= i < |inv.graves| && inv.graves[i].id != id ==> r.graves[i] == inv.graves[i]
    ensures forall i :: 0 <= i < |inv.graves| && inv.graves[i].id == id ==> r.graves[i] == MergeGrave(inv.graves[i], u)
    ensures (forall v :: v in inv.graves ==> v.id != id) ==> r == inv
  {
    inv.(graves := PatchGraves(inv.graves, [id], u))
  }

  /** bulkUpdateGraves: merge u into every grave whose id is listed; ids that
      match no grave are ignored. */
  function BulkUpdateGraves(inv: Inventory, ids: seq<string>, u: GravePatch): (r: Inventory)
    ensures r.graveyards == inv.graveyards && r.plots == inv.plots
    ensures |r.graves| == |inv.graves|
    ensures forall i :: 0 <= i < |inv.graves| ==>
              if inv.graves[i].id in ids then r.graves[i] == MergeGrave(inv.graves[i], u)
              else r.graves[i] == inv.graves[i]
  {
    inv.(graves := PatchGraves(inv.graves, ids, u))
  }

  // ---------------------------------------------------------------------------
  // The fixed sample data the store starts with

  const SeedGraveCount: nat := 74

  const SeedGraveyards: seq<Graveyard> := [
    Graveyard("1", "Green Meadows Cemetery", "123 Oak Street, Springfield", 2, 1705276800000),
    Graveyard("2", "Peaceful Valley Memorial", "456 Elm Avenue, Riverside", 1, 1708387200000)
  ]

  const SeedPlots: seq<Plot> := [
    Plot("1", "1", "A1", 5, 6, 30, 1705363200000),
    Plot("2", "1", "A2", 4, 5, 20, 1705449600000),
    Plot("3", "2", "B1", 6, 4, 24, 1708473600000)
  ]

  /** Replace the status of each grave by the matching entry of statuses. */
  function WithStatuses(vs: seq<Grave>, statuses: seq<GraveStatus>): seq<Grave>
    requires |statuses| == |vs|
  {
    seq(|vs|, i requires 0 <= i < |vs| => vs[i].(status := statuses[i]))
  }

  /** The sample snapshot: the graves of every sample plot, numbered 1..totalGraves,
      with the status of each grave drawn from statuses (chosen at random by the
      store). */
  function Seed(statuses: seq<GraveStatus>): (r: Inventory)
    requires |statuses| == SeedGraveCount
    ensures |r.graveyards| == 2 && |r.plots| == 3 && |r.graves| == SeedGraveCount
    ensures forall k :: 0 <= k < |r.graves| ==> r.graves[k].status == statuses[k] && r.graves[k].reservedBy == None
  {
    Inventory(SeedGraveyards, SeedPlots,
              WithStatuses(FreshGraves("1", 30) + FreshGraves("2", 20) + FreshGraves("3", 24), statuses))
  }

  // ---------------------------------------------------------------------------
  // Helper facts

  lemma GraveyardIdsAlong(a: seq<Graveyard>, b: seq<Graveyard>)
    requires |a| == |b|
    requires forall i :: 0 <= i < |a| ==> a[i].id == b[i].id
    ensures GraveyardIds(a) == GraveyardIds(b)
  {
    forall x | x in GraveyardIds(a) ensures x in GraveyardIds(b) {
      var i :| 0 <= i < |a| && a[i].id == x;
      assert b[i] in b;
    }
    forall x | x in GraveyardIds(b) ensures x in GraveyardIds(a) {
      var i :| 0 <= i < |b| && b[i].id == x;
      assert a[i] in a;
    }
  }

  lemma PlotIdsAlong(a: seq<Plot>, b: seq<Plot>)
    requires |a| == |b|
    requires forall i :: 0 <= i < |a| ==> a[i].id == b[i].id
    ensures PlotIds(a) == PlotIds(b)
  {
    forall x | x in PlotIds(a) ensures x in PlotIds(b) {
      var i :| 0 <= i < |a| && a[i].id == x;
      assert b[i] in b;
    }
    forall x | x in PlotIds(b) ensures x in PlotIds(a) {
      var i :| 0 <= i < |b| && b[i].id == x;
      assert a[i] in a;
    }
  }

  /** The fresh graves of a plot all reference it. */
  lemma FreshGraveCount(plotId: string, total: int, other: string)
    ensures GraveCount(FreshGraves(plotId, total), other) == if other == plotId then Max0(total) else 0
  {
    var vs := FreshGraves(plotId, total);
    assert forall v :: v in vs ==> v.plotId == plotId;
  }

  /** Removing the one plot with p's id lowers p's graveyard's count by one and
      leaves every other graveyard's count alone. */
  lemma {:induction false} PlotCountWithout(s: seq<Plot>, p: Plot, graveyardId: string)
    requires UniqueBy(s, PlotKey) && p in s
    ensures PlotCount(Filter(s, PlotIsNot(p.id)), graveyardId)
            == PlotCount(s, graveyardId) - (if p.graveyardId == graveyardId then 1 else 0)
  {
    UniqueTail(s, PlotKey);
    var rest := s[1..];
    if s[0].id == p.id {
      UniqueKeyIdentifies(s, PlotKey, s[0], p);
      assert Filter(rest, PlotIsNot(p.id)) == rest;
    } else {
      assert p in rest;
      PlotCountWithout(rest, p, graveyardId);
    }
  }

  // ---------------------------------------------------------------------------
  // The sample data is consistent

  lemma SeedGraveCounts(statuses: seq<GraveStatus>, plotId: string)
    requires |statuses| == SeedGraveCount
    ensures GraveCount(Seed(statuses).graves, plotId)
            == (if plotId == "1" then 30 else 0) + (if plotId == "2" then 20 else 0) + (if plotId == "3" then 24 else 0)
  {
    var a, b, c := FreshGraves("1", 30), FreshGraves("2", 20), FreshGraves("3", 24);
    FilterCountAlong(a + b + c, OnPlot(plotId), Seed(statuses).graves, OnPlot(plotId));
    FilterAppend(a + b, c, OnPlot(plotId));
    FilterAppend(a, b, OnPlot(plotId));
    FreshGraveCount("1", 30, plotId);
    FreshGraveCount("2", 20, plotId);
    FreshGraveCount("3", 24, plotId);
  }

  lemma SeedGravePlots(statuses: seq<GraveStatus>)
    requires |statuses| == SeedGraveCount
    ensures forall v :: v in Seed(statuses).graves ==> v.plotId in {"1", "2", "3"}
  {
    var a, b, c := FreshGraves("1", 30), FreshGraves("2", 20), FreshGraves("3", 24);
    var all := a + b + c;
    forall v | v in Seed(statuses).graves ensures v.plotId in {"1", "2", "3"} {
      var i :| 0 <= i < |all| && Seed(statuses).graves[i] == v;
      assert all[i] in all;
    }
  }

  /** Example, on the shape of the sample data: two graveyards, the first
      owning the first two of three plots and the second the third, with
      counts 2 and 1, have counts that agree. */
  lemma {:induction false} TwoAndOnePlots(inv: Inventory)
    requires |inv.graveyards| == 2 && |inv.plots| == 3
    requires inv.graveyards[0].id != inv.graveyards[1].id
    requires inv.graveyards[0].totalPlots == 2 && inv.graveyards[1].totalPlots == 1
    requires inv.plots[0].graveyardId == inv.graveyards[0].id && inv.plots[1].graveyardId == inv.graveyards[0].id
    requires inv.plots[2].graveyardId == inv.graveyards[1].id
    ensures CountsAgree(inv)
  {
    var ps := inv.plots;
    assert ps[1..][0] == ps[1] && ps[1..][1..][0] == ps[2] && ps[1..][1..][1..] == [];
    forall g | g in inv.graveyards ensures g.totalPlots == PlotCount(ps, g.id) {
      PlotCountCons(ps, g.id);
      PlotCountCons(ps[1..], g.id);
      PlotCountCons(ps[1..][1..], g.id);
    }
  }

  /** The first plot counts towards its own graveyard only. */
  lemma PlotCountCons(ps: seq<Plot>, graveyardId: string)
    requires ps != []
    ensures PlotCount(ps, graveyardId) == (if ps[0].graveyardId == graveyardId then 1 else 0) + PlotCount(ps[1..], graveyardId)
  {
  }

  lemma SeedCountsAgree(statuses: seq<GraveStatus>)
    requires |statuses| == SeedGraveCount
    ensures UniqueBy(Seed(statuses).plots, PlotKey) && CountsAgree(Seed(statuses))
  {
    TwoAndOnePlots(Seed(statuses));
  }

  lemma SeedGravesFilled(statuses: seq<GraveStatus>)
    requires |statuses| == SeedGraveCount
    ensures GravesFilled(Seed(statuses))
  {
    forall p | p in SeedPlots ensures GraveCount(Seed(statuses).graves, p.id) == Max0(p.totalGraves) {
      SeedGraveCounts(statuses, p.id);
    }
  }

  lemma SeedNoOrphans(statuses: seq<GraveStatus>)
    requires |statuses| == SeedGraveCount
    ensures NoOrphans(Seed(statuses))
  {
    assert PlotIds(SeedPlots) == {"1", "2", "3"} by {
      assert SeedPlots[0] in SeedPlots && SeedPlots[1] in SeedPlots && SeedPlots[2] in SeedPlots;
    }
    assert SeedGraveyards[0] in SeedGraveyards && SeedGraveyards[1] in SeedGraveyards;
    SeedGravePlots(statuses);
  }

  /** The sample graveyards, plots and graves are consistent whatever statuses
      the graves were given. */
  lemma SeedIsConsistent(statuses: seq<GraveStatus>)
    requires |statuses| == SeedGraveCount
    ensures Consistent(Seed(statuses))
  {
    SeedCountsAgree(statuses);
    SeedGravesFilled(statuses);
    SeedNoOrphans(statuses);
  }

  // ---------------------------------------------------------------------------
  // Every operation keeps the store consistent

  /** A graveyard with a fresh id starts with no plots, and that is what its count says. */
  lemma AddGraveyardKeepsConsistent(inv: Inventory, name: string, location: string, id: string, now: int)
    requires Consistent(inv)
    requires id !in GraveyardIds(inv.graveyards)
    ensures Consistent(AddGraveyard(inv, name, location, id, now))
  {
    var r := AddGraveyard(inv, name, location, id, now);
    assert forall p :: p in inv.plots ==> p.graveyardId != id;
    assert PlotCount(inv.plots, id) == 0;
    assert GraveyardIds(inv.graveyards) <= GraveyardIds(r.graveyards);
  }

  /** Editing a graveyard's name or location (the fields the graveyard form
      sends) keeps the store consistent. */
  lemma UpdateGraveyardKeepsConsistent(inv: Inventory, id: string, u: GraveyardPatch)
    requires Consistent(inv)
    requires u.id.None? && u.totalPlots.None?
    ensures Consistent(UpdateGraveyard(inv, id, u))
  {
    var r := UpdateGraveyard(inv, id, u);
    GraveyardIdsAlong(inv.graveyards, r.graveyards);
    forall g | g in r.graveyards ensures g.totalPlots == PlotCount(r.plots, g.id) {
      var i :| 0 <= i < |r.graveyards| && r.graveyards[i] == g;
      assert inv.graveyards[i] in inv.graveyards;
    }
  }

  lemma DeleteGraveyardKeepsCounts(inv: Inventory, id: string)
    requires UniqueBy(inv.plots, PlotKey) && CountsAgree(inv)
    ensures UniqueBy(DeleteGraveyard(inv, id).plots, PlotKey) && CountsAgree(DeleteGraveyard(inv, id))
  {
    var r := DeleteGraveyard(inv, id);
    FilterUnique(inv.plots, OutsideGraveyard(id), PlotKey);
    forall g | g in r.graveyards ensures g.totalPlots == PlotCount(r.plots, g.id) {
      FilterTwice(inv.plots, OutsideGraveyard(id), InGraveyard(g.id), InGraveyard(g.id));
    }
  }

  lemma DeleteGraveyardKeepsGraves(inv: Inventory, id: string)
    requires UniqueBy(inv.plots, PlotKey) && GravesFilled(inv)
    ensures GravesFilled(DeleteGraveyard(inv, id))
  {
    var r := DeleteGraveyard(inv, id);
    var doomed := PlotIds(Filter(inv.plots, InGraveyard(id)));
    forall p | p in r.plots ensures GraveCount(r.graves, p.id) == Max0(p.totalGraves) {
      assert p.id !in doomed by {
        if p.id in doomed {
          var q :| q in Filter(inv.plots, InGraveyard(id)) && q.id == p.id;
          UniqueKeyIdentifies(inv.plots, PlotKey, p, q);
        }
      }
      FilterTwice(inv.graves, OffPlots(doomed), OnPlot(p.id), OnPlot(p.id));
    }
  }

  lemma DeleteGraveyardKeepsNoOrphans(inv: Inventory, id: string)
    requires NoOrphans(inv)
    ensures NoOrphans(DeleteGraveyard(inv, id))
  {
    var r := DeleteGraveyard(inv, id);
    forall v | v in r.graves ensures v.plotId in PlotIds(r.plots) {
      var q :| q in inv.plots && q.id == v.plotId;
      assert q in r.plots;
    }
    forall p | p in r.plots ensures p.graveyardId in GraveyardIds(r.graveyards) {
      var g :| g in inv.graveyards && g.id == p.graveyardId;
      assert g in r.graveyards;
    }
  }

  /** Deleting a graveyard leaves the rest of the hierarchy consistent. */
  lemma DeleteGraveyardKeepsConsistent(inv: Inventory, id: string)
    requires Consistent(inv)
    ensures Consistent(DeleteGraveyard(inv, id))
  {
    DeleteGraveyardKeepsCounts(inv, id);
    DeleteGraveyardKeepsGraves(inv, id);
    DeleteGraveyardKeepsNoOrphans(inv, id);
  }

  lemma AddPlotKeepsCounts(inv: Inventory, fields: PlotFields, id: string, now: int)
    requires UniqueBy(inv.plots, PlotKey) && CountsAgree(inv)
    requires id !in PlotIds(inv.plots)
    ensures UniqueBy(AddPlot(inv, fields, id, now).plots, PlotKey) && CountsAgree(AddPlot(inv, fields, id, now))
  {
    var r := AddPlot(inv, fields, id, now);
    var plot := NewPlot(fields, id, now);
    forall i, j | 0 <= i < j < |r.plots| ensures PlotKey(r.plots[i]) != PlotKey(r.plots[j]) {
      if j == |inv.plots| {
        assert inv.plots[i] in inv.plots;
      } else {
        assert PlotKey(inv.plots[i]) != PlotKey(inv.plots[j]);
      }
    }
    forall g | g in r.graveyards ensures g.totalPlots == PlotCount(r.plots, g.id) {
      var i :| 0 <= i < |r.graveyards| && r.graveyards[i] == g;
      assert inv.graveyards[i] in inv.graveyards;
      FilterAppend(inv.plots, [plot], InGraveyard(g.id));
    }
  }

  lemma AddPlotKeepsGraves(inv: Inventory, fields: PlotFields, id: string, now: int)
    requires GravesFilled(inv)
    requires forall v :: v in inv.graves ==> v.plotId in PlotIds(inv.plots)
    requires id !in PlotIds(inv.plots)
    ensures GravesFilled(AddPlot(inv, fields, id, now))
  {
    var r := AddPlot(inv, fields, id, now);
    var plot := NewPlot(fields, id, now);
    var newGraves := FreshGraves(id, plot.totalGraves);
    forall p | p in r.plots ensures GraveCount(r.graves, p.id) == Max0(p.totalGraves) {
      FilterAppend(inv.graves, newGraves, OnPlot(p.id));
      FreshGraveCount(id, plot.totalGraves, p.id);
      if p.id == id {
        assert p == plot;
        assert forall v :: v in inv.graves ==> v.plotId != id;
        assert GraveCount(inv.graves, id) == 0;
      } else {
        assert p in inv.plots;
      }
    }
  }

  lemma AddPlotKeepsNoOrphans(inv: Inventory, fields: PlotFields, id: string, now: int)
    requires NoOrphans(inv)
    requires fields.graveyardId in GraveyardIds(inv.graveyards)
    ensures NoOrphans(AddPlot(inv, fields, id, now))
  {
    var r := AddPlot(inv, fields, id, now);
    var plot := NewPlot(fields, id, now);
    GraveyardIdsAlong(inv.graveyards, r.graveyards);
    assert PlotIds(inv.plots) <= PlotIds(r.plots);
    forall v | v in r.graves ensures v.plotId in PlotIds(r.plots) {
      if v !in inv.graves {
        var k :| |inv.graves| <= k < |r.graves| && r.graves[k] == v;
        assert plot in r.plots;
      }
    }
  }

  /** Adding a plot with a fresh id under a live graveyard keeps the store
      consistent: the parent's count and the new plot's graves both match. */
  lemma AddPlotKeepsConsistent(inv: Inventory, fields: PlotFields, id: string, now: int)
    requires Consistent(inv)
    requires id !in PlotIds(inv.plots)
    requires fields.graveyardId in GraveyardIds(inv.graveyards)
    ensures Consistent(AddPlot(inv, fields, id, now))
  {
    AddPlotKeepsCounts(inv, fields, id, now);
    AddPlotKeepsGraves(inv, fields, id, now);
    AddPlotKeepsNoOrphans(inv, fields, id, now);
  }

  /** Editing a plot's number, rows or columns (the fields the plot form sends;
      its graveyard cannot be changed there) keeps the store consistent. Its
      graves stay as they were, so `totalGraves` keeps counting them. */
  lemma UpdatePlotKeepsConsistent(inv: Inventory, id: string, u: PlotPatch)
    requires Consistent(inv)
    requires u.id.None? && u.totalGraves.None?
    requires forall p :: p in inv.plots && p.id == id ==> Pick(u.graveyardId, p.graveyardId) == p.graveyardId
    ensures Consistent(UpdatePlot(inv, id, u))
  {
    var r := UpdatePlot(inv, id, u);
    forall i | 0 <= i < |inv.plots|
      ensures r.plots[i].id == inv.plots[i].id && r.plots[i].graveyardId == inv.plots[i].graveyardId
      ensures r.plots[i].totalGraves == inv.plots[i].totalGraves
    {
      assert inv.plots[i] in inv.plots;
    }
    UpdatePlotKeepsParts(inv, r);
  }

  lemma UpdatePlotKeepsParts(inv: Inventory, r: Inventory)
    requires Consistent(inv)
    requires r.graveyards == inv.graveyards && r.graves == inv.graves && |r.plots| == |inv.plots|
    requires forall i :: 0 <= i < |inv.plots| ==>
               r.plots[i].id == inv.plots[i].id && r.plots[i].graveyardId == inv.plots[i].graveyardId
               && r.plots[i].totalGraves == inv.plots[i].totalGraves
    ensures Consistent(r)
  {
    UniqueAlong(inv.plots, PlotKey, r.plots, PlotKey);
    PlotIdsAlong(inv.plots, r.plots);
    forall g | g in r.graveyards ensures g.totalPlots == PlotCount(r.plots, g.id) {
      FilterCountAlong(inv.plots, InGraveyard(g.id), r.plots, InGraveyard(g.id));
    }
    forall p | p in r.plots
      ensures GraveCount(r.graves, p.id) == Max0(p.totalGraves)
      ensures p.graveyardId in GraveyardIds(r.graveyards)
    {
      var i :| 0 <= i < |r.plots| && r.plots[i] == p;
      assert inv.plots[i] in inv.plots;
    }
  }

  /** With unique plot ids, find returns the only plot with that id. */
  lemma FindUniquePlot(ps: seq<Plot>, p: Plot)
    requires UniqueBy(ps, PlotKey) && p in ps
    ensures Find(ps, PlotIs(p.id)) == Some(p)
  {
    var r := Find(ps, PlotIs(p.id));
    UniqueKeyIdentifies(ps, PlotKey, p, r.value);
  }

  /** Deleting a live plot (ids unique, counts right) lowers its graveyard's
      count by exactly one, leaves the others, and keeps every count right. */
  lemma DeletePlotDecrementsParent(inv: Inventory, plot: Plot)
    requires UniqueBy(inv.plots, PlotKey) && CountsAgree(inv) && plot in inv.plots
    ensures forall i :: 0 <= i < |inv.graveyards| ==>
              DeletePlot(inv, plot.id).graveyards[i].totalPlots
              == inv.graveyards[i].totalPlots - (if inv.graveyards[i].id == plot.graveyardId then 1 else 0)
    ensures CountsAgree(DeletePlot(inv, plot.id))
  {
    var r := DeletePlot(inv, plot.id);
    FindUniquePlot(inv.plots, plot);
    forall i | 0 <= i < |inv.graveyards|
      ensures r.graveyards[i].totalPlots
              == inv.graveyards[i].totalPlots - (if inv.graveyards[i].id == plot.graveyardId then 1 else 0)
      ensures r.graveyards[i].totalPlots == PlotCount(r.plots, r.graveyards[i].id)
    {
      var g := inv.graveyards[i];
      assert g in inv.graveyards;
      PlotCountWithout(inv.plots, plot, g.id);
      if g.id == plot.graveyardId {
        assert plot in Filter(inv.plots, InGraveyard(g.id));
      }
    }
    forall g | g in r.graveyards ensures g.totalPlots == PlotCount(r.plots, g.id) {
      var i :| 0 <= i < |r.graveyards| && r.graveyards[i] == g;
    }
  }

  lemma DeletePlotKeepsCounts(inv: Inventory, id: string)
    requires UniqueBy(inv.plots, PlotKey) && CountsAgree(inv)
    ensures UniqueBy(DeletePlot(inv, id).plots, PlotKey) && CountsAgree(DeletePlot(inv, id))
    ensures forall p :: p in inv.plots && p.id == id ==>
              forall i :: 0 <= i < |inv.graveyards| ==>
                DeletePlot(inv, id).graveyards[i].totalPlots
                == inv.graveyards[i].totalPlots - (if inv.graveyards[i].id == p.graveyardId then 1 else 0)
  {
    var r := DeletePlot(inv, id);
    FilterUnique(inv.plots, PlotIsNot(id), PlotKey);
    if id !in PlotIds(inv.plots) {
      assert r.plots == inv.plots;
    } else {
      var plot :| plot in inv.plots && plot.id == id;
      DeletePlotDecrementsParent(inv, plot);
      forall p | p in inv.plots && p.id == id ensures p == plot {
        UniqueKeyIdentifies(inv.plots, PlotKey, p, plot);
      }
    }
  }

  lemma DeletePlotKeepsGravesAndNoOrphans(inv: Inventory, id: string)
    requires GravesFilled(inv) && NoOrphans(inv)
    ensures GravesFilled(DeletePlot(inv, id)) && NoOrphans(DeletePlot(inv, id))
  {
    var r := DeletePlot(inv, id);
    GraveyardIdsAlong(inv.graveyards, r.graveyards);
    forall p | p in r.plots ensures GraveCount(r.graves, p.id) == Max0(p.totalGraves) {
      FilterTwice(inv.graves, OffPlot(id), OnPlot(p.id), OnPlot(p.id));
    }
    forall v | v in r.graves ensures v.plotId in PlotIds(r.plots) {
      var q :| q in inv.plots && q.id == v.plotId;
      assert q in r.plots;
    }
  }

  /** Deleting a live plot lowers its parent's count by exactly one (so the
      floor at zero never comes into play), removes its graves, and keeps the
      store consistent. */
  lemma DeletePlotKeepsConsistent(inv: Inventory, id: string)
    requires Consistent(inv)
    ensures Consistent(DeletePlot(inv, id))
    ensures forall p :: p in inv.plots && p.id == id ==>
              forall i :: 0 <= i < |inv.graveyards| ==>
                DeletePlot(inv, id).graveyards[i].totalPlots
                == inv.graveyards[i].totalPlots - (if inv.graveyards[i].id == p.graveyardId then 1 else 0)
  {
    DeletePlotKeepsCounts(inv, id);
    DeletePlotKeepsGravesAndNoOrphans(inv, id);
  }

  /** A grave patch that leaves `plotId` alone (the grave page sends only
      status and holder) keeps the store consistent. */
  lemma PatchGravesKeepsConsistent(inv: Inventory, ids: seq<string>, u: GravePatch)
    requires Consistent(inv)
    requires u.plotId.None?
    ensures Consistent(inv.(graves := PatchGraves(inv.graves, ids, u)))
  {
    var r := inv.(graves := PatchGraves(inv.graves, ids, u));
    assert forall i :: 0 <= i < |r.graves| ==> r.graves[i].plotId == inv.graves[i].plotId;
    forall p | p in r.plots ensures GraveCount(r.graves, p.id) == Max0(p.totalGraves) {
      FilterCountAlong(inv.graves, OnPlot(p.id), r.graves, OnPlot(p.id));
    }
    forall v | v in r.graves ensures v.plotId in PlotIds(r.plots) {
      var i :| 0 <= i < |r.graves| && r.graves[i] == v;
      assert inv.graves[i] in inv.graves;
    }
  }

  lemma UpdateGraveKeepsConsistent(inv: Inventory, id: string, u: GravePatch)
    requires Consistent(inv)
    requires u.plotId.None?
    ensures Consistent(UpdateGrave(inv, id, u))
  {
    PatchGravesKeepsConsistent(inv, [id], u);
  }

  lemma BulkUpdateGravesKeepsConsistent(inv: Inventory, ids: seq<string>, u: GravePatch)
    requires Consistent(inv)
    requires u.plotId.None?
    ensures Consistent(BulkUpdateGraves(inv, ids, u))
  {
    PatchGravesKeepsConsistent(inv, ids, u);
  }

  // ---------------------------------------------------------------------------
  // A worked scenario

  /** Deleting the only plot, which holds every grave, empties the grave
      list and takes its graveyard's count from one to zero. */
  lemma DeleteOnlyPlot(inv: Inventory, p: Plot)
    requires inv.plots == [p] && |inv.graveyards| == 1
    requires inv.graveyards[0].id == p.graveyardId && inv.graveyards[0].totalPlots == 1
    requires forall v :: v in inv.graves ==> v.plotId == p.id
    ensures DeletePlot(inv, p.id).graves == []
    ensures DeletePlot(inv, p.id).graveyards[0].totalPlots == 0
  {
    assert Find(inv.plots, PlotIs(p.id)) == Some(p);
  }

  /** The scenario's first steps: a new graveyard "G1", then a 2 x 3 plot "A1" in it. */
  function ScenarioWithPlot(): Inventory
  {
    AddPlot(AddGraveyard(Inventory([], [], []), "G1", "Loc1", "g1", 0), PlotFields("g1", "A1", 2, 3), "p1", 1)
  }

  /** Then grave 3 of the plot is reserved for Alice. */
  function ScenarioReserved(): Inventory
  {
    UpdateGrave(ScenarioWithPlot(), GraveId("p1", 3), GravePatch(None, None, None, Some(Unavailable), Some(Some("Alice"))))
  }

  /** Worked example: a new graveyard starts with no plots; a 2 x 3 plot
      added to it brings six available graves numbered 1..6 and a count of one. */
  lemma ScenarioAddPlot()
    ensures AddGraveyard(Inventory([], [], []), "G1", "Loc1", "g1", 0).graveyards[0].totalPlots == 0
    ensures var s := ScenarioWithPlot();
            && s.graveyards[0].totalPlots == 1 && s.plots[0].totalGraves == 6 && |s.graves| == 6
            && (forall k :: 0 <= k < 6 ==> s.graves[k].graveNumber == k + 1 && s.graves[k].status == Available
                                            && s.graves[k].id == GraveId("p1", k + 1))
  {
  }

  /** Helper for the worked example below: single-digit grave numbers give
      distinct grave ids on one plot. */
  lemma DigitGraveIdsDiffer(plotId: string, a: nat, b: nat)
    requires a < 10 && b < 10 && a != b
    ensures GraveId(plotId, a) != GraveId(plotId, b)
  {
    assert GraveId(plotId, a)[|plotId| + 1] == Digit(a);
    assert GraveId(plotId, b)[|plotId| + 1] == Digit(b);
  }

  /** Worked example, continued: reserving grave 3 of the example plot
      touches that grave only. */
  lemma ScenarioReserve()
    ensures var s1, s2 := ScenarioWithPlot(), ScenarioReserved();
            && |s2.graves| == 6
            && s2.graves[2].status == Unavailable && s2.graves[2].reservedBy == Some("Alice")
            && (forall k :: 0 <= k < 6 && k != 2 ==> s2.graves[k] == s1.graves[k])
  {
    var s1 := ScenarioWithPlot();
    ScenarioAddPlot();
    forall k | 0 <= k < 6 && k != 2 ensures s1.graves[k].id != GraveId("p1", 3) {
      DigitGraveIdsDiffer("p1", k + 1, 3);
    }
  }

  /** Worked example, continued: deleting the plot afterwards removes its
      graves and brings the count back to zero. */
  lemma ScenarioDeletePlot()
    ensures DeletePlot(ScenarioReserved(), "p1").graves == []
    ensures DeletePlot(ScenarioReserved(), "p1").graveyards[0].totalPlots == 0
  {
    var s2 := ScenarioReserved();
    ScenarioAddPlot();
    DeleteOnlyPlot(s2, s2.plots[0]);
  }
}
