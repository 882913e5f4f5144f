/** The grave inventory provider: the three lists are fields that every
    operation replaces. Each method does what the provider does, step by step,
    and is proved to produce the snapshot the matching function of
    GraveInventory describes; consistency is then carried over by the lemmas
    proved there. */
module GraveyardContext {
  import opened Collections
  import opened GraveInventory

  /** Removing the graves of the first k plots, then those of the next one,
      removes the graves of the first k + 1 plots; removing none changes nothing. */
  lemma RemovePlotGraves(vs: seq<Grave>, ps: seq<Plot>, k: nat)
    requires k <= |ps|
    ensures k == 0 ==> Filter(vs, OffPlots(PlotIds(ps[..k]))) == vs
    ensures 0 < k ==> Filter(Filter(vs, OffPlots(PlotIds(ps[..k - 1]))), OffPlot(ps[k - 1].id))
                      == Filter(vs, OffPlots(PlotIds(ps[..k])))
  {
    if k == 0 {
      assert PlotIds(ps[..k]) == {};
    } else {
      var gone := PlotIds(ps[..k - 1]);
      assert PlotIds(ps[..k]) == gone + {ps[k - 1].id} by {
        assert ps[..k] == ps[..k - 1] + [ps[k - 1]];
      }
      FilterTwice(vs, OffPlots(gone), OffPlot(ps[k - 1].id), OffPlots(gone + {ps[k - 1].id}));
    }
  }

  /** One more pass of addPlot's loop appends grave n + 1 to the first n. */
  lemma FreshGravesStep(plotId: string, n: nat)
    ensures FreshGraves(plotId, n + 1) == FreshGraves(plotId, n) + [Grave(GraveId(plotId, n + 1), plotId, n + 1, Available, None)]
  {
  }

  class GraveyardStore {
    var graveyards: seq<Graveyard>
    var plots: seq<Plot>
    var graves: seq<Grave>

    function Snapshot(): Inventory
      reads this
    {
      Inventory(graveyards, plots, graves)
    }

    /** The store starts from the sample data; the grave statuses, drawn at
        random by the provider, are given. */
    constructor (statuses: seq<GraveStatus>)
      requires |statuses| == SeedGraveCount
      ensures Snapshot() == Seed(statuses)
      ensures Consistent(Snapshot())
    {
      var seed := Seed(statuses);
      graveyards, plots, graves := seed.graveyards, seed.plots, seed.graves;
      SeedIsConsistent(statuses);
    }

    method AddGraveyard(name: string, location: string, id: string, now: int)
      modifies this
      ensures Snapshot() == GraveInventory.AddGraveyard(old(Snapshot()), name, location, id, now)
      ensures old(Consistent(Snapshot())) && id !in old(GraveyardIds(graveyards)) ==> Consistent(Snapshot())
    {
      ghost var before := Snapshot();
      graveyards := graveyards + [Graveyard(id, name, location, 0, now)];
      if Consistent(before) && id !in GraveyardIds(before.graveyards) {
        AddGraveyardKeepsConsistent(before, name, location, id, now);
      }
    }

    method UpdateGraveyard(id: string, u: GraveyardPatch)
      modifies this
      ensures Snapshot() == GraveInventory.UpdateGraveyard(old(Snapshot()), id, u)
      ensures old(Consistent(Snapshot())) && u.id.None? && u.totalPlots.None? ==> Consistent(Snapshot())
    {
      ghost var before := Snapshot();
      graveyards := PatchGraveyards(graveyards, id, u);
      if Consistent(before) && u.id.None? && u.totalPlots.None? {
        UpdateGraveyardKeepsConsistent(before, id, u);
      }
    }

    /** Removes the graves of each of the graveyard's plots, one plot at a
        time, then the plots, then the graveyard. */
    method DeleteGraveyard(id: string)
      modifies this
      ensures Snapshot() == GraveInventory.DeleteGraveyard(old(Snapshot()), id)
      ensures old(Consistent(Snapshot())) ==> Consistent(Snapshot())
    {
      ghost var before := Snapshot();
      var plotsToDelete := Filter(plots, InGraveyard(id));
      var k := 0;
      RemovePlotGraves(before.graves, plotsToDelete, 0);
      while k < |plotsToDelete|
        invariant 0 <= k <= |plotsToDelete|
        invariant graves == Filter(before.graves, OffPlots(PlotIds(plotsToDelete[..k])))
        invariant plots == before.plots && graveyards == before.graveyards
      {
        RemovePlotGraves(before.graves, plotsToDelete, k + 1);
        graves := Filter(graves, OffPlot(plotsToDelete[k].id));
        k := k + 1;
      }
      assert plotsToDelete[..k] == plotsToDelete;
      plots := Filter(plots, OutsideGraveyard(id));
      graveyards := Filter(graveyards, GraveyardIsNot(id));
      if Consistent(before) {
        DeleteGraveyardKeepsConsistent(before, id);
      }
    }

    /** Appends the plot, builds its graves one by one, appends them, and bumps
        the parent's count. */
    method AddPlot(fields: PlotFields, id: string, now: int)
      modifies this
      ensures Snapshot() == GraveInventory.AddPlot(old(Snapshot()), fields, id, now)
      ensures (old(Consistent(Snapshot())) && id !in old(PlotIds(plots))
               && fields.graveyardId in old(GraveyardIds(graveyards))) ==> Consistent(Snapshot())
    {
      ghost var before := Snapshot();
      var totalGraves := fields.rows * fields.columns;
      var newPlot := Plot(id, fields.graveyardId, fields.plotNumber, fields.rows, fields.columns, totalGraves, now);
      plots := plots + [newPlot];
      var newGraves: seq<Grave> := [];
      var i := 1;
      while i <= totalGraves
        invariant 1 <= i <= Max0(totalGraves) + 1
        invariant newGraves == FreshGraves(id, i - 1)
        invariant plots == before.plots + [newPlot] && graves == before.graves && graveyards == before.graveyards
      {
        FreshGravesStep(id, i - 1);
        newGraves := newGraves + [Grave(GraveId(id, i), id, i, Available, None)];
        i := i + 1;
      }
      assert newGraves == FreshGraves(id, totalGraves);
      graves := graves + newGraves;
      graveyards := Incremented(graveyards, fields.graveyardId);
      assert Snapshot() == GraveInventory.AddPlot(before, fields, id, now);
      if Consistent(before) && id !in PlotIds(before.plots) && fields.graveyardId in GraveyardIds(before.graveyards) {
        AddPlotKeepsConsistent(before, fields, id, now);
      }
    }

    method UpdatePlot(id: string, u: PlotPatch)
      modifies this
      ensures Snapshot() == GraveInventory.UpdatePlot(old(Snapshot()), id, u)
      ensures graves == old(graves)
      ensures (old(Consistent(Snapshot())) && u.id.None? && u.totalGraves.None?
               && (forall p :: p in old(plots) && p.id == id ==> Pick(u.graveyardId, p.graveyardId) == p.graveyardId))
              ==> Consistent(Snapshot())
    {
      ghost var before := Snapshot();
      plots := PatchPlots(plots, id, u);
      if Consistent(before) && u.id.None? && u.totalGraves.None?
         && (forall p :: p in before.plots && p.id == id ==> Pick(u.graveyardId, p.graveyardId) == p.graveyardId) {
        UpdatePlotKeepsConsistent(before, id, u);
      }
    }

    method DeletePlot(id: string)
      modifies this
      ensures Snapshot() == GraveInventory.DeletePlot(old(Snapshot()), id)
      ensures forall v :: v in graves ==> v.plotId != id
      ensures forall p :: p in plots ==> p.id != id
      ensures old(Consistent(Snapshot())) ==> Consistent(Snapshot())
    {
      ghost var before := Snapshot();
      var plot := Find(plots, PlotIs(id));
      graves := Filter(graves, OffPlot(id));
      plots := Filter(plots, PlotIsNot(id));
      if plot.Some? {
        graveyards := Decremented(graveyards, plot.value.graveyardId);
      }
      if Consistent(before) {
        DeletePlotKeepsConsistent(before, id);
      }
    }

    method UpdateGrave(id: string, u: GravePatch)
      modifies this
      ensures Snapshot() == GraveInventory.UpdateGrave(old(Snapshot()), id, u)
      ensures old(Consistent(Snapshot())) && u.plotId.None? ==> Consistent(Snapshot())
    {
      ghost var before := Snapshot();
      graves := PatchGraves(graves, [id], u);
      if Consistent(before) && u.plotId.None? {
        UpdateGraveKeepsConsistent(before, id, u);
      }
    }

    method BulkUpdateGraves(ids: seq<string>, u: GravePatch)
      modifies this
      ensures Snapshot() == GraveInventory.BulkUpdateGraves(old(Snapshot()), ids, u)
      ensures old(Consistent(Snapshot())) && u.plotId.None? ==> Consistent(Snapshot())
    {
      ghost var before := Snapshot();
      graves := PatchGraves(graves, ids, u);
      if Consistent(before) && u.plotId.None? {
        BulkUpdateGravesKeepsConsistent(before, ids, u);
      }
    }
  }
}
