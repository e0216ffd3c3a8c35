/** Guards of the `/flirts` endpoints. */
module FlirtsApi {
  import opened Models
  import FlirtService

  /**
   * POST /flirts: 404 for a missing moment, 400 for the author's own
   * moment; otherwise the (possibly existing) flirt.
   */
  function CreateFlirt(t: Tables, caller: Id, moment: Id): (r: Step<Result<Id>>)
    requires Inv(t)
    ensures r.out.Ok? <==> moment in t.moments && t.moments[moment].author != caller
    ensures r.out.Err? ==> r.db == t
    ensures moment !in t.moments ==> r.out == Err(NotFound)
    ensures moment in t.moments && t.moments[moment].author == caller ==> r.out == Err(BadRequest)
    ensures r.out.Ok? ==> r.out.value in r.db.flirts && r.db.flirts[r.out.value] == Flirt(caller, moment)
    ensures r.out.Ok? ==> r == FlirtService.CreateFlirt(t, caller, moment)
  {
    if moment !in t.moments then Step(t, Err(NotFound))
    else if t.moments[moment].author == caller then Step(t, Err(BadRequest))
    else FlirtService.CreateFlirt(t, caller, moment)
  }

  /** DELETE /flirts/{id}: 404 for a missing flirt, 403 for anyone but its flirter. */
  function DeleteFlirt(t: Tables, caller: Id, id: Id): (r: Step<Result<()>>)
    requires Inv(t)
    ensures r.out.Ok? <==> id in t.flirts && t.flirts[id].flirter == caller
    ensures r.out.Err? ==> r.db == t
    ensures id !in t.flirts ==> r.out == Err(NotFound)
    ensures id in t.flirts && t.flirts[id].flirter != caller ==> r.out == Err(Forbidden)
    ensures r.out.Ok? ==> r.db.flirts == t.flirts - {id} && r.db == FlirtService.DeleteFlirt(t, id).db
  {
    if id !in t.flirts then Step(t, Err(NotFound))
    else if t.flirts[id].flirter != caller then Step(t, Err(Forbidden))
    else Step(FlirtService.DeleteFlirt(t, id).db, Ok(()))
  }
}
