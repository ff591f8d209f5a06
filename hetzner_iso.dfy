/** Package `actors` of the Hetzner provider, file iso.go: listing ISO images and picking exactly one. */
module HetznerIso {
  import opened Wrappers
  import opened GoTypes
  import opened Strconv
  import opened Base
  import opened HetznerActors

  /** schema.ISO; the actors read only its ID. */
  datatype Iso = Iso(id: int64, rest: Document)

  /** ISOListResponseWithMeta */
  datatype IsoListResponse = IsoListResponse(isos: seq<Iso>, meta: Document)

  /** The one client call of this file: ISO.List with the interpolated options. */
  datatype IsoOp = ListIsos(opts: Document)

  /** The foreign code the ISO actors call. */
  datatype IsoEnv = IsoEnv(
    client: IsoOp -> Result<Response, Error>,
    listParams: Params<Document>,
    listSchema: seq<byte> -> Result<IsoListResponse, Error>)

  /** FindISOs: the list call with the interpolated options, and the listing as output. */
  function FindISOs(ctx: ActionContext, env: IsoEnv): (run: Run<IsoOp, IsoListResponse>)
    reads ctx
    ensures Disciplined(ctx.rehearsal, ctx.action.parameters, env.listParams, run)
    ensures var s := Prologue<Document, IsoOp, IsoListResponse>(ctx.rehearsal, ctx.action.parameters, env.listParams);
            s.Proceed? ==> run == CallAndOutput([Decode, Interpolate], ListIsos(s.input), env.client, env.listSchema)
  {
    match Prologue<Document, IsoOp, IsoListResponse>(ctx.rehearsal, ctx.action.parameters, env.listParams)
    case Stop(r) => r
    case Proceed(input) => CallAndOutput([Decode, Interpolate], ListIsos(input), env.client, env.listSchema)
  }

  /**
   * FindOneISO: FindISOs, whose errors and rehearsal pass through unchanged
   * and which makes the only calls; then the listing must hold exactly one
   * ISO, which becomes the output with its ID in decimal as ValueID.
   */
  function FindOneISO(ctx: ActionContext, env: IsoEnv): (run: Run<IsoOp, Iso>)
    reads ctx
    ensures Disciplined(ctx.rehearsal, ctx.action.parameters, env.listParams, run)
    ensures run.effects == FindISOs(ctx, env).effects
    ensures FindISOs(ctx, env).outcome.Failed? ==> run.outcome == Failed(FindISOs(ctx, env).outcome.err)
    ensures FindISOs(ctx, env).outcome.Rehearsed? <==> run.outcome.Rehearsed?
    ensures FindISOs(ctx, env).outcome.Produced? ==>
              var found := FindISOs(ctx, env).outcome.value.isos;
              && (|found| == 0 ==> run.outcome == Failed(Message("no iso found")))
              && (|found| > 1 ==> run.outcome == Failed(Message("too many results")))
              && (|found| == 1 ==> run.outcome == Produced(found[0], Some(FormatInt(found[0].id))))
  {
    var listed := FindISOs(ctx, env);
    match listed.outcome
    case Failed(e) => Run(listed.effects, Failed(e))
    case Rehearsed => Run(listed.effects, Rehearsed)
    case Produced(raw, _) =>
      assert "no " + "iso" + " found" == "no iso found";
      match SelectOne([raw.isos], "iso")
      case Failure(e) => Run(listed.effects, Failed(e))
      case Success(iso) => Run(listed.effects, Produced(iso, Some(FormatInt(iso.id))))
  }
}
