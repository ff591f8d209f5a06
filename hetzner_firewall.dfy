/**
 * Package `actors` of the Hetzner provider, file firewall.go: the firewall
 * run functions and the wrappers that carry string IDs from a blueprint to
 * the int64 IDs the hcloud client takes.
 */
module HetznerFirewall {
  import opened Wrappers
  import opened GoTypes
  import opened Strconv
  import opened Base
  import opened HetznerActors

  /** hcloud.Firewall; the actors only ever set its ID. */
  datatype Firewall = Firewall(id: int64)

  /** hcloud.FirewallResourceServer */
  datatype FirewallResourceServer = FirewallResourceServer(id: int64)

  /** hcloud.FirewallResource: a resource type, an optional label selector and an optional server. */
  datatype FirewallResource = FirewallResource(
    rtype: string,
    labelSelector: Option<string>,
    server: Option<FirewallResourceServer>)

  /** hcFirewallResourceServerWrap: a server reference whose ID is still a string. */
  datatype ServerWrap = ServerWrap(id: string)

  /** hcFirewallResourceWrap */
  datatype ResourceWrap = ResourceWrap(rtype: string, labelSelector: Option<string>, server: Option<ServerWrap>)

  /** hcFirewallWrap; validation makes its ID required. */
  datatype FirewallWrap = FirewallWrap(id: string)

  datatype ApplyResourcesParameters = ApplyResourcesParameters(resources: seq<ResourceWrap>, firewall: FirewallWrap)

  datatype RemoveResourcesParameters = RemoveResourcesParameters(resources: seq<FirewallResource>, firewall: FirewallWrap)

  datatype SetRulesParameters = SetRulesParameters(opts: Document, firewall: FirewallWrap)

  datatype FindOneFirewallParameters = FindOneFirewallParameters(id: Option<string>)

  /** schema.Firewall; the actors read only its ID. */
  datatype SchemaFirewall = SchemaFirewall(id: int64, rest: Document)

  /** FirewallListResponseWithMeta */
  datatype FirewallListResponse = FirewallListResponse(firewalls: seq<SchemaFirewall>, meta: Document)

  /** schema.FirewallGetResponse */
  datatype FirewallGetResponse = FirewallGetResponse(firewall: SchemaFirewall)

  /** The calls the firewall actors make on the hcloud client, with their arguments. */
  datatype FirewallOp =
    | Create(opts: Document)
    | Delete(firewall: Firewall)
    | List(opts: Document)
    | GetByID(id: int64)
    | ApplyResources(firewall: Firewall, resources: seq<FirewallResource>)
    | RemoveResources(firewall: Firewall, resources: seq<FirewallResource>)
    | SetRules(firewall: Firewall, opts: Document)

  /**
   * The foreign code the firewall actors call: the hcloud client, the decoder
   * and interpolation for each parameter structure, and the decoder for each
   * response schema.
   */
  datatype FirewallEnv = FirewallEnv(
    client: FirewallOp -> Result<Response, Error>,
    createParams: Params<Document>,
    deleteParams: Params<FirewallWrap>,
    listParams: Params<Document>,
    findOneParams: Params<FindOneFirewallParameters>,
    applyParams: Params<ApplyResourcesParameters>,
    removeParams: Params<RemoveResourcesParameters>,
    setRulesParams: Params<SetRulesParameters>,
    createSchema: seq<byte> -> Result<Document, Error>,
    listSchema: seq<byte> -> Result<FirewallListResponse, Error>,
    getSchema: seq<byte> -> Result<FirewallGetResponse, Error>,
    applySchema: seq<byte> -> Result<Document, Error>,
    removeSchema: seq<byte> -> Result<Document, Error>,
    setRulesSchema: seq<byte> -> Result<Document, Error>)

  /** The message put in front of a failed ID conversion. */
  function CannotUseAsID(id: string): Error
  {
    Message("cannot use '" + id + "' as int64 ID")
  }

  /**
   * An ID string as the int64 the client takes: accepted exactly when it is a
   * base-10 int64 literal; otherwise the "cannot use" message joined with the
   * strconv error.
   */
  function ParseID(id: string): (r: Result<int64, Error>)
    ensures r.Success? <==> IsInt64Literal(id)
    ensures r.Success? ==> r.value == LiteralValue(id)
    ensures r.Failure? ==> ParseInt(id).Failure? && r.error == Joined([CannotUseAsID(id), ParseInt(id).error])
  {
    ParseIntCorrect(id);
    match ParseInt(id)
    case Failure(e) => Failure(Joined([CannotUseAsID(id), e]))
    case Success(n) => Success(n)
  }

  /** hcFirewallWrap.unwrap */
  function UnwrapFirewall(w: FirewallWrap): (r: Result<Firewall, Error>)
    ensures r.Success? <==> IsInt64Literal(w.id)
    ensures r.Success? ==> r.value == Firewall(LiteralValue(w.id))
    ensures r.Failure? ==> ParseInt(w.id).Failure? && r.error == Joined([CannotUseAsID(w.id), ParseInt(w.id).error])
  {
    match ParseID(w.id)
    case Failure(e) => Failure(e)
    case Success(n) => Success(Firewall(n))
  }

  /** hcFirewallResourceServerWrap.unwrap */
  function UnwrapServer(w: ServerWrap): (r: Result<FirewallResourceServer, Error>)
    ensures r.Success? <==> IsInt64Literal(w.id)
    ensures r.Success? ==> r.value == FirewallResourceServer(LiteralValue(w.id))
    ensures r.Failure? ==> ParseInt(w.id).Failure? && r.error == Joined([CannotUseAsID(w.id), ParseInt(w.id).error])
  {
    match ParseID(w.id)
    case Failure(e) => Failure(e)
    case Success(n) => Success(FirewallResourceServer(n))
  }

  /**
   * hcFirewallResourceWrap.unwrap: type and label selector are copied; a
   * missing server stays missing; a present one must convert, and its error is
   * passed on.
   */
  function UnwrapResource(w: ResourceWrap): (r: Result<FirewallResource, Error>)
    ensures r.Success? <==> w.server.None? || IsInt64Literal(w.server.value.id)
    ensures r.Success? ==> r.value.rtype == w.rtype && r.value.labelSelector == w.labelSelector
    ensures r.Success? ==> (r.value.server.Some? <==> w.server.Some?)
    ensures r.Success? && w.server.Some? ==> r.value.server.value.id == LiteralValue(w.server.value.id)
    ensures r.Failure? ==> r.error == UnwrapServer(w.server.value).error
  {
    var out := FirewallResource(w.rtype, w.labelSelector, None);
    if w.server.Some? then
      match UnwrapServer(w.server.value)
      case Failure(e) => Failure(e)
      case Success(s) => Success(out.(server := Some(s)))
    else Success(out)
  }

  /**
   * The resources of an apply request unwrapped left to right into a new
   * list; the first that fails stops the conversion with its error.
   */
  function UnwrapResources(ws: seq<ResourceWrap>): Result<seq<FirewallResource>, Error>
  {
    if ws == [] then Success([])
    else
      match UnwrapResources(ws[..|ws| - 1])
      case Failure(e) => Failure(e)
      case Success(rs) =>
        match UnwrapResource(ws[|ws| - 1])
        case Failure(e) => Failure(e)
        case Success(r) => Success(rs + [r])
  }

  /**
   * UnwrapResources succeeds exactly when every resource unwraps, and then
   * holds their conversions in input order; otherwise it reports the error of
   * the first resource that does not unwrap.
   */
  lemma {:induction false} UnwrapResourcesCorrect(ws: seq<ResourceWrap>)
    ensures UnwrapResources(ws).Success? <==> forall i :: 0 <= i < |ws| ==> UnwrapResource(ws[i]).Success?
    ensures UnwrapResources(ws).Success? ==>
              && |UnwrapResources(ws).value| == |ws|
              && forall i :: 0 <= i < |ws| ==> UnwrapResources(ws).value[i] == UnwrapResource(ws[i]).value
    ensures forall k :: 0 <= k < |ws| && UnwrapResource(ws[k]).Failure? &&
                        (forall i :: 0 <= i < k ==> UnwrapResource(ws[i]).Success?) ==>
              UnwrapResources(ws) == Failure(UnwrapResource(ws[k]).error)
  {
    if ws != [] {
      var n := |ws| - 1;
      var p := ws[..n];
      UnwrapResourcesCorrect(p);
      assert forall i :: 0 <= i < n ==> p[i] == ws[i];
      forall k | 0 <= k < |ws| && UnwrapResource(ws[k]).Failure? &&
                 (forall i :: 0 <= i < k ==> UnwrapResource(ws[i]).Success?)
        ensures UnwrapResources(ws) == Failure(UnwrapResource(ws[k]).error)
      {
        if k < n {
          assert UnwrapResource(p[k]).Failure?;
          assert UnwrapResources(p) == Failure(UnwrapResource(ws[k]).error);
        } else {
          assert UnwrapResources(p).Success?;
        }
      }
    }
  }

  /** Once a prefix of the resources fails, the whole list fails with the same error. */
  lemma {:induction false} UnwrapResourcesPrefixFailure(ws: seq<ResourceWrap>, j: nat)
    requires j <= |ws| && UnwrapResources(ws[..j]).Failure?
    ensures UnwrapResources(ws) == UnwrapResources(ws[..j])
    decreases |ws| - j
  {
    if j < |ws| {
      assert ws[..j + 1][..j] == ws[..j];
      UnwrapResourcesPrefixFailure(ws, j + 1);
    } else {
      assert ws[..j] == ws;
    }
  }

  /** CreateFirewall: the create call with the interpolated options, and its response as output. */
  function CreateFirewall(ctx: ActionContext, env: FirewallEnv): (run: Run<FirewallOp, Document>)
    reads ctx
    ensures Disciplined(ctx.rehearsal, ctx.action.parameters, env.createParams, run)
    ensures var s := Prologue<Document, FirewallOp, Document>(ctx.rehearsal, ctx.action.parameters, env.createParams);
            s.Proceed? ==> run == CallAndOutput([Decode, Interpolate], Create(s.input), env.client, env.createSchema)
  {
    match Prologue<Document, FirewallOp, Document>(ctx.rehearsal, ctx.action.parameters, env.createParams)
    case Stop(r) => r
    case Proceed(input) => CallAndOutput([Decode, Interpolate], Create(input), env.client, env.createSchema)
  }

  /** DeleteFirewall: the ID must convert before the delete call; success yields one record with a nil value and no ID. */
  function DeleteFirewall(ctx: ActionContext, env: FirewallEnv): (run: Run<FirewallOp, Nil>)
    reads ctx
    ensures Disciplined(ctx.rehearsal, ctx.action.parameters, env.deleteParams, run)
    ensures var s := Prologue<FirewallWrap, FirewallOp, Nil>(ctx.rehearsal, ctx.action.parameters, env.deleteParams);
            s.Proceed? ==>
              && (!IsInt64Literal(s.input.id) ==> run == Run([Decode, Interpolate], Failed(UnwrapFirewall(s.input).error)))
              && (IsInt64Literal(s.input.id) ==>
                    var op := Delete(Firewall(LiteralValue(s.input.id)));
                    && run.effects == [Decode, Interpolate, Call(op)]
                    && (env.client(op).Failure? ==> run.outcome == Failed(env.client(op).error))
                    && (env.client(op).Success? ==> run.outcome == Produced(Nil, None)))
  {
    match Prologue<FirewallWrap, FirewallOp, Nil>(ctx.rehearsal, ctx.action.parameters, env.deleteParams)
    case Stop(r) => r
    case Proceed(input) =>
      match UnwrapFirewall(input)
      case Failure(e) => Run([Decode, Interpolate], Failed(e))
      case Success(fw) =>
        var deleted := env.client(Delete(fw));
        Run([Decode, Interpolate, Call(Delete(fw))], if deleted.Failure? then Failed(deleted.error) else Produced(Nil, None))
  }

  /** FindFirewalls: the list call with the interpolated options, and the listing as output. */
  function FindFirewalls(ctx: ActionContext, env: FirewallEnv): (run: Run<FirewallOp, FirewallListResponse>)
    reads ctx
    ensures Disciplined(ctx.rehearsal, ctx.action.parameters, env.listParams, run)
    ensures var s := Prologue<Document, FirewallOp, FirewallListResponse>(ctx.rehearsal, ctx.action.parameters, env.listParams);
            s.Proceed? ==> run == CallAndOutput([Decode, Interpolate], List(s.input), env.client, env.listSchema)
  {
    match Prologue<Document, FirewallOp, FirewallListResponse>(ctx.rehearsal, ctx.action.parameters, env.listParams)
    case Stop(r) => r
    case Proceed(input) => CallAndOutput([Decode, Interpolate], List(input), env.client, env.listSchema)
  }

  /**
   * FindOneFirewall: with an ID, the ID must convert and the firewall is read
   * by ID; without one, the firewalls are listed and exactly one must match.
   * The output's ValueID is the firewall's ID in decimal.
   */
  function FindOneFirewall(ctx: ActionContext, env: FirewallEnv): (run: Run<FirewallOp, FirewallGetResponse>)
    reads ctx
    ensures Disciplined(ctx.rehearsal, ctx.action.parameters, env.findOneParams, run)
    ensures run.outcome.Produced? ==> run.outcome.valueId == Some(FormatInt(run.outcome.value.firewall.id))
    ensures var s := Prologue<FindOneFirewallParameters, FirewallOp, FirewallGetResponse>(
                       ctx.rehearsal, ctx.action.parameters, env.findOneParams);
            s.Proceed? && s.input.id.Some? ==>
              && (!IsInt64Literal(s.input.id.value) ==> run == Run([Decode, Interpolate], Failed(ParseID(s.input.id.value).error)))
              && (IsInt64Literal(s.input.id.value) ==>
                    var got := env.client(GetByID(LiteralValue(s.input.id.value)));
                    && run.effects == [Decode, Interpolate, Call(GetByID(LiteralValue(s.input.id.value)))]
                    && (got.Failure? ==> run.outcome == Failed(got.error))
                    && (got.Success? ==>
                          var decoded := UnmarshallHCloudToSchema(got.value, env.getSchema);
                          && (decoded.Failure? ==> run.outcome == Failed(decoded.error))
                          && (decoded.Success? ==>
                                run.outcome == Produced(decoded.value, Some(FormatInt(decoded.value.firewall.id))))))
    ensures var s := Prologue<FindOneFirewallParameters, FirewallOp, FirewallGetResponse>(
                       ctx.rehearsal, ctx.action.parameters, env.findOneParams);
            var listed := FindFirewalls(ctx, env);
            s.Proceed? && s.input.id.None? ==>
              && run.effects == [Decode, Interpolate] + listed.effects
              && (listed.outcome.Failed? ==> run.outcome == Failed(listed.outcome.err))
              && (listed.outcome.Produced? ==>
                    var found := listed.outcome.value.firewalls;
                    && (|found| == 0 ==> run.outcome == Failed(Message("no firewall found")))
                    && (|found| > 1 ==> run.outcome == Failed(Message("too many results")))
                    && (|found| == 1 ==> run.outcome.Produced? && run.outcome.value == FirewallGetResponse(found[0])))
  {
    match Prologue<FindOneFirewallParameters, FirewallOp, FirewallGetResponse>(ctx.rehearsal, ctx.action.parameters, env.findOneParams)
    case Stop(r) => r
    case Proceed(input) =>
      if input.id.Some? then
        match ParseID(input.id.value)
        case Failure(e) => Run([Decode, Interpolate], Failed(e))
        case Success(id) =>
          var effects := [Decode, Interpolate, Call(GetByID(id))];
          match env.client(GetByID(id))
          case Failure(e) => Run(effects, Failed(e))
          case Success(response) =>
            match UnmarshallHCloudToSchema(response, env.getSchema)
            case Failure(e) => Run(effects, Failed(e))
            case Success(output) => Run(effects, Produced(output, Some(FormatInt(output.firewall.id))))
      else
        var listed := FindFirewalls(ctx, env);
        var effects := [Decode, Interpolate] + listed.effects;
        if listed.outcome.Failed? then Run(effects, Failed(listed.outcome.err))
        else
          // The rehearsal check after the listing never fires: a rehearsal returned above.
          assert listed.outcome.Produced?;
          assert "no " + "firewall" + " found" == "no firewall found";
          match SelectOne([listed.outcome.value.firewalls], "firewall")
          case Failure(e) => Run(effects, Failed(e))
          case Success(f) => Run(effects, Produced(FirewallGetResponse(f), Some(FormatInt(f.id))))
  }

  /** The ValueID FindOneFirewall records converts back to the ID of the firewall it found. */
  lemma FindOneFirewallValueIdRoundTrip(ctx: ActionContext, env: FirewallEnv)
    requires FindOneFirewall(ctx, env).outcome.Produced?
    ensures var o := FindOneFirewall(ctx, env).outcome;
            o.valueId.Some? && ParseID(o.valueId.value) == Success(o.value.firewall.id)
  {
    var o := FindOneFirewall(ctx, env).outcome;
    FormatParseRoundTrip(o.value.firewall.id);
    ParseIntCorrect(FormatInt(o.value.firewall.id));
  }

  /**
   * ApplyFirewallToResources: the firewall ID must convert, then the resources
   * are unwrapped in input order and the first failure aborts; only when all
   * convert is the client called, with the firewall and the converted list.
   */
  method ApplyFirewallToResources(ctx: ActionContext, env: FirewallEnv) returns (run: Run<FirewallOp, Document>)
    ensures Disciplined(ctx.rehearsal, ctx.action.parameters, env.applyParams, run)
    ensures var s := Prologue<ApplyResourcesParameters, FirewallOp, Document>(
                       ctx.rehearsal, ctx.action.parameters, env.applyParams);
            s.Proceed? ==>
              var fw := UnwrapFirewall(s.input.firewall);
              var rs := UnwrapResources(s.input.resources);
              && (fw.Failure? ==> run == Run([Decode, Interpolate], Failed(fw.error)))
              && (fw.Success? && rs.Failure? ==> run == Run([Decode, Interpolate], Failed(rs.error)))
              && (fw.Success? && rs.Success? ==>
                    run == CallAndOutput([Decode, Interpolate], ApplyResources(fw.value, rs.value), env.client, env.applySchema))
  {
    var stage := Prologue<ApplyResourcesParameters, FirewallOp, Document>(ctx.rehearsal, ctx.action.parameters, env.applyParams);
    if stage.Stop? {
      return stage.run;
    }
    var input := stage.input;
    var fw := UnwrapFirewall(input.firewall);
    if fw.Failure? {
      return Run([Decode, Interpolate], Failed(fw.error));
    }

    var resources: seq<FirewallResource> := [];
    var i := 0;
    while i < |input.resources|
      invariant 0 <= i <= |input.resources|
      invariant UnwrapResources(input.resources[..i]) == Success(resources)
    {
      var hres := UnwrapResource(input.resources[i]);
      assert input.resources[..i + 1][..i] == input.resources[..i];
      if hres.Failure? {
        UnwrapResourcesPrefixFailure(input.resources, i + 1);
        return Run([Decode, Interpolate], Failed(hres.error));
      }
      resources := resources + [hres.value];
      i := i + 1;
    }
    assert input.resources[..i] == input.resources;

    run := CallAndOutput([Decode, Interpolate], ApplyResources(fw.value, resources), env.client, env.applySchema);
  }

  /** RemoveFirewallFromResources: the firewall ID must convert; the resources are passed on as given. */
  function RemoveFirewallFromResources(ctx: ActionContext, env: FirewallEnv): (run: Run<FirewallOp, Document>)
    reads ctx
    ensures Disciplined(ctx.rehearsal, ctx.action.parameters, env.removeParams, run)
    ensures var s := Prologue<RemoveResourcesParameters, FirewallOp, Document>(
                       ctx.rehearsal, ctx.action.parameters, env.removeParams);
            s.Proceed? ==>
              var fw := UnwrapFirewall(s.input.firewall);
              && (fw.Failure? ==> run == Run([Decode, Interpolate], Failed(fw.error)))
              && (fw.Success? ==>
                    run == CallAndOutput([Decode, Interpolate], RemoveResources(fw.value, s.input.resources), env.client, env.removeSchema))
  {
    match Prologue<RemoveResourcesParameters, FirewallOp, Document>(ctx.rehearsal, ctx.action.parameters, env.removeParams)
    case Stop(r) => r
    case Proceed(input) =>
      match UnwrapFirewall(input.firewall)
      case Failure(e) => Run([Decode, Interpolate], Failed(e))
      case Success(fw) => CallAndOutput([Decode, Interpolate], RemoveResources(fw, input.resources), env.client, env.removeSchema)
  }

  /** SetRulesFirewall: the firewall ID must convert; the rule options are passed on as given. */
  function SetRulesFirewall(ctx: ActionContext, env: FirewallEnv): (run: Run<FirewallOp, Document>)
    reads ctx
    ensures Disciplined(ctx.rehearsal, ctx.action.parameters, env.setRulesParams, run)
    ensures var s := Prologue<SetRulesParameters, FirewallOp, Document>(
                       ctx.rehearsal, ctx.action.parameters, env.setRulesParams);
            s.Proceed? ==>
              var fw := UnwrapFirewall(s.input.firewall);
              && (fw.Failure? ==> run == Run([Decode, Interpolate], Failed(fw.error)))
              && (fw.Success? ==>
                    run == CallAndOutput([Decode, Interpolate], SetRules(fw.value, s.input.opts), env.client, env.setRulesSchema))
  {
    match Prologue<SetRulesParameters, FirewallOp, Document>(ctx.rehearsal, ctx.action.parameters, env.setRulesParams)
    case Stop(r) => r
    case Proceed(input) =>
      match UnwrapFirewall(input.firewall)
      case Failure(e) => Run([Decode, Interpolate], Failed(e))
      case Success(fw) => CallAndOutput([Decode, Interpolate], SetRules(fw, input.opts), env.client, env.setRulesSchema)
  }
}
