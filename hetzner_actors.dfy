/**
 * Package `actors` of the Hetzner provider, file actors.go: the context a
 * run function receives, the registry that maps blueprint action names to run
 * functions, and the helpers that turn an hcloud response into an action
 * output.
 *
 * A run function is modelled as a value: the ordered log of the steps it
 * took (decoding the parameters, interpolating them against the store,
 * calling the hcloud client) together with its `Outcome`, the arguments it
 * passes to NewActionOutput. `Base.Materialize` builds the objects from it.
 * The JSON decoder, the store's interpolation and the hcloud client are
 * oracles handed to each run function.
 */
module HetznerActors {
  import opened Wrappers
  import opened GoTypes
  import opened Base

  /** An hcloud option or schema structure whose fields the actors never read, kept as its JSON text. */
  datatype Document = Document(json: seq<byte>)

  /** An opaque reference: the hcloud client and the blueprint store held by a context. */
  datatype Handle = Handle(id: nat)

  /** The part of base.ILogger that NewActionContext uses. */
  class Logger {
    var actionId: string

    constructor (actionId: string)
      ensures this.actionId == actionId
    {
      this.actionId := actionId;
    }

    /** A fresh logger with the same settings. */
    method Duplicate() returns (l: Logger)
      ensures fresh(l) && l.actionId == actionId
    {
      l := new Logger(actionId);
    }

    method SetActionID(id: string)
      modifies this
      ensures actionId == id
    {
      actionId := id;
    }
  }

  class ActionContext {
    var rehearsal: bool
    var hclient: Handle
    var action: Action
    var store: Handle
    var logger: Logger

    /** The composite literal of NewActionContext: Rehearsal keeps its zero value. */
    constructor (hclient: Handle, action: Action, store: Handle, logger: Logger)
      ensures !rehearsal
      ensures this.hclient == hclient && this.action == action && this.store == store && this.logger == logger
    {
      rehearsal := false;
      this.hclient := hclient;
      this.action := action;
      this.store := store;
      this.logger := logger;
    }
  }

  /**
   * NewActionContext: a fresh, non-rehearsal context over the given client,
   * action and store, whose logger is a fresh copy of `logger` tagged with the
   * action's ID; the caller's logger keeps its own tag.
   */
  method NewActionContext(client: Handle, action: Action, store: Handle, logger: Logger)
    returns (ctx: ActionContext)
    ensures fresh(ctx) && fresh(ctx.logger) && ctx.logger != logger
    ensures !ctx.rehearsal && ctx.hclient == client && ctx.action == action && ctx.store == store
    ensures ctx.logger.actionId == action.actionId
    ensures logger.actionId == old(logger.actionId)
  {
    var l := logger.Duplicate();
    l.SetActionID(action.actionId);
    ctx := new ActionContext(client, action, store, l);
  }

  /** Which outcomes of an action let the blueprint continue (an iota enumeration). */
  datatype NextType = NextOKKO | NextOK | NextKO {
    function Code(): (c: int)
      ensures 0 <= c < 3
    {
      match this
      case NextOKKO => 0
      case NextOK => 1
      case NextKO => 2
    }
  }

  lemma NextTypeCodes()
    ensures NextOKKO.Code() == 0 && NextOK.Code() == 1 && NextKO.Code() == 2
  {
  }

  /** The run functions the registry names, as tags (several live in files this model does not cover). */
  datatype ActionFunc =
    | CreateFloatingIPFunc | DeleteFloatingIPFunc | FindFloatingIPsFunc | FindOneFloatingIPFunc
    | AssignFloatingIPFunc | UnassignFloatingIPFunc
    | FindImagesFunc | FindOneImageFunc
    | CreateServerFunc | DeleteServerFunc | FindServersFunc | FindOneServerFunc
    | PowerOnServerFunc | PowerOffServerFunc
    | CreateNetworkFunc | DeleteNetworkFunc | FindNetworksFunc | FindOneNetworkFunc
    | CreateVolumeFunc | DeleteVolumeFunc | FindVolumesFunc | FindOneVolumeFunc
    | AttachVolumeFunc | DetachVolumeFunc
    | FindDatacentersFunc | FindOneDatacenterFunc
    | CreateFirewallFunc | DeleteFirewallFunc | FindFirewallsFunc | FindOneFirewallFunc
    | ApplyToResourcesFirewallFunc | RemoveFromResourcesFirewallFunc | SetRulesFirewallFunc
    | FindISOsFunc | FindOneISOFunc
    | CreateLoadBalancerFunc | DeleteLoadBalancerFunc | FindLoadBalancersFunc | FindOneLoadBalancerFunc
    | AttachToNetworkLoadBalancerFunc | DetachFromNetworkLoadBalancerFunc
    | FindLocationsFunc | FindOneLocationFunc
    | CreatePrimaryIPFunc | DeletePrimaryIPFunc | FindPrimaryIPsFunc | FindOnePrimaryIPFunc
    | AssignPrimaryIPFunc | UnassignPrimaryIPFunc
    | CreateSSHKeyFunc | DeleteSSHKeyFunc | FindSSHKeysFunc | FindOneSSHKeyFunc
    | AddTargetToLoadBalancerFunc | RemoveTargetToLoadBalancerFunc

  datatype ActionLayout = ActionLayout(f: ActionFunc, n: NextType)

  /**
   * The registry, entry for entry as the provider declares it: the layout a
   * blueprint action name is registered with, if any. Every registered action
   * lets the blueprint continue on both success and failure.
   */
  function ActionFuncMap(name: string): (layout: Option<ActionLayout>)
    ensures layout.Some? ==> layout.value.n == NextOKKO
  {
    match name
    case "create_floating_ip" => Some(ActionLayout(CreateFloatingIPFunc, NextOKKO))
    case "delete_floating_ip" => Some(ActionLayout(DeleteFloatingIPFunc, NextOKKO))
    case "find_floating_ips" => Some(ActionLayout(FindFloatingIPsFunc, NextOKKO))
    case "findone_floating_ip" => Some(ActionLayout(FindOneFloatingIPFunc, NextOKKO))
    case "assign_floating_ip" => Some(ActionLayout(AssignFloatingIPFunc, NextOKKO))
    case "unassign_floating_ip" => Some(ActionLayout(UnassignFloatingIPFunc, NextOKKO))

    case "find_images" => Some(ActionLayout(FindImagesFunc, NextOKKO))
    case "findone_image" => Some(ActionLayout(FindOneImageFunc, NextOKKO))
    case "delete_image" => Some(ActionLayout(FindOneImageFunc, NextOKKO))

    case "create_server" => Some(ActionLayout(CreateServerFunc, NextOKKO))
    case "delete_server" => Some(ActionLayout(DeleteServerFunc, NextOKKO))
    case "find_servers" => Some(ActionLayout(FindServersFunc, NextOKKO))
    case "findone_server" => Some(ActionLayout(FindOneServerFunc, NextOKKO))
    case "start_server" => Some(ActionLayout(PowerOnServerFunc, NextOKKO))
    case "stop_server" => Some(ActionLayout(PowerOffServerFunc, NextOKKO))

    case "create_network" => Some(ActionLayout(CreateNetworkFunc, NextOKKO))
    case "delete_network" => Some(ActionLayout(DeleteNetworkFunc, NextOKKO))
    case "find_networks" => Some(ActionLayout(FindNetworksFunc, NextOKKO))
    case "findone_network" => Some(ActionLayout(FindOneNetworkFunc, NextOKKO))

    case "create_volume" => Some(ActionLayout(CreateVolumeFunc, NextOKKO))
    case "delete_volume" => Some(ActionLayout(DeleteVolumeFunc, NextOKKO))
    case "find_volumes" => Some(ActionLayout(FindVolumesFunc, NextOKKO))
    case "findone_volume" => Some(ActionLayout(FindOneVolumeFunc, NextOKKO))
    case "attach_volume" => Some(ActionLayout(AttachVolumeFunc, NextOKKO))
    case "detach_volume" => Some(ActionLayout(DetachVolumeFunc, NextOKKO))

    case "find_datacenters" => Some(ActionLayout(FindDatacentersFunc, NextOKKO))
    case "findone_datacenter" => Some(ActionLayout(FindOneDatacenterFunc, NextOKKO))

    case "create_firewall" => Some(ActionLayout(CreateFirewallFunc, NextOKKO))
    case "delete_firewall" => Some(ActionLayout(DeleteFirewallFunc, NextOKKO))
    case "find_firewalls" => Some(ActionLayout(FindFirewallsFunc, NextOKKO))
    case "findone_firewall" => Some(ActionLayout(FindOneFirewallFunc, NextOKKO))
    case "apply_to_resources_firewall" => Some(ActionLayout(ApplyToResourcesFirewallFunc, NextOKKO))
    case "remove_from_resources_firewall" => Some(ActionLayout(RemoveFromResourcesFirewallFunc, NextOKKO))
    case "set_rules_firewall" => Some(ActionLayout(SetRulesFirewallFunc, NextOKKO))

    case "find_isos" => Some(ActionLayout(FindISOsFunc, NextOKKO))
    case "findone_iso" => Some(ActionLayout(FindOneISOFunc, NextOKKO))

    case "create_load_balancer" => Some(ActionLayout(CreateLoadBalancerFunc, NextOKKO))
    case "delete_load_balancer" => Some(ActionLayout(DeleteLoadBalancerFunc, NextOKKO))
    case "find_load_balancers" => Some(ActionLayout(FindLoadBalancersFunc, NextOKKO))
    case "findone_load_balancer" => Some(ActionLayout(FindOneLoadBalancerFunc, NextOKKO))
    case "attach_to_network_load_balancer" => Some(ActionLayout(AttachToNetworkLoadBalancerFunc, NextOKKO))
    case "dettach_from_network_load_balancer" => Some(ActionLayout(DetachFromNetworkLoadBalancerFunc, NextOKKO))

    case "find_locations" => Some(ActionLayout(FindLocationsFunc, NextOKKO))
    case "findone_location" => Some(ActionLayout(FindOneLocationFunc, NextOKKO))

    case "create_primary_ip" => Some(ActionLayout(CreatePrimaryIPFunc, NextOKKO))
    case "delete_primary_ip" => Some(ActionLayout(DeletePrimaryIPFunc, NextOKKO))
    case "find_primary_ips" => Some(ActionLayout(FindPrimaryIPsFunc, NextOKKO))
    case "findone_primary_ip" => Some(ActionLayout(FindOnePrimaryIPFunc, NextOKKO))
    case "assign_primary_ip" => Some(ActionLayout(AssignPrimaryIPFunc, NextOKKO))
    case "unassign_primary_ip" => Some(ActionLayout(UnassignPrimaryIPFunc, NextOKKO))

    case "create_ssh_key" => Some(ActionLayout(CreateSSHKeyFunc, NextOKKO))
    case "delete_ssh_key" => Some(ActionLayout(DeleteSSHKeyFunc, NextOKKO))
    case "find_ssh_keys" => Some(ActionLayout(FindSSHKeysFunc, NextOKKO))
    case "findone_ssh_key" => Some(ActionLayout(FindOneSSHKeyFunc, NextOKKO))

    case "add_target" => Some(ActionLayout(AddTargetToLoadBalancerFunc, NextOKKO))
    case "remove_target" => Some(ActionLayout(RemoveTargetToLoadBalancerFunc, NextOKKO))
    case _ => None
  }

  /** "delete_image" is registered with the image lookup, not a deletion. */
  lemma DeleteImageLooksUpImage()
    ensures ActionFuncMap("delete_image") == ActionFuncMap("findone_image")
    ensures ActionFuncMap("delete_image") == Some(ActionLayout(FindOneImageFunc, NextOKKO))
  {
  }

  /** The firewall and ISO entries name the run functions of those files. */
  lemma FirewallAndIsoEntries()
    ensures ActionFuncMap("create_firewall") == Some(ActionLayout(CreateFirewallFunc, NextOKKO))
    ensures ActionFuncMap("delete_firewall") == Some(ActionLayout(DeleteFirewallFunc, NextOKKO))
    ensures ActionFuncMap("find_firewalls") == Some(ActionLayout(FindFirewallsFunc, NextOKKO))
    ensures ActionFuncMap("findone_firewall") == Some(ActionLayout(FindOneFirewallFunc, NextOKKO))
    ensures ActionFuncMap("apply_to_resources_firewall") == Some(ActionLayout(ApplyToResourcesFirewallFunc, NextOKKO))
    ensures ActionFuncMap("remove_from_resources_firewall") == Some(ActionLayout(RemoveFromResourcesFirewallFunc, NextOKKO))
    ensures ActionFuncMap("set_rules_firewall") == Some(ActionLayout(SetRulesFirewallFunc, NextOKKO))
    ensures ActionFuncMap("find_isos") == Some(ActionLayout(FindISOsFunc, NextOKKO))
    ensures ActionFuncMap("findone_iso") == Some(ActionLayout(FindOneISOFunc, NextOKKO))
  {
  }

  /** An hcloud response; reading its body either yields the bytes or fails. */
  datatype Response = Response(body: Result<seq<byte>, Error>)

  /**
   * UnmarshallHCloudToSchema: read the whole body, then decode and validate it
   * against the schema; the first step that fails decides the error.
   */
  function UnmarshallHCloudToSchema<V>(response: Response, schema: seq<byte> -> Result<V, Error>): (r: Result<V, Error>)
    ensures response.body.Failure? ==> r == Failure(response.body.error)
    ensures r.Success? <==> response.body.Success? && schema(response.body.value).Success?
    ensures r.Success? ==> r.value == schema(response.body.value).value
    ensures response.body.Success? && r.Failure? ==> r.error == schema(response.body.value).error
  {
    if response.body.Failure? then Failure(response.body.error)
    else schema(response.body.value)
  }

  /**
   * GenericHCloudOutput: no output and the error when the response cannot be
   * read into the schema; otherwise one record holding the decoded value and
   * no ValueID.
   */
  function GenericHCloudOutput<V>(response: Response, schema: seq<byte> -> Result<V, Error>): (o: Outcome<V>)
    ensures !o.Rehearsed?
    ensures o.Failed? <==> UnmarshallHCloudToSchema(response, schema).Failure?
    ensures o.Failed? ==> o.err == UnmarshallHCloudToSchema(response, schema).error
    ensures o.Produced? ==> o.value == UnmarshallHCloudToSchema(response, schema).value && o.valueId == None
  {
    match UnmarshallHCloudToSchema(response, schema)
    case Failure(e) => Failed(e)
    case Success(v) => Produced(v, None)
  }

  /** The steps of a run function, in the order it takes them. */
  datatype Effect<Op> = Decode | Interpolate | Call(op: Op)

  /** What a run function did and what it returned. */
  datatype Run<Op, V> = Run(effects: seq<Effect<Op>>, outcome: Outcome<V>)

  /**
   * The foreign code a run function applies to its parameters:
   * util.UnmarshalValidJSON into the parameter structure, then the store's
   * DeepInterpolation, which rewrites the structure in place.
   */
  datatype Params<!P> = Params(decode: seq<byte> -> Result<P, Error>, interpolate: P -> Result<P, Error>)

  /**
   * The order every run function keeps: decode and validate first, and stop
   * on an error; under rehearsal stop with no output and no error; then
   * interpolate, and stop on an error; only then may the client be called.
   */
  ghost predicate Disciplined<P, Op, V>(rehearsal: bool, parameters: seq<byte>, ps: Params<P>, run: Run<Op, V>)
  {
    var decoded := ps.decode(parameters);
    if decoded.Failure? then run == Run([Decode], Failed(decoded.error))
    else if rehearsal then run == Run([Decode], Rehearsed)
    else if ps.interpolate(decoded.value).Failure? then
      run == Run([Decode, Interpolate], Failed(ps.interpolate(decoded.value).error))
    else |run.effects| >= 2 && run.effects[..2] == [Decode, Interpolate] && !run.outcome.Rehearsed?
  }

  /** A run function under rehearsal never reaches its client. */
  lemma RehearsalCallsNothing<P, Op, V>(parameters: seq<byte>, ps: Params<P>, run: Run<Op, V>)
    requires Disciplined(true, parameters, ps, run)
    ensures forall i :: 0 <= i < |run.effects| ==> !run.effects[i].Call?
    ensures run.outcome.Rehearsed? || run.outcome.Failed?
  {
  }

  /** Where the shared first steps of a run function leave it. */
  datatype Stage<P, Op, V> = Stop(run: Run<Op, V>) | Proceed(input: P)

  /** The decode, rehearsal and interpolation steps that open every run function. */
  function Prologue<P, Op, V>(rehearsal: bool, parameters: seq<byte>, ps: Params<P>): (s: Stage<P, Op, V>)
    ensures s.Proceed? <==>
              ps.decode(parameters).Success? && !rehearsal && ps.interpolate(ps.decode(parameters).value).Success?
    ensures s.Proceed? ==> s.input == ps.interpolate(ps.decode(parameters).value).value
    ensures s.Stop? ==> Disciplined(rehearsal, parameters, ps, s.run)
  {
    var decoded := ps.decode(parameters);
    if decoded.Failure? then Stop(Run([Decode], Failed(decoded.error)))
    else if rehearsal then Stop(Run([Decode], Rehearsed))
    else
      var interpolated := ps.interpolate(decoded.value);
      if interpolated.Failure? then Stop(Run([Decode, Interpolate], Failed(interpolated.error)))
      else Proceed(interpolated.value)
  }

  /**
   * The tail most run functions share: call the client once with `op`, stop
   * on its error, otherwise hand the response to GenericHCloudOutput. An
   * output is produced exactly when the call succeeds and its body decodes.
   */
  function CallAndOutput<Op, V>(done: seq<Effect<Op>>, op: Op, client: Op -> Result<Response, Error>,
                                schema: seq<byte> -> Result<V, Error>): (run: Run<Op, V>)
    ensures run.effects == done + [Call(op)]
    ensures !run.outcome.Rehearsed?
    ensures run.outcome.Produced? <==>
              client(op).Success? && UnmarshallHCloudToSchema(client(op).value, schema).Success?
    ensures run.outcome.Produced? ==>
              run.outcome == Produced(UnmarshallHCloudToSchema(client(op).value, schema).value, None)
    ensures client(op).Failure? ==> run.outcome == Failed(client(op).error)
    ensures client(op).Success? && run.outcome.Failed? ==>
              run.outcome.err == UnmarshallHCloudToSchema(client(op).value, schema).error
  {
    var response := client(op);
    if response.Failure? then Run(done + [Call(op)], Failed(response.error))
    else Run(done + [Call(op)], GenericHCloudOutput(response.value, schema))
  }

  /**
   * The selection of the find-one actions: the listing must hold a record,
   * and that record exactly one item; "no <noun> found" when there is none,
   * "too many results" when there are several.
   */
  function SelectOne<T>(records: seq<seq<T>>, noun: string): (r: Result<T, Error>)
    ensures r.Success? <==> |records| > 0 && |records[0]| == 1
    ensures r.Success? ==> r.value == records[0][0]
    ensures |records| == 0 || |records[0]| == 0 ==> r == Failure(Message("no " + noun + " found"))
    ensures |records| > 0 && |records[0]| > 1 ==> r == Failure(Message("too many results"))
  {
    if |records| <= 0 then Failure(Message("no " + noun + " found"))
    else if |records[0]| > 1 then Failure(Message("too many results"))
    else if |records[0]| <= 0 then Failure(Message("no " + noun + " found"))
    else Success(records[0][0])
  }
}
