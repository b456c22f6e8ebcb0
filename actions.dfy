/**
 * The decision logic of the Orion base action: connecting to a configured
 * platform, resolving a node by IP address or caption, resolving SNMP
 * communities and credential identifiers, mapping a poller name to an
 * engine identifier, and waiting for a configuration-transfer job to settle.
 *
 * The query client is an oracle. A one-shot lookup receives `swis`, the
 * platform's answer to each possible query. The transfer poll receives the
 * successive answers to its one repeated query, because the job's status
 * changes between polls.
 */
module Actions {
  import opened Wrappers
  import opened Swis

  // ---------------------------------------------------------------------
  // Configuration
  // ---------------------------------------------------------------------

  /** One `orion.<platform>` entry; an absent key is `None`. */
  datatype PlatformEntry = PlatformEntry(host: Option<string>, user: Option<string>, password: Option<string>)

  /** The `defaults` entry: a default platform name and the standard SNMP communities. */
  datatype Defaults = Defaults(platform: Option<string>, snmp: Option<map<string, string>>)

  /** The pack's configuration; `orion` and `defaults` may each be missing. */
  datatype Config = Config(orion: Option<map<string, PlatformEntry>>, defaults: Option<Defaults>)

  /** The client handle, identified by the credentials it was built from. */
  datatype Client = SwisClient(host: string, user: string, password: string)

  const NoOrionDetails := "Orion host details not in the config.yaml"
  const InvalidStandardCommunity := "Invalid standard community"
  const NeedCommunity := "Need one of community or std_community"
  const CredentialLookupFailed := "Failed to lookup community in Orion.Credential!"
  const InvalidPoller := "Invalid poller name"
  const NoResultsFromOrion := "No results from Orion"
  const SnmpV2CredentialType := "SolarWinds.Orion.Core.Models.Credentials.SnmpCredentialsV2"

  /** The configured default platform name, if `defaults.platform` is present. */
  function DefaultPlatform(config: Config): Option<string> {
    if config.defaults.Some? then config.defaults.value.platform else None
  }

  /** The standard communities; a missing `defaults` or `defaults.snmp` knows none. */
  function StandardCommunities(config: Config): map<string, string> {
    if config.defaults.Some? && config.defaults.value.snmp.Some? then config.defaults.value.snmp.value else map[]
  }

  /** The platform connect uses: the argument, else the configured default. */
  function ResolvePlatform(config: Config, platform: Option<string>): (r: Result<string, Error>)
    ensures platform.Some? ==> r == Success(platform.value)
    ensures platform.None? ==> (r.Success? <==> DefaultPlatform(config).Some?)
    ensures platform.None? && r.Success? ==> r.value == DefaultPlatform(config).value
    // only IndexError is caught around the lookup, so a missing default escapes as KeyError
    ensures r.Failure? ==> r.error.KeyError?
  {
    match platform
    case Some(p) => Success(p)
    case None =>
      match config.defaults
      case None => Failure(KeyError("defaults"))
      case Some(d) =>
        match d.platform
        case None => Failure(KeyError("platform"))
        case Some(p) => Success(p)
  }

  /** `config['orion'][platform]['host' | 'user' | 'password']`, any KeyError becoming ValueError. */
  function HostDetails(config: Config, platform: string): (r: Result<Client, Error>)
    ensures r.Success? <==>
      config.orion.Some? && platform in config.orion.value &&
      config.orion.value[platform].host.Some? &&
      config.orion.value[platform].user.Some? &&
      config.orion.value[platform].password.Some?
    ensures r.Success? ==>
      var entry := config.orion.value[platform];
      entry.host == Some(r.value.host) && entry.user == Some(r.value.user) && entry.password == Some(r.value.password)
    ensures r.Failure? ==> r.error == ValueError(NoOrionDetails)
  {
    if config.orion.None? || platform !in config.orion.value then
      Failure(ValueError(NoOrionDetails))
    else
      var entry := config.orion.value[platform];
      match (entry.host, entry.user, entry.password)
      case (Some(h), Some(u), Some(p)) => Success(SwisClient(h, u, p))
      case _ => Failure(ValueError(NoOrionDetails))
  }

  // ---------------------------------------------------------------------
  // Node resolution
  // ---------------------------------------------------------------------

  /** A node record; every field is unset until a lookup fills it. */
  datatype OrionNode = OrionNode(
    npmId: Option<Value>,
    uri: Option<Value>,
    ipAddress: Option<Value>,
    caption: Option<Value>,
    ncmId: Option<Value>)
  {
    /** Whether the node was found in the primary inventory (assumed: its identifier is set). */
    predicate Npm() {
      npmId.Some?
    }
  }

  const EmptyNode := OrionNode(None, None, None, None, None)

  /** A row value stored into a record field: a null is Python's None, which reads as an unset field. */
  function Assigned(v: Value): (f: Option<Value>)
    ensures f.None? <==> v == Null
    ensures f.Some? ==> f.value == v
  {
    if v == Null then None else Some(v)
  }

  /** The fields a one-row primary answer is read for, in the order they are copied. */
  const NodeFields: seq<string> := ["NodeID", "Uri", "IPAddress", "Caption"]

  /** The inventory field an identifier is matched against. */
  function MatchField(node: string, isIp: string -> bool): (f: NodeField)
    ensures f == IPAddress <==> isIp(node)
    ensures f == Caption <==> !isIp(node)
  {
    if isIp(node) then IPAddress else Caption
  }

  /** The message of the ambiguous-match error; it names the identifier. */
  function MultipleNodesMessage(node: string): string {
    "Muliple Nodes match '" + node + "' Caption"
  }

  /** The node record built from the answer to the primary lookup. */
  function PrimaryNode(node: string, data: Response): (r: Result<OrionNode, Error>)
    ensures data.results.None? ==> r == Failure(Exception(NoResultsFromOrion))
    ensures data.results.Some? && |data.results.value| == 0 ==> r == Success(EmptyNode)
    ensures data.results.Some? && |data.results.value| >= 2 ==> r == Failure(ValueError(MultipleNodesMessage(node)))
    ensures data.results.Some? && |data.results.value| == 1 ==>
      var row := data.results.value[0];
      && (r.Success? <==> FirstMissing(row, NodeFields).None?)
      && (r.Failure? ==> r.error == KeyError(FirstMissing(row, NodeFields).value))
      && (r.Success? ==> r.value == OrionNode(Assigned(row["NodeID"]), Assigned(row["Uri"]), Assigned(row["IPAddress"]), Assigned(row["Caption"]), None))
    ensures r.Success? ==> r.value.ncmId.None?
  {
    match data.results
    case None => Failure(Exception(NoResultsFromOrion))
    case Some(rows) =>
      if |rows| == 1 then
        assert NodeFields[0] == "NodeID" && NodeFields[1] == "Uri" && NodeFields[2] == "IPAddress" && NodeFields[3] == "Caption";
        var npmId :- Get(rows[0], "NodeID");
        var uri :- Get(rows[0], "Uri");
        var ipAddress :- Get(rows[0], "IPAddress");
        var caption :- Get(rows[0], "Caption");
        Success(EmptyNode.(npmId := Assigned(npmId), uri := Assigned(uri), ipAddress := Assigned(ipAddress), caption := Assigned(caption)))
      else if |rows| >= 2 then
        Failure(ValueError(MultipleNodesMessage(node)))
      else
        Success(EmptyNode)
  }

  /** The secondary lookup: only a single-row answer sets `ncmId`; every other answer is tolerated. */
  function NcmNode(n: OrionNode, data: Response): (r: Result<OrionNode, Error>)
    ensures r.Success? ==> r.value.(ncmId := n.ncmId) == n
    ensures data.results.Some? && |data.results.value| == 1 ==>
      && ("NodeID" in data.results.value[0] ==> r == Success(n.(ncmId := Assigned(data.results.value[0]["NodeID"]))))
      && ("NodeID" !in data.results.value[0] ==> r == Failure(KeyError("NodeID")))
    ensures !(data.results.Some? && |data.results.value| == 1) ==> r == Success(n)
  {
    match data.results
    case None => Success(n)
    case Some(rows) =>
      if |rows| == 1 then
        var ncmId :- Get(rows[0], "NodeID");
        Success(n.(ncmId := Assigned(ncmId)))
      else
        Success(n)
  }

  /** The primary lookup's query for an identifier. */
  function NodeQuery(node: string, isIp: string -> bool): Query {
    NodesWhere(MatchField(node, isIp), node)
  }

  /** The record get_node returns, or the exception it raises. */
  function ResolveNode(node: string, isIp: string -> bool, swis: Query -> Response): (r: Result<OrionNode, Error>)
    ensures var primary := PrimaryNode(node, swis(NodeQuery(node, isIp)));
      && (primary.Failure? ==> r == primary)
      && (primary.Success? && primary.value.npmId.None? ==> r == primary)
      && (primary.Success? && primary.value.npmId.Some? ==>
            var data := swis(NcmNodesWhereCore(primary.value.npmId.value));
            && (!(data.results.Some? && |data.results.value| == 1) ==> r == primary)
            && (data.results.Some? && |data.results.value| == 1 && "NodeID" in data.results.value[0] ==>
                  r == Success(primary.value.(ncmId := Assigned(data.results.value[0]["NodeID"]))))
            && (data.results.Some? && |data.results.value| == 1 && "NodeID" !in data.results.value[0] ==>
                  r == Failure(KeyError("NodeID"))))
      && (r.Success? ==> primary.Success? && r.value.(ncmId := None) == primary.value)
      && (r.Success? && r.value.ncmId.Some? ==> r.value.npmId.Some?)
  {
    var primary :- PrimaryNode(node, swis(NodeQuery(node, isIp)));
    if primary.Npm() then NcmNode(primary, swis(NcmNodesWhereCore(primary.npmId.value))) else Success(primary)
  }

  /** The queries get_node sends: the primary lookup, then the secondary one only for a found node. */
  function NodeQueries(node: string, isIp: string -> bool, swis: Query -> Response): (qs: seq<Query>)
    ensures 1 <= |qs| <= 2 && qs[0].NodesWhere? && qs[0].queryOn == node
    ensures qs[0].field == IPAddress <==> isIp(node)
    ensures |qs| == 2 <==>
      var primary := PrimaryNode(node, swis(NodeQuery(node, isIp)));
      primary.Success? && primary.value.npmId.Some?
    ensures |qs| == 2 ==> qs[1] == NcmNodesWhereCore(PrimaryNode(node, swis(NodeQuery(node, isIp))).value.npmId.value)
  {
    var primary := PrimaryNode(node, swis(NodeQuery(node, isIp)));
    if primary.Success? && primary.value.Npm() then
      [NodeQuery(node, isIp), NcmNodesWhereCore(primary.value.npmId.value)]
    else
      [NodeQuery(node, isIp)]
  }

  // ---------------------------------------------------------------------
  // SNMP communities, credentials and engines
  // ---------------------------------------------------------------------

  /** The SNMP community to use: the explicit one, else the standard one resolved through the configuration. */
  function SnmpCommunity(config: Config, community: Option<string>, stdCommunity: Option<string>): (r: Result<string, Error>)
    ensures community.Some? ==> r == Success(community.value)
    ensures community.None? && stdCommunity.Some? ==>
      && (r.Success? <==> stdCommunity.value in StandardCommunities(config))
      && (r.Success? ==> r.value == StandardCommunities(config)[stdCommunity.value])
      && (r.Failure? ==> r.error == ValueError(InvalidStandardCommunity))
    ensures community.None? && stdCommunity.None? ==> r == Failure(ValueError(NeedCommunity))
    ensures r.Failure? ==> r.error.ValueError?
  {
    if community.Some? then
      Success(community.value)
    else if stdCommunity.Some? then
      if config.defaults.None? || config.defaults.value.snmp.None? || stdCommunity.value !in config.defaults.value.snmp.value then
        Failure(ValueError(InvalidStandardCommunity))
      else
        Success(config.defaults.value.snmp.value[stdCommunity.value])
    else
      Failure(ValueError(NeedCommunity))
  }

  /** The credential name to look up: a known standard community is resolved, anything else is taken literally. */
  function CredentialName(config: Config, community: string): (name: string)
    ensures community in StandardCommunities(config) ==> name == StandardCommunities(config)[community]
    ensures community !in StandardCommunities(config) ==> name == community
  {
    match SnmpCommunity(config, None, Some(community))
    case Success(resolved) => resolved
    case Failure(_) => community
  }

  /** The query for a community's SNMPv2 credential. */
  function CredentialQuery(config: Config, community: string): Query {
    CredentialsWhere(SnmpV2CredentialType, CredentialName(config, community))
  }

  /** `data['results']` must hold exactly one row, whose `key` field is the answer; any other count raises `err`. */
  function SingleRowField(data: Response, key: string, err: Error): Result<Value, Error> {
    var rows :- Results(data);
    if |rows| == 1 then Get(rows[0], key) else Failure(err)
  }

  /** The identifier of the SNMPv2 credential named by (or standing for) `community`. */
  function SnmpCredId(config: Config, community: string, swis: Query -> Response): (r: Result<Value, Error>)
    ensures var data := swis(CredentialsWhere(SnmpV2CredentialType, CredentialName(config, community)));
      && (r.Success? <==> data.results.Some? && |data.results.value| == 1 && "ID" in data.results.value[0])
      && (r.Success? ==> r.value == data.results.value[0]["ID"])
      && (data.results.Some? && |data.results.value| == 1 && "ID" !in data.results.value[0] ==> r == Failure(KeyError("ID")))
      && (data.results.None? ==> r == Failure(KeyError("results")))
      && (data.results.Some? && |data.results.value| != 1 ==> r == Failure(ValueError(CredentialLookupFailed)))
  {
    SingleRowField(swis(CredentialQuery(config, community)), "ID", ValueError(CredentialLookupFailed))
  }

  /** The query get_engine_id sends, if any: none for the primary poller. */
  function EngineQuery(poller: string): (q: Option<Query>)
    ensures q.None? <==> poller == "primary"
    ensures q.Some? ==> q.value == EnginesWhere(poller)
  {
    if poller == "primary" then None else Some(EnginesWhere(poller))
  }

  /** The engine identifier of a poller: 1 for "primary", else the one matching engine's. */
  function EngineId(poller: string, swis: Query -> Response): (r: Result<Value, Error>)
    ensures poller == "primary" ==> r == Success(Int(1))
    ensures poller != "primary" ==>
      var data := swis(EnginesWhere(poller));
      && (r.Success? <==> data.results.Some? && |data.results.value| == 1 && "EngineID" in data.results.value[0])
      && (r.Success? ==> r.value == data.results.value[0]["EngineID"])
      && (data.results.None? ==> r == Failure(KeyError("results")))
      && (data.results.Some? && |data.results.value| == 1 && "EngineID" !in data.results.value[0] ==> r == Failure(KeyError("EngineID")))
      && (data.results.Some? && |data.results.value| != 1 ==> r == Failure(ValueError(InvalidPoller)))
  {
    match EngineQuery(poller)
    case None => Success(Int(1))
    case Some(q) => SingleRowField(swis(q), "EngineID", ValueError(InvalidPoller))
  }

  // ---------------------------------------------------------------------
  // Transfer-status polling
  // ---------------------------------------------------------------------

  /** `data['results'][0]['Status']`. */
  function StatusOf(data: Response): Result<Value, Error> {
    var row :- FirstRow(data);
    Get(row, "Status")
  }

  /** An answer the poll sleeps on and repeats after: its status reads as 1. */
  predicate InProgress(data: Response) {
    StatusOf(data).Success? && EqualsInt(StatusOf(data).value, 1)
  }

  /** The answers eventually stop the poll: one of them is not in progress. */
  predicate Settles(answers: seq<Response>) {
    exists k :: 0 <= k < |answers| && !InProgress(answers[k])
  }

  /** The number of sleeps: the index of the first answer that is not in progress. */
  function Waits(answers: seq<Response>): (k: nat)
    requires Settles(answers)
    ensures k < |answers| && !InProgress(answers[k])
    ensures forall j :: 0 <= j < k ==> InProgress(answers[j])
  {
    if !InProgress(answers[0]) then
      0
    else
      assert Settles(answers[1..]) by {
        var k :| 0 <= k < |answers| && !InProgress(answers[k]);
        assert k != 0 && !InProgress(answers[1..][k - 1]);
      }
      1 + Waits(answers[1..])
  }

  /** The name a settled status code is reported under. */
  function StatusName(code: Value): (name: string)
    ensures name == "Complete" <==> EqualsInt(code, 2)
    ensures name == "Error" <==> EqualsInt(code, 3)
    ensures name == "Unknown" <==> !EqualsInt(code, 2) && !EqualsInt(code, 3)
  {
    if EqualsInt(code, 2) then "Complete" else if EqualsInt(code, 3) then "Error" else "Unknown"
  }

  /** The job fields copied into the summary, after `status`. */
  const CopiedFields: seq<string> := ["RequestedScript", "RequestedReboot", "ErrorMessage", "DeviceOutput", "UserName"]

  /** The summary of a settled job: its status name, then the copied fields of its row in order. */
  function Summary(code: Value, row: Row): (r: Result<map<string, Value>, Error>)
    ensures r.Success? <==> FirstMissing(row, CopiedFields).None?
    ensures r.Failure? ==> r.error == KeyError(FirstMissing(row, CopiedFields).value)
    ensures r.Success? ==>
      && r.value.Keys == {"status", "RequestedScript", "RequestedReboot", "ErrorMessage", "DeviceOutput", "UserName"}
      && r.value["status"] == Str(StatusName(code))
      && forall f <- CopiedFields :: r.value[f] == row[f]
  {
    assert CopiedFields[0] == "RequestedScript" && CopiedFields[1] == "RequestedReboot" && CopiedFields[2] == "ErrorMessage"
      && CopiedFields[3] == "DeviceOutput" && CopiedFields[4] == "UserName";
    var script :- Get(row, "RequestedScript");
    var reboot :- Get(row, "RequestedReboot");
    var message :- Get(row, "ErrorMessage");
    var output :- Get(row, "DeviceOutput");
    var user :- Get(row, "UserName");
    Success(map[
      "status" := Str(StatusName(code)),
      "RequestedScript" := script,
      "RequestedReboot" := reboot,
      "ErrorMessage" := message,
      "DeviceOutput" := output,
      "UserName" := user])
  }

  /** The summary built from the answer that settled the poll, or the exception that ends it. */
  function TransferSummary(answers: seq<Response>): (r: Result<map<string, Value>, Error>)
    requires Settles(answers)
    ensures var last := answers[Waits(answers)];
      && (StatusOf(last).Failure? ==> r == Failure(StatusOf(last).error))
      && (r.Success? <==> StatusOf(last).Success? && FirstMissing(last.results.value[0], CopiedFields).None?)
      && (StatusOf(last).Success? && FirstMissing(last.results.value[0], CopiedFields).Some? ==>
            r == Failure(KeyError(FirstMissing(last.results.value[0], CopiedFields).value)))
      && (r.Success? ==>
            && r.value.Keys == {"status", "RequestedScript", "RequestedReboot", "ErrorMessage", "DeviceOutput", "UserName"}
            && r.value["status"] == Str(StatusName(StatusOf(last).value))
            && forall f <- CopiedFields :: r.value[f] == last.results.value[0][f])
  {
    var last := answers[Waits(answers)];
    var code :- StatusOf(last);
    Summary(code, last.results.value[0])
  }

  // ---------------------------------------------------------------------
  // The action
  // ---------------------------------------------------------------------

  /** The base action: its configuration, its client handle, and (ghost) the queries it has sent. */
  class OrionBaseAction {
    const config: Config
    var client: Option<Client>
    ghost var sent: seq<Query>

    constructor (config: Config)
      ensures this.config == config && client.None? && sent == []
    {
      this.config := config;
      client := None;
      sent := [];
    }

    /** Connects to a platform and returns the name of the platform used. */
    method Connect(platform: Option<string>) returns (r: Result<string, Error>)
      modifies this`client
      ensures ResolvePlatform(config, platform).Failure? ==> r == ResolvePlatform(config, platform)
      ensures ResolvePlatform(config, platform).Success? ==>
        var details := HostDetails(config, ResolvePlatform(config, platform).value);
        && (details.Failure? ==> r == Failure(details.error))
        && (details.Success? ==> r == ResolvePlatform(config, platform) && client == Some(details.value))
      ensures r.Failure? ==> client == old(client)
    {
      var name: string;
      match platform {
        case Some(p) =>
          name := p;
        case None =>
          if config.defaults.None? {
            return Failure(KeyError("defaults"));
          }
          if config.defaults.value.platform.None? {
            return Failure(KeyError("platform"));
          }
          name := config.defaults.value.platform.value;
      }
      var details := HostDetails(config, name);
      if details.Failure? {
        return Failure(details.error);
      }
      client := Some(details.value);
      r := Success(name);
    }

    /** Sends one query through the client; `answer` is what the platform returns for it. */
    method Query(q: Query, answer: Response) returns (data: Response)
      requires client.Some?
      modifies this`sent
      ensures sent == old(sent) + [q] && data == answer
    {
      sent := sent + [q];
      data := answer;
    }

    /** Resolves a node by IP address or caption, then looks up its configuration-management identifier. */
    method GetNode(node: string, isIp: string -> bool, swis: Query -> Response) returns (r: Result<OrionNode, Error>)
      requires client.Some?
      modifies this`sent
      ensures r == ResolveNode(node, isIp, swis)
      ensures sent == old(sent) + NodeQueries(node, isIp, swis)
    {
      var orionNode := EmptyNode;
      var queryForWhere := if isIp(node) then IPAddress else Caption;
      var q := NodesWhere(queryForWhere, node);
      var data := Query(q, swis(q));
      if data.results.None? {
        return Failure(Exception(NoResultsFromOrion));
      }
      var rows := data.results.value;
      if |rows| == 1 {
        var npmId := Get(rows[0], "NodeID");
        if npmId.Failure? { return Failure(npmId.error); }
        orionNode := orionNode.(npmId := Assigned(npmId.value));
        var uri := Get(rows[0], "Uri");
        if uri.Failure? { return Failure(uri.error); }
        orionNode := orionNode.(uri := Assigned(uri.value));
        var ipAddress := Get(rows[0], "IPAddress");
        if ipAddress.Failure? { return Failure(ipAddress.error); }
        orionNode := orionNode.(ipAddress := Assigned(ipAddress.value));
        var caption := Get(rows[0], "Caption");
        if caption.Failure? { return Failure(caption.error); }
        orionNode := orionNode.(caption := Assigned(caption.value));
      } else if |rows| >= 2 {
        return Failure(ValueError(MultipleNodesMessage(node)));
      }

      if orionNode.Npm() {
        q := NcmNodesWhereCore(orionNode.npmId.value);
        data := Query(q, swis(q));
        // A missing or ambiguous answer is tolerated: the platform may lack the subsystem.
        if data.results.Some? && |data.results.value| == 1 {
          var ncmId := Get(data.results.value[0], "NodeID");
          if ncmId.Failure? { return Failure(ncmId.error); }
          orionNode := orionNode.(ncmId := Assigned(ncmId.value));
        }
      }
      r := Success(orionNode);
    }

    /**
     * Polls a transfer job until its status is no longer 1, sleeping between
     * polls; `answers` are the platform's successive answers to the poll.
     */
    method GetNcmTransferResults(transferId: Value, answers: seq<Response>)
      returns (r: Result<map<string, Value>, Error>, sleeps: nat)
      requires client.Some?
      requires Settles(answers)
      modifies this`sent
      ensures sleeps == Waits(answers)
      ensures r == TransferSummary(answers)
      ensures sent == old(sent) + seq(Waits(answers) + 1, _ => TransferResultsWhere(transferId))
    {
      var ts: map<string, Value> := map[];
      var q := TransferResultsWhere(transferId);
      sleeps := 0;
      var transferData: Response;
      var row: Row;
      while true
        invariant sleeps <= Waits(answers)
        invariant sent == old(sent) + seq(sleeps, _ => q)
        invariant ts == map[]
        decreases Waits(answers) - sleeps
      {
        transferData := Query(q, answers[sleeps]);
        var first := FirstRow(transferData);
        if first.Failure? {
          return Failure(first.error), sleeps;
        }
        row := first.value;
        var status := Get(row, "Status");
        if status.Failure? {
          return Failure(status.error), sleeps;
        }
        if EqualsInt(status.value, 1) {
          sleeps := sleeps + 1;
        } else if EqualsInt(status.value, 2) {
          ts := ts["status" := Str("Complete")];
          break;
        } else if EqualsInt(status.value, 3) {
          ts := ts["status" := Str("Error")];
          break;
        } else {
          ts := ts["status" := Str("Unknown")];
          break;
        }
      }

      var script := Get(row, "RequestedScript");
      if script.Failure? { return Failure(script.error), sleeps; }
      ts := ts["RequestedScript" := script.value];
      var reboot := Get(row, "RequestedReboot");
      if reboot.Failure? { return Failure(reboot.error), sleeps; }
      ts := ts["RequestedReboot" := reboot.value];
      var message := Get(row, "ErrorMessage");
      if message.Failure? { return Failure(message.error), sleeps; }
      ts := ts["ErrorMessage" := message.value];
      var output := Get(row, "DeviceOutput");
      if output.Failure? { return Failure(output.error), sleeps; }
      ts := ts["DeviceOutput" := output.value];
      var user := Get(row, "UserName");
      if user.Failure? { return Failure(user.error), sleeps; }
      ts := ts["UserName" := user.value];
      r := Success(ts);
    }
  }

  /** Builds the action; a configuration without an `orion` entry is refused. */
  method NewOrionBaseAction(config: Config) returns (r: Result<OrionBaseAction, Error>)
    ensures r.Failure? <==> config.orion.None?
    ensures r.Failure? ==> r.error == ValueError(NoOrionDetails)
    ensures r.Success? ==> fresh(r.value) && r.value.config == config && r.value.client.None? && r.value.sent == []
  {
    var action := new OrionBaseAction(config);
    if config.orion.None? {
      return Failure(ValueError(NoOrionDetails));
    }
    r := Success(action);
  }
}
