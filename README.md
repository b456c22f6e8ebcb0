# Orion base action: a Dafny model

This project models the decision logic of `OrionBaseAction`, the helper class that every StackStorm action of the Orion pack inherits from. The action:

- connects to a configured Orion platform;
- resolves a node by IP address or caption, and adds its configuration-management (NCM) identifier when the platform has one;
- resolves SNMP communities and the identifiers of stored SNMPv2 credentials;
- maps a poller name to an engine identifier;
- waits for an NCM configuration-transfer job to settle, then summarises it.

The query client is not modelled. It is an oracle whose answers are inputs:

- A one-shot lookup takes `swis: Query -> Response`, the platform's answer to each query it could send.
- The transfer poll takes the successive answers to its one repeated query, because the job's status changes between polls.

A `Query` records the table, the filtered field and the parameters of a SWQL query. It does not hold the query text. A `Response` is the client's dictionary, reduced to its optional `results` list of rows. Python's exceptions are the `Error` datatype: `ValueError`, `KeyError`, `IndexError` and the bare `Exception`.

Modules:

- `Wrappers` (wrappers.dfy): `Option` and `Result`.
- `Swis` (swis.dfy): values, rows, answers, queries, errors, and indexing into an answer.
- `Actions` (actions.dfy): the configuration, the lookups as functions, and the class `OrionBaseAction`. The class holds the client handle, and a ghost log `sent` of the queries sent through it. Its methods are `Connect`, `GetNode` and `GetNcmTransferResults`.
- `ActionsProperties` (properties.dfy): lemmas on which answers the node and engine lookups consult, and on the transfer poll.

In three places the code's error handling does not do what it appears to intend; the model follows the code:

- With no platform argument and no configured default, `connect` lets a `KeyError` escape. It does not raise a configuration error, because only `IndexError` is caught (actions/lib/actions.py:39-43).
- In `get_node`, a single row that lacks one of the selected fields raises `KeyError`. The `except IndexError` around the field copies never fires. This holds for the secondary lookup too, which is otherwise tolerant.
- `get_snmp_cred_id` and `get_engine_id` raise `KeyError('results')` when the answer has no `results` entry. Only a wrong row count raises `ValueError`.

## Model

| member | source | states |
|---|---|---|
| `Actions.NewOrionBaseAction` | actions/lib/actions.py:26-32 | construction fails with ValueError exactly when the configuration has no `orion` entry; otherwise the new action holds that configuration and no client |
| `Actions.ResolvePlatform` | actions/lib/actions.py:38-43 | an explicit platform is used as given; with none, the result is the configured default; a missing default is a KeyError, never a ValueError |
| `Actions.HostDetails` | actions/lib/actions.py:47-53 | a client is built exactly when host, user and password are all configured for the platform, from those three values; otherwise ValueError("Orion host details not in the config.yaml") |
| `Actions.OrionBaseAction.Connect` | actions/lib/actions.py:34-55 | returns the platform actually used and stores the client built from its credentials; on any failure the client handle is unchanged |
| `Actions.MatchField` | actions/lib/actions.py:64-67 | the lookup field is `IPAddress` exactly when `is_ip` holds of the identifier, `Caption` otherwise |
| `Actions.NodeQueries` | actions/lib/actions.py:64-100 | the first query filters the chosen field on the identifier; a second query, keyed by the primary NodeID, is sent exactly when the primary lookup found a node |
| `Actions.PrimaryNode` | actions/lib/actions.py:75-93 | no `results` raises Exception; 0 rows give the all-unset record; 1 row copies NodeID, Uri, IPAddress and Caption, a null becoming an unset field, and a row missing one raises KeyError naming the first missing field in copy order (never the IndexError the source catches); 2 or more rows raise ValueError naming the identifier |
| `Actions.NcmNode` | actions/lib/actions.py:95-111 | only a single-row answer sets `ncmId`, to its NodeID (KeyError("NodeID") when the row lacks it); a missing `results` or 0 or 2+ rows leave the record as it was; the other fields never change |
| `Actions.ResolveNode` | actions/lib/actions.py:57-113 | errors of the primary lookup propagate; a primary record without `npmId` (0 rows included) is returned as is; with `npmId`, a missing, empty or ambiguous secondary answer returns the primary record unchanged, a single row sets `ncmId` from its NodeID, and a single row without NodeID raises KeyError; `ncmId` is set only if `npmId` is |
| `Actions.OrionBaseAction.GetNode` | actions/lib/actions.py:57-113 | building the record field by field yields `ResolveNode`, and exactly the queries of `NodeQueries` are sent |
| `Actions.OrionBaseAction.Query` | actions/lib/actions.py:115-119 | a query is forwarded to the client, logged, and answered by the platform |
| `Actions.SnmpCommunity` | actions/lib/actions.py:151-163 | an explicit community wins even beside a standard one; otherwise the standard name is mapped through `defaults.snmp`, an unknown one raising ValueError("Invalid standard community"); neither given raises ValueError |
| `Actions.CredentialName` | actions/lib/actions.py:171-176 | the credential name is the configured value when the input is a known standard community, and the input itself otherwise |
| `Actions.SnmpCredId` | actions/lib/actions.py:178-190 | the query is for the SNMPv2 credential type and the credential name; the result is the row's ID exactly when one row with an ID answers; a missing `results` is KeyError('results'), a single row without ID is KeyError('ID'), any other row count ValueError |
| `Actions.EngineQuery` | actions/lib/actions.py:202-209 | no query is sent for "primary"; any other poller is looked up by server name |
| `Actions.EngineId` | actions/lib/actions.py:192-215 | "primary" gives 1 whatever the platform answers; any other name gives the EngineID of the single matching row, and ValueError("Invalid poller name") when the row count is not 1; a missing `results` is KeyError('results') and a single row without EngineID KeyError('EngineID') |
| `Actions.Waits` | actions/lib/actions.py:225-237 | the number of sleeps is the index of the first answer whose status is not 1, and every earlier answer has status 1 |
| `Actions.StatusName` | actions/lib/actions.py:236-246 | the status is "Complete" exactly for code 2, "Error" exactly for 3, "Unknown" exactly for anything else |
| `Actions.Summary` | actions/lib/actions.py:239-252 | the summary of a settled row has exactly the six keys, the status name of its code and the five copied fields; a row missing one raises KeyError naming the first missing field in copy order |
| `Actions.TransferSummary` | actions/lib/actions.py:224-254 | an error reading the settling answer's status propagates; otherwise the summary has exactly the keys status, RequestedScript, RequestedReboot, ErrorMessage, DeviceOutput and UserName, the last five copied from the settling row; a row missing one raises KeyError naming the first missing field in copy order |
| `Actions.OrionBaseAction.GetNcmTransferResults` | actions/lib/actions.py:217-254 | the loop sleeps once per leading in-progress answer, sends one query per poll, stops at the first other answer, and returns `TransferSummary` |
| `ActionsProperties.EngineIdConsultsOnlyEngineQuery` | actions/lib/actions.py:202-212 | two platforms that agree on the query EngineQuery names give the same engine result, so for "primary" no answer is consulted at all |
| `ActionsProperties.ResolveNodeConsultsOnlyNodeQueries` | actions/lib/actions.py:69-111 | two platforms that agree on the queries NodeQueries lists give the same record and send the same queries |
| `ActionsProperties.NullNodeIdSendsNoSecondary` | actions/lib/actions.py:82-100 | a found row whose NodeID is null leaves `npm_id` unset, so no secondary query is sent |
| `ActionsProperties.WaitsIsFirstSettled` | actions/lib/actions.py:225-246 | any index whose answer is not in progress, with only in-progress answers before it, is where the poll stops |
| `ActionsProperties.LaterAnswersIgnored` | actions/lib/actions.py:225-246 | answers after the settling one never affect the number of sleeps or the summary |
| `ActionsProperties.CompleteAfterTwoSleeps` | actions/lib/actions.py:236-240 | statuses 1, 1, 2 give two sleeps and status "Complete" |
| `ActionsProperties.ErrorAtOnce` | actions/lib/actions.py:241-243 | status 3 first gives no sleep and status "Error", whatever follows |
| `ActionsProperties.UnknownAtOnce` | actions/lib/actions.py:244-246 | any first status other than 1, 2 and 3 gives no sleep and status "Unknown", whatever follows |

## Left out

- `query`, `invoke`, `create`, `read`, `update` and `delete` forward to the vendor client (actions/lib/actions.py:115-149). Only `query` is modelled, as `OrionBaseAction.Query`, which logs the query and returns the oracle's answer. The others are left out.
- The vendor client `SwisClient`, its network transport and its failures are not modelled. A client is identified by its credentials. Transport errors, which propagate unchanged in the source, are not represented.
- The StackStorm `Action` base class, the logger and `send_user_error` are left out. They are framework and logging calls with no effect on results.
- `time.sleep` is counted, not timed. `GetNcmTransferResults` returns the number of sleeps and has no `sleep_delay` parameter, so the ValueError that `time.sleep` raises for a negative delay at the first status-1 answer is not modelled.
- OrionBaseAction.GetNcmTransferResults requires answers that eventually settle (`Settles`). In the source the loop has no bound and never returns while the status stays 1. The model does not describe that non-termination.
- `is_ip` (lib/utils) is not part of this model. It is a parameter `isIp: string -> bool` with no fixed meaning, and no IP parsing is modelled.
- `OrionNode` (lib/node) is not part of this model. It is taken to be a plain record of five optional fields. Its `npm` attribute is assumed to hold exactly when `npm_id` is set (`OrionNode.Npm`). A null row value stored into a field is Python's `None`, so it leaves the field unset (`Assigned`).
- OrionBaseAction.GetNode, OrionBaseAction.Query and OrionBaseAction.GetNcmTransferResults require a connected client. In the source, calling them before `connect` fails with an AttributeError on `None`; that error is not modelled. `SnmpCredId` and `EngineId` take the oracle directly and do not model that error either.
- Actions.PrimaryNode: the raised Exception carries "No results from Orion" without the printed answer that the source appends to it.
- SnmpCredId: the community is a string. The source's call with `None`, which queries for the name `None`, is not modelled.
- The configuration is typed. Platform names, credentials and community strings are strings. A YAML value of another type, for example a `null` default platform, is not modelled.
- EqualsInt compares a status with an integer the way Python does for ints and bools. Floating-point status values are not modelled.
- actions/get_node_id.py is a pass-through wrapper that only appends a WHERE clause, so it is left out. As written it cannot run: it calls `connect()` without its platform argument, and its bare `except` assigns into an unbound name.
