/**
 * The boundary with the platform's query client. A query is not run: the
 * client's answer to it is an input of the model. What is modelled here is
 * the shape of that answer (a dictionary with an optional `results` list of
 * rows, each row a dictionary from field names to values), which table and
 * field a query asks about, and the Python exceptions that indexing into an
 * answer can raise.
 */
module Swis {
  import opened Wrappers

  /** A value in a result row, as the client decodes it. */
  datatype Value = Int(i: int) | Str(s: string) | Bool(b: bool) | Null

  /** One result row: field name to value. */
  type Row = map<string, Value>

  /** The client's answer to one query, reduced to its `results` entry, which may be missing. */
  datatype Response = Response(results: Option<seq<Row>>)

  /** The field of the node inventory a node identifier is matched against. */
  datatype NodeField = IPAddress | Caption

  /** A query sent to the platform: the table, the field it filters on and the parameter values. */
  datatype Query =
    | NodesWhere(field: NodeField, queryOn: string)              // Orion.Nodes WHERE <field>=@query_on
    | NcmNodesWhereCore(coreNodeId: Value)                       // Cirrus.Nodes WHERE CoreNodeID=@CoreNodeID
    | CredentialsWhere(credentialType: string, name: string)     // Orion.Credential WHERE CredentialType, Name
    | EnginesWhere(serverName: string)                           // Orion.Engines WHERE ServerName=@poller
    | TransferResultsWhere(transferId: Value)                    // NCM.TransferResults WHERE TransferID

  /** The exceptions the actions raise or let escape, by Python class. */
  datatype Error =
    | ValueError(message: string)
    | KeyError(key: string)
    | IndexError
    | Exception(message: string)

  /** Python's `v == n` for a row value and an integer literal (a bool is an int in Python). */
  predicate EqualsInt(v: Value, n: int) {
    match v
    case Int(i) => i == n
    case Bool(b) => (if b then 1 else 0) == n
    case _ => false
  }

  /** `row[key]`: KeyError when the row has no such field. */
  function Get(row: Row, key: string): Result<Value, Error> {
    if key in row then Success(row[key]) else Failure(KeyError(key))
  }

  /** The first of `keys` that `row` lacks, in order: the KeyError that reading them one by one raises. */
  function FirstMissing(row: Row, keys: seq<string>): (m: Option<string>)
    ensures m.None? <==> forall k <- keys :: k in row
    ensures m.Some? ==>
      exists i :: 0 <= i < |keys| && keys[i] == m.value && m.value !in row && forall j :: 0 <= j < i ==> keys[j] in row
    ensures forall i :: 0 <= i < |keys| && keys[i] !in row && (forall j :: 0 <= j < i ==> keys[j] in row) ==> m == Some(keys[i])
  {
    if keys == [] then None
    else if keys[0] !in row then Some(keys[0])
    else FirstMissing(row, keys[1..])
  }

  /** `data['results']`: KeyError when the answer has no `results` entry. */
  function Results(data: Response): Result<seq<Row>, Error> {
    match data.results
    case Some(rows) => Success(rows)
    case None => Failure(KeyError("results"))
  }

  /** `data['results'][0]`: KeyError without `results`, IndexError when it is empty. */
  function FirstRow(data: Response): Result<Row, Error> {
    var rows :- Results(data);
    if |rows| == 0 then Failure(IndexError) else Success(rows[0])
  }
}
