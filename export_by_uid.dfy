/**
 * The artikel5 batch that enriches every row by the company UID in its
 * `uid` column, with the by-UID policy (display-form UID and address).
 */
module ExportByUid {
  import opened Registry
  import opened Rows
  import opened Artikel5Utils

  /**
   * `fetch_data(uid)`: the UID is appended to the endpoint URL and the only
   * parameter asks for active companies. The call goes through the shared
   * helper, so it is a POST.
   */
  function FetchRequest(endpoint: string, uid: string): (req: Request)
    ensures req.verb == HttpPost && req.params.Keys == {"activeOnly"} && req.params["activeOnly"] == "true"
    ensures |req.url| == |endpoint| + |uid| && req.url[..|endpoint|] == endpoint && req.url[|endpoint|..] == uid
  {
    PostRequest(endpoint + uid, ActiveOnly)
  }

  /** The task of one row: look up `row.get("uid", "")` and apply the by-UID policy. */
  function EnrichRow(endpoint: string, registry: Request -> Reply, row: Row): (out: seq<Row>)
    ensures |out| >= 1
    ensures forall r :: r in out ==> Extends(r, row, UidKeys)
  {
    ProcessRowUid(row, FetchDataFromApi(registry(FetchRequest(endpoint, Get(row, "uid")))))
  }

  /** Only the `uid` column decides what a row's appended columns are. */
  lemma EnrichRowKey(endpoint: string, registry: Request -> Reply, row1: Row, row2: Row)
    requires Get(row1, "uid") == Get(row2, "uid")
    ensures var out1, out2 := EnrichRow(endpoint, registry, row1), EnrichRow(endpoint, registry, row2);
      && |out1| == |out2|
      && forall i, k :: 0 <= i < |out1| && k in UidKeys ==> out1[i][k] == out2[i][k]
  {
    var o := FetchDataFromApi(registry(FetchRequest(endpoint, Get(row1, "uid"))));
    assert EnrichRow(endpoint, registry, row1) == ProcessRowUid(row1, o);
    assert EnrichRow(endpoint, registry, row2) == ProcessRowUid(row2, o);
  }

  /**
   * `compare_and_update`: the per-row results concatenated in input order.
   * Every input row contributes at least one output row, and every output
   * row is some input row with the seven registry columns appended.
   */
  function CompareAndUpdate(endpoint: string, registry: Request -> Reply, rows: seq<Row>): (out: seq<Row>)
    ensures |out| >= |rows|
    ensures forall r :: r in out ==> exists i :: 0 <= i < |rows| && Extends(r, rows[i], UidKeys)
  {
    var enrich := row => EnrichRow(endpoint, registry, row);
    ConcatMapAtLeast(rows, enrich);
    ConcatMapMembers(rows, enrich);
    ConcatMap(rows, enrich)
  }

  /** The rows of input `i` form one block, after those of all earlier inputs. */
  lemma CompareAndUpdateBlocks(endpoint: string, registry: Request -> Reply, rows: seq<Row>, i: nat)
    requires i < |rows|
    ensures CompareAndUpdate(endpoint, registry, rows)
         == CompareAndUpdate(endpoint, registry, rows[..i])
          + EnrichRow(endpoint, registry, rows[i])
          + CompareAndUpdate(endpoint, registry, rows[i + 1..])
  {
    ConcatMapBlock(rows, i, row => EnrichRow(endpoint, registry, row));
  }
}
