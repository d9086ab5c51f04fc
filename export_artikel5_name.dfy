/**
 * The standalone name script: the fan-out enrichment by company name with
 * its own fetch built in.
 */
module ExportArtikel5Name {
  import opened Registry
  import opened Rows
  import Artikel5Utils

  /** The JSON parameters of the lookup: exactly the name and the active-only flag. */
  function FetchParams(name: string): (params: map<string, string>)
    ensures params.Keys == {"name", "activeOnly"}
    ensures params["name"] == name && params["activeOnly"] == "true"
  {
    map["name" := name, "activeOnly" := "true"]
  }

  /**
   * `fetch_data_from_api(name)`: success exactly when the POST of the name
   * answers status 200 with a non-empty array; everything else, exceptions
   * included, is the one failure.
   */
  function FetchDataFromApi(endpoint: string, registry: Request -> Reply, name: string): (o: Outcome)
    ensures var reply := registry(Request(HttpPost, endpoint, FetchParams(name)));
      && (o.Success? <==> reply.Response? && reply.status == 200 && reply.body.JsonArray? && |reply.body.items| > 0)
      && (o.Success? ==> o.items == reply.body.items)
  {
    Artikel5Utils.FetchDataFromApi(registry(Artikel5Utils.PostRequest(endpoint, FetchParams(name))))
  }

  /**
   * `process_row(row)`: looks up `row.get("name", "")`; on success one row
   * per returned company in order, carrying the raw (unformatted) UID; on
   * failure one row with the four sentinels.
   */
  function ProcessRow(endpoint: string, registry: Request -> Reply, row: Row): (out: seq<Row>)
    ensures var o := FetchDataFromApi(endpoint, registry, Get(row, "name"));
      && (o.Success? ==>
            && |out| == |o.items|
            && forall i :: 0 <= i < |out| ==>
                 Extends(out[i], row, Artikel5Utils.BasicKeys)
                 && Artikel5Utils.CarriesNames(out[i], o.items[i], OrEmpty(o.items[i].uid)))
      && (o.Failure? ==>
            |out| == 1 && Extends(out[0], row, Artikel5Utils.BasicKeys)
            && AllSentinel(out[0], Artikel5Utils.BasicKeys))
  {
    Artikel5Utils.ProcessRow(row, FetchDataFromApi(endpoint, registry, Get(row, "name")))
  }

  /**
   * `compare_and_update`: the per-row results concatenated in input order;
   * at least one output row per input row, each an input row with the four
   * registry columns appended.
   */
  function CompareAndUpdate(endpoint: string, registry: Request -> Reply, rows: seq<Row>): (out: seq<Row>)
    ensures |out| >= |rows|
    ensures forall r :: r in out ==> exists i :: 0 <= i < |rows| && Extends(r, rows[i], Artikel5Utils.BasicKeys)
  {
    var process := row => ProcessRow(endpoint, registry, row);
    assert forall row :: |process(row)| >= 1;
    ConcatMapAtLeast(rows, process);
    ConcatMapMembers(rows, process);
    ConcatMap(rows, process)
  }

  /** The output length is the running sum of the per-row result lengths. */
  lemma CompareAndUpdateLength(endpoint: string, registry: Request -> Reply, rows: seq<Row>, row: Row)
    ensures |CompareAndUpdate(endpoint, registry, rows + [row])|
         == |CompareAndUpdate(endpoint, registry, rows)| + |ProcessRow(endpoint, registry, row)|
  {
    var process := row => ProcessRow(endpoint, registry, row);
    ConcatMapAppend(rows, [row], process);
    assert ConcatMap([row], process) == process(row) + ConcatMap([row][1..], process);
  }

  /** The rows of input `i` form one block, after those of all earlier inputs. */
  lemma CompareAndUpdateBlocks(endpoint: string, registry: Request -> Reply, rows: seq<Row>, i: nat)
    requires i < |rows|
    ensures CompareAndUpdate(endpoint, registry, rows)
         == CompareAndUpdate(endpoint, registry, rows[..i])
          + ProcessRow(endpoint, registry, rows[i])
          + CompareAndUpdate(endpoint, registry, rows[i + 1..])
  {
    ConcatMapBlock(rows, i, row => ProcessRow(endpoint, registry, row));
  }

  /**
   * With a registry that never answers successfully there is no fan-out:
   * output row `i` is input row `i` with the four sentinels.
   */
  lemma CompareAndUpdateAllFailing(endpoint: string, registry: Request -> Reply, rows: seq<Row>)
    requires forall request :: Artikel5Utils.FetchDataFromApi(registry(request)).Failure?
    ensures var out := CompareAndUpdate(endpoint, registry, rows);
      && |out| == |rows|
      && forall i :: 0 <= i < |rows| ==>
           Extends(out[i], rows[i], Artikel5Utils.BasicKeys) && AllSentinel(out[i], Artikel5Utils.BasicKeys)
  {
    var process := row => ProcessRow(endpoint, registry, row);
    forall row | row in rows
      ensures |process(row)| == 1
    {
      var request := Artikel5Utils.PostRequest(endpoint, FetchParams(Get(row, "name")));
      assert Artikel5Utils.FetchDataFromApi(registry(request)).Failure?;
    }
    ConcatMapSingletons(rows, process);
    forall i | 0 <= i < |rows|
      ensures Extends(CompareAndUpdate(endpoint, registry, rows)[i], rows[i], Artikel5Utils.BasicKeys)
      ensures AllSentinel(CompareAndUpdate(endpoint, registry, rows)[i], Artikel5Utils.BasicKeys)
    {
      var request := Artikel5Utils.PostRequest(endpoint, FetchParams(Get(rows[i], "name")));
      assert Artikel5Utils.FetchDataFromApi(registry(request)).Failure?;
    }
  }
}
