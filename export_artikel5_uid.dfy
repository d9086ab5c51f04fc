/**
 * The standalone UID script: the by-UID enrichment with its own fetch
 * built in. Unlike the artikel5 package it sends a GET request.
 */
module ExportArtikel5Uid {
  import opened Registry
  import opened Rows
  import Artikel5Utils

  /** `session.get(api_endpoint + uid, json={"activeOnly": "true"})`. */
  function UidRequest(endpoint: string, uid: string): Request {
    Request(HttpGet, endpoint + uid, ActiveOnly)
  }

  /**
   * `fetch_data_from_api(uid)`: success exactly when the GET for the UID
   * answers status 200 with a non-empty array; every exception, undecodable
   * body, other status or empty array is the one failure.
   */
  function FetchDataFromApi(endpoint: string, registry: Request -> Reply, uid: string): (o: Outcome)
    ensures var reply := registry(Request(HttpGet, endpoint + uid, map["activeOnly" := "true"]));
      && (o.Success? <==> reply.Response? && reply.status == 200 && reply.body.JsonArray? && |reply.body.items| > 0)
      && (o.Success? ==> o.items == reply.body.items)
  {
    Artikel5Utils.FetchDataFromApi(registry(UidRequest(endpoint, uid)))
  }

  /** `format_uid` is the shared one: input of at most three characters gives "CHE-..". */
  lemma FormatUidShortInput(uid: string)
    requires |uid| <= 3
    ensures Artikel5Utils.FormatUid(uid) == "CHE-.."
  {
    assert Artikel5Utils.Slice(uid, 3, 6) == [];
    assert Artikel5Utils.Slice(uid, 6, 9) == [];
    assert Artikel5Utils.Drop(uid, 9) == [];
  }

  /**
   * `process_row(row)`: looks up `row.get("uid", "")`; on success one row
   * per returned company in order, with the display-form UID and address
   * columns; on failure one row with the seven sentinels.
   */
  function ProcessRow(endpoint: string, registry: Request -> Reply, row: Row): (out: seq<Row>)
    ensures var o := FetchDataFromApi(endpoint, registry, Get(row, "uid"));
      && (o.Success? ==>
            && |out| == |o.items|
            && forall i :: 0 <= i < |out| ==>
                 Extends(out[i], row, Artikel5Utils.UidKeys) && Artikel5Utils.CarriesAddress(out[i], o.items[i]))
      && (o.Failure? ==>
            |out| == 1 && Extends(out[0], row, Artikel5Utils.UidKeys)
            && Rows.AllSentinel(out[0], Artikel5Utils.UidKeys))
  {
    Artikel5Utils.ProcessRowUid(row, FetchDataFromApi(endpoint, registry, Get(row, "uid")))
  }

  /**
   * `compare_and_update`: the per-row results concatenated in input order,
   * at least one output row per input row, each an input row with the seven
   * registry columns appended.
   */
  function CompareAndUpdate(endpoint: string, registry: Request -> Reply, rows: seq<Row>): (out: seq<Row>)
    ensures |out| >= |rows|
    ensures forall r :: r in out ==> exists i :: 0 <= i < |rows| && Extends(r, rows[i], Artikel5Utils.UidKeys)
  {
    var process := row => ProcessRow(endpoint, registry, row);
    assert forall row :: |process(row)| >= 1;
    ConcatMapAtLeast(rows, process);
    ConcatMapMembers(rows, process);
    ConcatMap(rows, process)
  }

  /** The rows of input `i` form one block, after those of all earlier inputs. */
  lemma CompareAndUpdateBlocks(endpoint: string, registry: Request -> Reply, rows: seq<Row>, i: nat)
    requires i < |rows|
    ensures CompareAndUpdate(endpoint, registry, rows)
         == CompareAndUpdate(endpoint, registry, rows[..i])
          + ProcessRow(endpoint, registry, rows[i])
          + CompareAndUpdate(endpoint, registry, rows[i + 1..])
  {
    ConcatMapBlock(rows, i, row => ProcessRow(endpoint, registry, row));
  }
}
