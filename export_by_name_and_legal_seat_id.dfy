/**
 * The artikel5 batch that looks every row up by company name and
 * legal-seat id, with the fan-out policy.
 */
module ExportByNameAndLegalSeatId {
  import opened Registry
  import opened Rows
  import opened Artikel5Utils

  /** `fetch_data(name, legalSeatId)`: exactly the name, the legal-seat id and the active-only flag. */
  function FetchParams(name: string, legalSeatId: string): (params: map<string, string>)
    ensures params.Keys == {"name", "legalSeatId", "activeOnly"}
    ensures params["name"] == name && params["legalSeatId"] == legalSeatId && params["activeOnly"] == "true"
  {
    map["name" := name, "legalSeatId" := legalSeatId, "activeOnly" := "true"]
  }

  /** The task of one row: both lookup keys default to "" when the column is missing. */
  function EnrichRow(endpoint: string, registry: Request -> Reply, row: Row): (out: seq<Row>)
    ensures |out| >= 1
    ensures forall r :: r in out ==> Extends(r, row, BasicKeys)
  {
    var request := PostRequest(endpoint, FetchParams(Get(row, "name"), Get(row, "legalSeatId")));
    ProcessRow(row, FetchDataFromApi(registry(request)))
  }

  /**
   * A row lacking the `name` or `legalSeatId` column is looked up exactly
   * as a row holding "" there: its appended columns are the same.
   */
  lemma EnrichRowMissingKeys(endpoint: string, registry: Request -> Reply, row: Row)
    requires "name" !in row || "legalSeatId" !in row
    ensures var filled := row[if "name" in row then "legalSeatId" else "name" := ""];
      var out, alt := EnrichRow(endpoint, registry, row), EnrichRow(endpoint, registry, filled);
      && |out| == |alt|
      && forall i, k :: 0 <= i < |out| && k in BasicKeys ==> out[i][k] == alt[i][k]
  {
    var filled := row[if "name" in row then "legalSeatId" else "name" := ""];
    assert Get(filled, "name") == Get(row, "name");
    assert Get(filled, "legalSeatId") == Get(row, "legalSeatId");
    var request := PostRequest(endpoint, FetchParams(Get(row, "name"), Get(row, "legalSeatId")));
    var o := FetchDataFromApi(registry(request));
    assert EnrichRow(endpoint, registry, row) == ProcessRow(row, o);
    assert EnrichRow(endpoint, registry, filled) == ProcessRow(filled, o);
  }

  /**
   * `compare_and_update`: the per-row results concatenated in input order;
   * at least one output row per input row, each an input row with the four
   * registry columns appended.
   */
  function CompareAndUpdate(endpoint: string, registry: Request -> Reply, rows: seq<Row>): (out: seq<Row>)
    ensures |out| >= |rows|
    ensures forall r :: r in out ==> exists i :: 0 <= i < |rows| && Extends(r, rows[i], BasicKeys)
  {
    var enrich := row => EnrichRow(endpoint, registry, row);
    ConcatMapAtLeast(rows, enrich);
    ConcatMapMembers(rows, enrich);
    ConcatMap(rows, enrich)
  }

  /** The rows of input `i` form one block, after those of all earlier inputs. */
  lemma CompareAndUpdateBlocks(endpoint: string, registry: Request -> Reply, rows: seq<Row>, i: nat)
    requires i < |rows|
    ensures CompareAndUpdate(endpoint, registry, rows)
         == CompareAndUpdate(endpoint, registry, rows[..i])
          + EnrichRow(endpoint, registry, rows[i])
          + CompareAndUpdate(endpoint, registry, rows[i + 1..])
  {
    ConcatMapBlock(rows, i, row => EnrichRow(endpoint, registry, row));
  }

  /** A lookup that returns `n` companies puts exactly `n` rows in the output, one per company, in order. */
  lemma CompareAndUpdateFanOut(endpoint: string, registry: Request -> Reply, rows: seq<Row>, i: nat)
    requires i < |rows|
    requires var request := PostRequest(endpoint, FetchParams(Get(rows[i], "name"), Get(rows[i], "legalSeatId")));
      FetchDataFromApi(registry(request)).Success?
    ensures var items := FetchDataFromApi(registry(PostRequest(endpoint, FetchParams(Get(rows[i], "name"), Get(rows[i], "legalSeatId"))))).items;
      var before := |CompareAndUpdate(endpoint, registry, rows[..i])|;
      var out := CompareAndUpdate(endpoint, registry, rows);
      && before + |items| <= |out|
      && forall j :: 0 <= j < |items| ==>
           Extends(out[before + j], rows[i], BasicKeys)
           && CarriesNames(out[before + j], items[j], OrEmpty(items[j].uid))
  {
    CompareAndUpdateBlocks(endpoint, registry, rows, i);
  }
}
