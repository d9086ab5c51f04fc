/**
 * The artikel5 batch that looks every row up by company name alone and
 * keeps the first company whose legal seat is the row's city.
 */
module ExportByNameAndCity {
  import opened Registry
  import opened Rows
  import opened Artikel5Utils

  /** `fetch_data(name)`: exactly the name and the active-only flag; the city is not sent. */
  function FetchParams(name: string): (params: map<string, string>)
    ensures params.Keys == {"name", "activeOnly"} && "city" !in params
    ensures params["name"] == name && params["activeOnly"] == "true"
  {
    map["name" := name, "activeOnly" := "true"]
  }

  /** The task of one row: look up `row.get("name", "")` and apply the city check. */
  function EnrichRow(endpoint: string, registry: Request -> Reply, row: Row): (out: seq<Row>)
    ensures |out| == 1 && Extends(out[0], row, CityKeys)
  {
    ProcessRowWithCityCheck(row, FetchDataFromApi(registry(PostRequest(endpoint, FetchParams(Get(row, "name"))))))
  }

  /**
   * Two rows with the same name and the same city up to case receive the
   * same registry columns: the name decides the lookup, the city only the
   * case-insensitive choice among the returned companies.
   */
  lemma EnrichRowKey(endpoint: string, registry: Request -> Reply, row1: Row, row2: Row)
    requires Get(row1, "name") == Get(row2, "name")
    requires Lower(Get(row1, "city")) == Lower(Get(row2, "city"))
    ensures forall k :: k in CityKeys ==>
      EnrichRow(endpoint, registry, row1)[0][k] == EnrichRow(endpoint, registry, row2)[0][k]
  {
    var o := FetchDataFromApi(registry(PostRequest(endpoint, FetchParams(Get(row1, "name")))));
    var city1, city2 := Get(row1, "city"), Get(row2, "city");
    assert forall item :: SeatMatches(item, city1) == SeatMatches(item, city2);
    assert EnrichRow(endpoint, registry, row1) == ProcessRowWithCityCheck(row1, o);
    assert EnrichRow(endpoint, registry, row2) == ProcessRowWithCityCheck(row2, o);
    if o.Success? {
      assert FirstMatch(o.items, city1) == FirstMatch(o.items, city2) by {
        FirstMatchCaseInsensitive(o.items, city1, city2);
      }
    }
  }

  lemma {:induction false} FirstMatchCaseInsensitive(items: seq<Item>, city1: string, city2: string)
    requires Lower(city1) == Lower(city2)
    ensures FirstMatch(items, city1) == FirstMatch(items, city2)
  {
    if items != [] {
      FirstMatchCaseInsensitive(items[1..], city1, city2);
    }
  }

  /**
   * `compare_and_update`: exactly one output row per input row, and output
   * row `i` is input row `i` with the five registry columns appended.
   */
  function CompareAndUpdate(endpoint: string, registry: Request -> Reply, rows: seq<Row>): (out: seq<Row>)
    ensures |out| == |rows|
    ensures forall i :: 0 <= i < |rows| ==>
      out[i] == EnrichRow(endpoint, registry, rows[i])[0] && Extends(out[i], rows[i], CityKeys)
  {
    var enrich := row => EnrichRow(endpoint, registry, row);
    ConcatMapSingletons(rows, enrich);
    ConcatMap(rows, enrich)
  }

  /** With a registry that never answers successfully, every output row is its input row with five sentinels. */
  lemma CompareAndUpdateAllFailing(endpoint: string, registry: Request -> Reply, rows: seq<Row>)
    requires forall request :: FetchDataFromApi(registry(request)).Failure?
    ensures var out := CompareAndUpdate(endpoint, registry, rows);
      && |out| == |rows|
      && forall i :: 0 <= i < |rows| ==> Extends(out[i], rows[i], CityKeys) && AllSentinel(out[i], CityKeys)
  {
  }

  lemma LowerExamples()
    ensures Lower("Zurich") != Lower("bern")
    ensures Lower("Bern") == Lower("bern")
  {
    assert |Lower("Zurich")| == 6 && |Lower("bern")| == 4;
    assert forall i :: 0 <= i < 4 ==> LowerChar("Bern"[i]) == LowerChar("bern"[i]);
  }

  /** The example of a name shared by a Zurich and a Bern company, for a row whose city is "bern". */
  lemma CityCheckExample(endpoint: string, registry: Request -> Reply)
    requires registry(PostRequest(endpoint, FetchParams("Muster AG"))) == Response(200, JsonArray([
      Item(Some("Muster AG"), Some("Zurich"), Some("261"), Some("CHE111111111"), None, None, false),
      Item(Some("Muster AG"), Some("Bern"), Some("351"), Some("CHE222222222"), None, None, false)]))
    ensures var out := EnrichRow(endpoint, registry, map["name" := "Muster AG", "city" := "bern"]);
      out[0][LegalSeatKey] == "Bern" && out[0][UidKey] == "CHE222222222" && out[0]["city"] == "bern"
  {
    var row := map["name" := "Muster AG", "city" := "bern"];
    var zurich := Item(Some("Muster AG"), Some("Zurich"), Some("261"), Some("CHE111111111"), None, None, false);
    var bern := Item(Some("Muster AG"), Some("Bern"), Some("351"), Some("CHE222222222"), None, None, false);
    assert Get(row, "name") == "Muster AG" && Get(row, "city") == "bern";
    var o := FetchDataFromApi(registry(PostRequest(endpoint, FetchParams("Muster AG"))));
    assert o == Success([zurich, bern]);
    var out := ProcessRowWithCityCheck(row, o);
    assert EnrichRow(endpoint, registry, row) == out;
    LowerExamples();
    assert IsFirstMatch(o.items, "bern", 1);
    assert CarriesChid(out[0], bern);
    assert "city" in row && "city" !in CityKeys;
  }
}
