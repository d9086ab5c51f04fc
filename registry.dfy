/**
 * The company registry (Zefix) as the enrichment scripts see it: the JSON
 * items it returns, the reply to one HTTP request, and the outcome the
 * scripts derive from that reply.
 */
module Registry {

  datatype Option<+T> = None | Some(value: T) {
    function GetOr(default: T): T {
      match this
      case Some(v) => v
      case None => default
    }
  }

  /** `obj.get(key, "")` on a JSON object whose field may be absent. */
  function OrEmpty(field: Option<string>): string {
    field.GetOr("")
  }

  /** The nested `address` object of a registry item. */
  datatype Address = Address(
    street: Option<string>,
    houseNumber: Option<string>,
    swissZipCode: Option<string>,
    city: Option<string>)

  /** `item.get("address", {})`: an absent address reads as the empty object. */
  const NoAddress := Address(None, None, None, None)

  /**
   * One company object of the registry's JSON array. A field the scripts
   * read is `None` when the key is absent or holds JSON null; `otherKeys`
   * records whether the object has any key not read as a present value (an
   * unread key, or a read key holding null), which only matters for the
   * object's truthiness.
   */
  datatype Item = Item(
    name: Option<string>,
    legalSeat: Option<string>,
    legalSeatId: Option<string>,
    uid: Option<string>,
    chid: Option<string>,
    address: Option<Address>,
    otherKeys: bool)
  {
    /** Python truthiness of the object: a dict is true unless it is empty. */
    predicate IsTruthy() {
      name.Some? || legalSeat.Some? || legalSeatId.Some? || uid.Some?
      || chid.Some? || address.Some? || otherKeys
    }

    function AddressObject(): Address {
      address.GetOr(NoAddress)
    }
  }

  /** What `response.json()` gives: it raises on a body that is not JSON. */
  datatype Body = Unparsable | JsonArray(items: seq<Item>)

  /** The result of one HTTP exchange: a transport exception, or a response. */
  datatype Reply = Raised | Response(status: int, body: Body)

  /** The `(data, success)` pair of the fetch helpers, as a tagged value. */
  datatype Outcome = Failure | Success(items: seq<Item>)

  datatype Verb = HttpGet | HttpPost

  /** One request to the registry: verb, full URL and JSON parameters. */
  datatype Request = Request(verb: Verb, url: string, params: map<string, string>)

  /** The parameter every lookup sends: only active companies. */
  const ActiveOnly: map<string, string> := map["activeOnly" := "true"]
}
