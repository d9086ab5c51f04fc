/**
 * The shared enrichment helpers of the artikel5 package: the success test
 * on a registry reply, the Swiss UID display form, and the three row
 * policies that turn one lookup outcome into output rows.
 */
module Artikel5Utils {
  import opened Registry
  import opened Rows

  // ---------------------------------------------------------------------
  // The success test of a registry reply
  // ---------------------------------------------------------------------

  /**
   * A reply counts as a success only when the body decodes, the status is
   * 200 and the decoded array is non-empty; a transport exception, a body
   * that does not decode, any other status and an empty array all give the
   * same failure.
   */
  function FetchDataFromApi(reply: Reply): (o: Outcome)
    ensures o.Success? <==>
      reply.Response? && reply.status == 200 && reply.body.JsonArray? && reply.body.items != []
    ensures o.Success? ==> o.items == reply.body.items && |o.items| >= 1
  {
    match reply
    case Raised => Failure
    case Response(status, body) =>
      match body
      case Unparsable => Failure
      case JsonArray(items) => if status == 200 && items != [] then Success(items) else Failure
  }

  /** The request `session.post(api_endpoint, json=params)` sends. */
  function PostRequest(endpoint: string, params: map<string, string>): Request {
    Request(HttpPost, endpoint, params)
  }

  // ---------------------------------------------------------------------
  // Swiss UID display form
  // ---------------------------------------------------------------------

  /** A Python slice bound, clamped to the length of `s`. */
  function Clamp(s: string, i: nat): nat {
    if i <= |s| then i else |s|
  }

  /** `s[lo:hi]` for non-negative bounds: clamps, never fails. */
  function Slice(s: string, lo: nat, hi: nat): (r: string)
    ensures |r| == if Clamp(s, lo) <= Clamp(s, hi) then Clamp(s, hi) - Clamp(s, lo) else 0
  {
    if Clamp(s, lo) <= Clamp(s, hi) then s[Clamp(s, lo)..Clamp(s, hi)] else []
  }

  /** `s[lo:]`. */
  function Drop(s: string, lo: nat): string {
    s[Clamp(s, lo)..]
  }

  /**
   * `"CHE-{}.{}.{}".format(uid[3:6], uid[6:9], uid[9:])`: the first three
   * characters are replaced by the literal prefix and the rest is grouped
   * 3/3/remainder. Short input is never an error.
   */
  function FormatUid(uid: string): (r: string)
    ensures |r| == 6 + (if |uid| > 3 then |uid| - 3 else 0)
    ensures r[..4] == "CHE-"
  {
    "CHE-" + Slice(uid, 3, 6) + "." + Slice(uid, 6, 9) + "." + Drop(uid, 9)
  }

  /** A twelve-character raw UID gives the display form `CHE-ddd.ddd.ddd`. */
  lemma FormatUidDisplayForm(uid: string)
    requires |uid| == 12
    ensures var r := FormatUid(uid);
      && |r| == 15 && r[..4] == "CHE-" && r[7] == '.' && r[11] == '.'
      && r[4..7] == uid[3..6] && r[8..11] == uid[6..9] && r[12..] == uid[9..]
  {
  }

  lemma FormatUidExamples()
    ensures FormatUid("CHE123456789") == "CHE-123.456.789"
    ensures FormatUid("") == "CHE-.."
    ensures FormatUid("CHE12") == "CHE-12.."
  {
    assert Slice("CHE123456789", 3, 6) == "123";
    assert Slice("CHE123456789", 6, 9) == "456";
    assert Drop("CHE123456789", 9) == "789";
    assert Slice("CHE12", 3, 6) == "12";
  }

  /**
   * The first three characters never matter: formatting any string gives
   * the same as formatting "CHE" followed by its characters from index 3.
   */
  lemma FormatUidIgnoresPrefix(uid: string)
    ensures FormatUid(uid) == FormatUid("CHE" + Drop(uid, 3))
  {
    var t := "CHE" + Drop(uid, 3);
    if |uid| >= 3 {
      assert |t| == |uid|;
      assert forall i :: 3 <= i < |uid| ==> t[i] == uid[i];
      assert Slice(t, 3, 6) == Slice(uid, 3, 6);
      assert Slice(t, 6, 9) == Slice(uid, 6, 9);
      assert Drop(t, 9) == Drop(uid, 9);
    } else {
      assert t == "CHE";
    }
  }

  /** `s` with every '.' removed. */
  function Undotted(s: string): (r: string)
    ensures |r| <= |s|
  {
    if s == [] then [] else (if s[0] == '.' then [] else [s[0]]) + Undotted(s[1..])
  }

  lemma {:induction false} UndottedAppend(a: string, b: string)
    ensures Undotted(a + b) == Undotted(a) + Undotted(b)
  {
    if a != [] {
      assert (a + b)[0] == a[0];
      assert (a + b)[1..] == a[1..] + b;
      UndottedAppend(a[1..], b);
    } else {
      assert a + b == b;
    }
  }

  /** `uid[3:]` is the three groups `format_uid` reads, side by side. */
  lemma DropGroups(uid: string)
    ensures Drop(uid, 3) == Slice(uid, 3, 6) + Slice(uid, 6, 9) + Drop(uid, 9)
  {
    var lo, mid, hi := Clamp(uid, 3), Clamp(uid, 6), Clamp(uid, 9);
    assert lo <= mid <= hi <= |uid|;
    assert Slice(uid, 3, 6) == uid[lo..mid];
    assert Slice(uid, 6, 9) == uid[mid..hi];
    assert uid[lo..] == uid[lo..mid] + uid[mid..hi] + uid[hi..];
  }

  /**
   * The partner of the formatting: dropping the "CHE-" prefix and the
   * group separators gives back every character of the raw UID after
   * index 3 (up to the dots it may itself contain), for input of any length.
   */
  lemma FormatUidRecoversDigits(uid: string)
    ensures Undotted(FormatUid(uid)[4..]) == Undotted(Drop(uid, 3))
  {
    var a, b, c := Slice(uid, 3, 6), Slice(uid, 6, 9), Drop(uid, 9);
    var x := a + "." + b + "." + c;
    assert FormatUid(uid) == "CHE-" + x;
    assert ("CHE-" + x)[4..] == x;
    DropGroups(uid);
    UndottedJoin(a, b, c);
  }

  /** The two separators `format_uid` inserts are exactly what `Undotted` removes. */
  lemma UndottedJoin(a: string, b: string, c: string)
    ensures Undotted(a + "." + b + "." + c) == Undotted(a + b + c)
  {
    assert Undotted(".") == "";
    UndottedAppend(a + "." + b + ".", c);
    UndottedAppend(a + "." + b, ".");
    UndottedAppend(a + ".", b);
    UndottedAppend(a, ".");
    UndottedAppend(a + b, c);
    UndottedAppend(a, b);
  }

  // ---------------------------------------------------------------------
  // Registry columns
  // ---------------------------------------------------------------------

  const NameKey := "zefixName"
  const LegalSeatKey := "zefixLegalSeat"
  const LegalSeatIdKey := "zefixLegalSeatId"
  const UidKey := "zefixUid"
  const StreetKey := "zefixStreet"
  const ZipKey := "zefixSwissZipCode"
  const CityKey := "zefixCity"
  const ChidKey := "zefixChid"

  /** The columns `process_row` appends. */
  const BasicKeys: set<string> := {NameKey, LegalSeatKey, LegalSeatIdKey, UidKey}
  /** The columns `process_row_uid` appends. */
  const UidKeys: set<string> := BasicKeys + {StreetKey, ZipKey, CityKey}
  /** The columns `process_row_with_city_check` appends. */
  const CityKeys: set<string> := BasicKeys + {ChidKey}

  lemma AppendedColumnCounts()
    ensures |BasicKeys| == 4 && |UidKeys| == 7 && |CityKeys| == 5
    ensures BasicKeys <= UidKeys && BasicKeys <= CityKeys
    ensures StreetKey !in CityKeys && ChidKey !in UidKeys
  {
    assert BasicKeys == {"zefixName", "zefixLegalSeat", "zefixLegalSeatId", "zefixUid"};
    assert |{"zefixName", "zefixLegalSeat", "zefixLegalSeatId"}| == 3;
    assert |{"zefixName", "zefixLegalSeat"}| == 2;
  }

  /** `out` carries the name, legal seat, legal-seat id of `item`, and `uid` as its UID column. */
  predicate CarriesNames(out: Row, item: Item, uid: string) {
    && NameKey in out && out[NameKey] == OrEmpty(item.name)
    && LegalSeatKey in out && out[LegalSeatKey] == OrEmpty(item.legalSeat)
    && LegalSeatIdKey in out && out[LegalSeatIdKey] == OrEmpty(item.legalSeatId)
    && UidKey in out && out[UidKey] == uid
  }

  function BasicFields(item: Item): map<string, string> {
    map[NameKey := OrEmpty(item.name),
        LegalSeatKey := OrEmpty(item.legalSeat),
        LegalSeatIdKey := OrEmpty(item.legalSeatId),
        UidKey := OrEmpty(item.uid)]
  }

  // ---------------------------------------------------------------------
  // Fan-out policy
  // ---------------------------------------------------------------------

  /**
   * `process_row`: on success one output row per returned item, in item
   * order, each the input row extended with that item's name, legal seat,
   * legal-seat id and raw UID; on failure a single row whose four appended
   * columns hold the sentinel.
   */
  function ProcessRow(row: Row, outcome: Outcome): (out: seq<Row>)
    ensures outcome.Success? ==>
      && |out| == |outcome.items|
      && forall i :: 0 <= i < |out| ==>
           Extends(out[i], row, BasicKeys)
           && CarriesNames(out[i], outcome.items[i], OrEmpty(outcome.items[i].uid))
    ensures outcome.Failure? ==>
      |out| == 1 && Extends(out[0], row, BasicKeys) && AllSentinel(out[0], BasicKeys)
  {
    match outcome
    case Success(items) =>
      seq(|items|, i requires 0 <= i < |items| => Extend(row, BasicFields(items[i])))
    case Failure =>
      [Extend(row, SentinelFields(BasicKeys))]
  }

  // ---------------------------------------------------------------------
  // By-UID policy
  // ---------------------------------------------------------------------

  /**
   * The street column: the street (absent or null read as empty), followed
   * by a single space and the house number only when the house number is
   * present and non-empty.
   */
  function StreetLine(address: Address): (line: string)
    ensures OrEmpty(address.houseNumber) == "" ==> line == OrEmpty(address.street)
    ensures OrEmpty(address.houseNumber) != "" ==>
      line == OrEmpty(address.street) + " " + OrEmpty(address.houseNumber)
  {
    var street := OrEmpty(address.street);
    if address.houseNumber.Some? && address.houseNumber.value != "" then
      street + " " + address.houseNumber.value
    else
      street
  }

  /** The street line ends in a space only when one of its parts does. */
  lemma StreetLineNoTrailingSpace(address: Address)
    requires var line := StreetLine(address); |line| > 0 && line[|line| - 1] == ' '
    ensures var n := OrEmpty(address.houseNumber);
      if n == "" then OrEmpty(address.street)[|OrEmpty(address.street)| - 1] == ' '
      else n[|n| - 1] == ' '
  {
  }

  lemma StreetLineExamples()
    ensures StreetLine(Address(Some("Bahnhofstrasse"), Some(""), None, None)) == "Bahnhofstrasse"
    ensures StreetLine(Address(Some("Bahnhofstrasse"), None, None, None)) == "Bahnhofstrasse"
    ensures StreetLine(Address(Some("Bahnhofstrasse"), Some("12"), None, None)) == "Bahnhofstrasse 12"
    ensures StreetLine(Address(None, Some("12"), None, None)) == " 12"
  {
  }

  /** `out` carries everything `process_row_uid` reads from `item`. */
  predicate CarriesAddress(out: Row, item: Item) {
    && CarriesNames(out, item, FormatUid(OrEmpty(item.uid)))
    && StreetKey in out && out[StreetKey] == StreetLine(item.AddressObject())
    && ZipKey in out && out[ZipKey] == OrEmpty(item.AddressObject().swissZipCode)
    && CityKey in out && out[CityKey] == OrEmpty(item.AddressObject().city)
  }

  function UidFields(item: Item): map<string, string> {
    var address := item.AddressObject();
    map[NameKey := OrEmpty(item.name),
        LegalSeatKey := OrEmpty(item.legalSeat),
        LegalSeatIdKey := OrEmpty(item.legalSeatId),
        UidKey := FormatUid(OrEmpty(item.uid)),
        StreetKey := StreetLine(address),
        ZipKey := OrEmpty(address.swissZipCode),
        CityKey := OrEmpty(address.city)]
  }

  /**
   * `process_row_uid`: on success one row per item, in order, with the UID
   * in display form and the address columns; on failure a single row whose
   * seven appended columns hold the sentinel.
   */
  function ProcessRowUid(row: Row, outcome: Outcome): (out: seq<Row>)
    ensures outcome.Success? ==>
      && |out| == |outcome.items|
      && forall i :: 0 <= i < |out| ==>
           Extends(out[i], row, UidKeys) && CarriesAddress(out[i], outcome.items[i])
    ensures outcome.Failure? ==>
      |out| == 1 && Extends(out[0], row, UidKeys) && AllSentinel(out[0], UidKeys)
  {
    match outcome
    case Success(items) =>
      seq(|items|, i requires 0 <= i < |items| => Extend(row, UidFields(items[i])))
    case Failure =>
      [Extend(row, SentinelFields(UidKeys))]
  }

  // ---------------------------------------------------------------------
  // Name + city disambiguation policy
  // ---------------------------------------------------------------------

  /** `str.lower()` on one character, for the ASCII letters. */
  function LowerChar(c: char): char {
    if 'A' <= c <= 'Z' then (c as int - 'A' as int + 'a' as int) as char else c
  }

  function Lower(s: string): (r: string)
    ensures |r| == |s|
    ensures forall i :: 0 <= i < |s| ==> r[i] == LowerChar(s[i])
  {
    if s == [] then [] else [LowerChar(s[0])] + Lower(s[1..])
  }

  /** The item's legal seat equals `city`, ignoring case. */
  predicate SeatMatches(item: Item, city: string) {
    Lower(OrEmpty(item.legalSeat)) == Lower(city)
  }

  /** Item `i` matches `city` and no earlier item does. */
  predicate IsFirstMatch(items: seq<Item>, city: string, i: nat)
    requires i < |items|
  {
    SeatMatches(items[i], city) && forall j :: 0 <= j < i ==> !SeatMatches(items[j], city)
  }

  /**
   * `next((item for item in items if ...), None)`: the index of the first
   * item whose legal seat matches `city`, if there is one.
   */
  function FirstMatch(items: seq<Item>, city: string): (m: Option<nat>)
    ensures m.Some? ==> m.value < |items| && IsFirstMatch(items, city, m.value)
    ensures m.None? ==> forall j :: 0 <= j < |items| ==> !SeatMatches(items[j], city)
  {
    if items == [] then None
    else if SeatMatches(items[0], city) then Some(0)
    else
      match FirstMatch(items[1..], city)
      case None => None
      case Some(k) => Some(k + 1)
  }

  /** `out` carries everything `process_row_with_city_check` reads from `item`. */
  predicate CarriesChid(out: Row, item: Item) {
    && CarriesNames(out, item, OrEmpty(item.uid))
    && ChidKey in out && out[ChidKey] == OrEmpty(item.chid)
  }

  function CityFields(item: Item): map<string, string> {
    BasicFields(item)[ChidKey := OrEmpty(item.chid)]
  }

  /**
   * `process_row_with_city_check`: always exactly one row. It carries the
   * first item whose legal seat equals the row's `city` column ignoring
   * case, provided that item is a non-empty object; otherwise (failure, no
   * matching item, or an empty matching object) all five appended columns
   * hold the sentinel.
   */
  function ProcessRowWithCityCheck(row: Row, outcome: Outcome): (out: seq<Row>)
    ensures |out| == 1 && Extends(out[0], row, CityKeys)
    ensures outcome.Failure? ==> AllSentinel(out[0], CityKeys)
    ensures outcome.Success? ==>
      forall i :: 0 <= i < |outcome.items| && IsFirstMatch(outcome.items, Get(row, "city"), i) ==>
        if outcome.items[i].IsTruthy() then CarriesChid(out[0], outcome.items[i])
        else AllSentinel(out[0], CityKeys)
    ensures outcome.Success? && (forall j :: 0 <= j < |outcome.items| ==> !SeatMatches(outcome.items[j], Get(row, "city"))) ==>
      AllSentinel(out[0], CityKeys)
  {
    var sentinel := [Extend(row, SentinelFields(CityKeys))];
    match outcome
    case Failure => sentinel
    case Success(items) =>
      match FirstMatch(items, Get(row, "city"))
      case None => sentinel
      case Some(i) =>
        assert forall k :: 0 <= k < |items| && IsFirstMatch(items, Get(row, "city"), k) ==> k == i;
        if items[i].IsTruthy() then [Extend(row, CityFields(items[i]))] else sentinel
  }

  /**
   * `if matching_item:` is false for an empty object, so an empty first
   * match gives the sentinel even when a later item has the same seat.
   */
  lemma CityCheckEmptyMatch(row: Row, later: Item)
    requires "city" !in row && later.legalSeat.None? && later.name.Some?
    ensures var empty := Item(None, None, None, None, None, None, false);
      var out := ProcessRowWithCityCheck(row, Success([empty, later]));
      AllSentinel(out[0], CityKeys) && !CarriesChid(out[0], later)
  {
    var empty := Item(None, None, None, None, None, None, false);
    assert IsFirstMatch([empty, later], Get(row, "city"), 0);
  }

  /**
   * An object whose only key holds JSON null (`{"name": null}`) is encoded
   * with every read field absent and `otherKeys` set. It is still truthy,
   * so a match writes empty cells, not the sentinel.
   */
  lemma CityCheckNullOnlyKey(row: Row)
    requires "city" !in row
    ensures var nullName := Item(None, None, None, None, None, None, true);
      var out := ProcessRowWithCityCheck(row, Success([nullName]));
      CarriesChid(out[0], nullName) && out[0][NameKey] == "" && out[0][ChidKey] == ""
  {
    var nullName := Item(None, None, None, None, None, None, true);
    assert IsFirstMatch([nullName], Get(row, "city"), 0);
  }
}
