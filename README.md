# Zefix row enrichment and CIDR calculation, modelled in Dafny

This project models the part of the SIA back-office scripts that carries logic of its own:

- **Row enrichment against the Zefix company registry.** Every row of an input table (a map from column name to text) is looked up in the registry. A match policy then turns the lookup outcome into one or more output rows. Each output row is the input row extended with `zefix*` columns.
  - Three policies live in the shared `artikel5` helpers: fan-out, by-UID with address, and name + city disambiguation.
  - Three `artikel5` batch scripts use them: by UID, by name and legal-seat id, and by name and city.
  - Two standalone scripts repeat the fan-out and by-UID logic with their own fetch built in.
- **`calculate_CIDR`** of the 3CX allow-list script. It finds the smallest IPv4 CIDR block that holds two addresses.

Everything is pure. The registry is a parameter `registry: Request -> Reply`. It gives the reply to each request: a transport exception, or a status and a body that either decodes to a JSON array of company items or does not decode.

| file | module | models |
|---|---|---|
| `registry.dfy` | `Registry` | JSON items, addresses, replies, the `(data, success)` outcome, requests |
| `rows.dfy` | `Rows` | rows, `dict(row, **fields)`, the sentinel `#N/V`, and `executor.map` followed by flattening (`ConcatMap`) |
| `utils.dfy` | `Artikel5Utils` | `SIA/artikel5/utils.py` |
| `export_by_uid.dfy` | `ExportByUid` | `SIA/artikel5/export_by_uid.py` |
| `export_by_name_and_legal_seat_id.dfy` | `ExportByNameAndLegalSeatId` | `SIA/artikel5/export_by_name_and_legal_seat_id.py` |
| `export_by_name_and_city.dfy` | `ExportByNameAndCity` | `SIA/artikel5/export_by_name_and_city.py` |
| `export_artikel5_uid.dfy` | `ExportArtikel5Uid` | `SIA/export_artikel5_uid.py` |
| `export_artikel5_name.dfy` | `ExportArtikel5Name` | `SIA/export_artikel5_name.py` |
| `export_ip_list.dfy` | `ExportIpList` | `calculate_CIDR` in `SIA/3cx/export_ip_list.py` |

Facts about the code that the model keeps:

- `artikel5/export_by_uid.py` POSTs to `endpoint + uid` through the shared helper (`artikel5/utils.py:19`). Only the standalone `export_artikel5_uid.py` sends a GET (line 34).
- The by-UID policy and the name + legal-seat-id policy emit one row per returned item, not a single match.
- The fan-out `process_row`, shared and standalone, appends only four columns and writes the raw UID. The by-UID policies format the UID and add the three address columns: `process_row_uid` (`artikel5/utils.py:92`) and the standalone `export_artikel5_uid.py` `process_row` (line 75).
- An input row never yields zero output rows. A successful fetch always holds at least one item, and a failed one yields one sentinel row.

## Model

| member | source | states |
|---|---|---|
| `Rows.Extend` | SIA/artikel5/utils.py:57-63 | `dict(row, ...)`: the output has exactly the input's columns plus the appended ones; appended values win; every other column keeps the input's value |
| `Rows.SentinelFields` | SIA/artikel5/utils.py:67-75 | the failure fields: exactly the given columns, each holding `#N/V` |
| `Rows.ConcatMap` | SIA/artikel5/export_by_uid.py:17-23 | `[item for sublist in executor.map(f, rows) for item in sublist]`: the per-row results concatenated in input order; its contract is stated by the five `ConcatMap*` lemmas below |
| `Rows.ConcatMapAppend` | SIA/artikel5/export_by_name_and_legal_seat_id.py:17-25 | mapping and flattening two batches one after the other gives the concatenation of their outputs |
| `Rows.ConcatMapBlock` | SIA/artikel5/export_by_uid.py:17-23 | contiguity and order: the rows of input `i` form one block, preceded by those of all earlier inputs and followed by those of all later ones |
| `Rows.ConcatMapAtLeast` | SIA/export_artikel5_name.py:89-92 | when every input yields at least one row, the output has at least as many rows as the input |
| `Rows.ConcatMapSingletons` | SIA/artikel5/export_by_name_and_city.py:24-32 | when every input yields exactly one row, output row `i` is the row of input `i` |
| `Rows.ConcatMapMembers` | SIA/export_artikel5_uid.py:112-115 | the flattened batch `ConcatMap` holds exactly the items of the per-row result lists: every output row comes from the result list of some input row, and every row of every result list is in the output |
| `Artikel5Utils.FetchDataFromApi` | SIA/artikel5/utils.py:18-26 | success exactly when the body decodes, the status is 200 and the array is non-empty; exceptions, undecodable bodies, other statuses and empty arrays all fail; success carries the returned items unchanged |
| `Artikel5Utils.FormatUid` | SIA/artikel5/utils.py:29-39 | the result starts with `CHE-`; its length is `6 + max(0, len(uid) - 3)` because slicing clamps, so short input never fails |
| `Artikel5Utils.FormatUidDisplayForm` | SIA/artikel5/utils.py:39 | a 12-character raw UID gives `CHE-ddd.ddd.ddd`: separators at positions 7 and 11, and the digit groups are `uid[3:6]`, `uid[6:9]`, `uid[9:]` |
| `Artikel5Utils.FormatUidExamples` | SIA/artikel5/utils.py:39 | `CHE123456789` gives `CHE-123.456.789`; the empty string gives `CHE-..` (not the sentinel); `CHE12` gives `CHE-12..` |
| `Artikel5Utils.FormatUidIgnoresPrefix` | SIA/artikel5/utils.py:39 | the first three characters never matter: the result is that of `"CHE" + uid[3:]` |
| `Artikel5Utils.FormatUidRecoversDigits` | SIA/artikel5/utils.py:39 | inverse: dropping `CHE-` and every dot from the result gives back `uid[3:]`, less any dots of its own, for input of any length |
| `Artikel5Utils.AppendedColumnCounts` | SIA/artikel5/utils.py:56-152 | the three policies append 4, 7 and 5 columns; the by-UID and city-check sets both contain the fan-out set |
| `Artikel5Utils.ProcessRow` | SIA/artikel5/utils.py:42-75 | on success one row per item, in item order, each the input row plus that item's name, legal seat, legal-seat id and raw uid (missing gives `""`); on failure exactly one row with the four columns set to `#N/V` |
| `Artikel5Utils.StreetLine` | SIA/artikel5/utils.py:93-98 | the street (missing gives `""`) alone when the house number is missing or empty; otherwise street, one space, house number |
| `Artikel5Utils.StreetLineNoTrailingSpace` | SIA/artikel5/utils.py:93-98 | the street column ends in a space only when the street (with no house number) or the house number does |
| `Artikel5Utils.StreetLineExamples` | SIA/artikel5/utils.py:93-98 | `Bahnhofstrasse` with empty or missing number stays `Bahnhofstrasse`; with `12` it becomes `Bahnhofstrasse 12` |
| `Artikel5Utils.ProcessRowUid` | SIA/artikel5/utils.py:78-116 | on success one row per item, in order, with the display-form UID, the street line, and the zip code and city from the nested address (missing gives `""`); on failure exactly one row with the seven columns set to `#N/V` |
| `Artikel5Utils.FirstMatch` | SIA/artikel5/utils.py:127-131 | the index of the first item whose lower-cased legal seat equals the lower-cased city, or none when no item matches |
| `Artikel5Utils.ProcessRowWithCityCheck` | SIA/artikel5/utils.py:119-152 | always exactly one row extending the input. It carries the first item whose legal seat equals the row's `city` (missing gives `""`) ignoring case, provided that item is a non-empty object. On failure or when nothing matches, the five columns hold `#N/V` |
| `Artikel5Utils.CityCheckEmptyMatch` | SIA/artikel5/utils.py:128-143 | an empty object that matches comes out falsy, so the sentinel is emitted even though a later item also matches |
| `Artikel5Utils.CityCheckNullOnlyKey` | SIA/artikel5/utils.py:128-141 | an object whose only key holds null is still truthy: a match writes empty cells, not the sentinel |
| `ExportByUid.FetchRequest` | SIA/artikel5/export_by_uid.py:9-11 | a POST to `endpoint + uid` whose only parameter is `activeOnly: "true"` |
| `ExportByUid.EnrichRow` | SIA/artikel5/export_by_uid.py:19 | each row yields at least one output row, and every one extends it with the seven by-UID columns |
| `ExportByUid.EnrichRowKey` | SIA/artikel5/export_by_uid.py:19 | the key is `row.get("uid", "")`: rows that agree on it get the same number of output rows with the same appended columns |
| `ExportByUid.CompareAndUpdate` | SIA/artikel5/export_by_uid.py:14-23 | at least as many output rows as input rows; every output row is some input row with the seven columns appended |
| `ExportByUid.CompareAndUpdateBlocks` | SIA/artikel5/export_by_uid.py:17-23 | the output is the results of the rows before `i`, then those of row `i`, then those of the rows after it |
| `ExportByNameAndLegalSeatId.FetchParams` | SIA/artikel5/export_by_name_and_legal_seat_id.py:9-11 | the parameters are exactly `name`, `legalSeatId` and `activeOnly: "true"` |
| `ExportByNameAndLegalSeatId.EnrichRow` | SIA/artikel5/export_by_name_and_legal_seat_id.py:19-21 | each row yields at least one output row, and every one extends it with the four fan-out columns |
| `ExportByNameAndLegalSeatId.EnrichRowMissingKeys` | SIA/artikel5/export_by_name_and_legal_seat_id.py:20 | a row lacking `name` or `legalSeatId` is looked up exactly as if that column held `""` |
| `ExportByNameAndLegalSeatId.CompareAndUpdate` | SIA/artikel5/export_by_name_and_legal_seat_id.py:14-25 | at least as many output rows as input rows; every output row is some input row with the four columns appended |
| `ExportByNameAndLegalSeatId.CompareAndUpdateBlocks` | SIA/artikel5/export_by_name_and_legal_seat_id.py:17-25 | the rows of input `i` form one block in input order |
| `ExportByNameAndLegalSeatId.CompareAndUpdateFanOut` | SIA/artikel5/export_by_name_and_legal_seat_id.py:19-25 | a lookup returning `n` companies puts `n` consecutive rows into the output, one per company in registry order, right after the rows of the earlier inputs |
| `ExportByNameAndCity.FetchParams` | SIA/artikel5/export_by_name_and_city.py:9-11 | the parameters are exactly `name` and `activeOnly: "true"`; no city is sent |
| `ExportByNameAndCity.EnrichRow` | SIA/artikel5/export_by_name_and_city.py:26-28 | each row yields exactly one output row extending it with the five city-check columns |
| `ExportByNameAndCity.EnrichRowKey` | SIA/artikel5/export_by_name_and_city.py:26-28 | rows with the same `name` and the same `city` up to case get the same five appended values |
| `ExportByNameAndCity.FirstMatchCaseInsensitive` | SIA/artikel5/utils.py:127-129 | the first match depends on the city only through its lower-cased form |
| `ExportByNameAndCity.CompareAndUpdate` | SIA/artikel5/export_by_name_and_city.py:14-32 | exactly as many output rows as input rows; output row `i` is input row `i`'s single result and extends it |
| `ExportByNameAndCity.CompareAndUpdateAllFailing` | SIA/artikel5/export_by_name_and_city.py:24-32 | when every lookup fails, output row `i` is input row `i` with all five columns `#N/V` |
| `ExportByNameAndCity.CityCheckExample` | SIA/artikel5/utils.py:125-141 | with items seated in `Zurich` and `Bern` and a row whose city is `bern`, the Bern company is selected and the row's own `city` is kept |
| `ExportArtikel5Uid.FetchDataFromApi` | SIA/export_artikel5_uid.py:19-41 | the GET of `endpoint + uid` with `activeOnly: "true"` succeeds exactly when the status is 200 and the decoded array is non-empty; everything else, exceptions included, fails |
| `ExportArtikel5Uid.FormatUidShortInput` | SIA/export_artikel5_uid.py:44-53 | the script's `format_uid` (the shared one) turns input of at most three characters into `CHE-..` without failing |
| `ExportArtikel5Uid.ProcessRow` | SIA/export_artikel5_uid.py:56-99 | looks up `row.get("uid", "")`. On success one row per company, in order, with the display-form UID and the address columns. On failure one row with all seven columns `#N/V` |
| `ExportArtikel5Uid.CompareAndUpdate` | SIA/export_artikel5_uid.py:102-115 | at least as many output rows as input rows; every output row is some input row with the seven columns appended |
| `ExportArtikel5Uid.CompareAndUpdateBlocks` | SIA/export_artikel5_uid.py:112-115 | the rows of input `i` form one block in input order |
| `ExportArtikel5Name.FetchParams` | SIA/export_artikel5_name.py:29-32 | the parameters are exactly `name` and `activeOnly: "true"` |
| `ExportArtikel5Name.FetchDataFromApi` | SIA/export_artikel5_name.py:19-41 | the POST of the name succeeds exactly when the status is 200 and the decoded array is non-empty; everything else, exceptions included, fails |
| `ExportArtikel5Name.ProcessRow` | SIA/export_artikel5_name.py:44-76 | looks up `row.get("name", "")`. On success one row per company, in order, carrying the raw, unformatted UID. On failure one row with the four columns `#N/V` |
| `ExportArtikel5Name.CompareAndUpdate` | SIA/export_artikel5_name.py:79-92 | at least as many output rows as input rows; every output row is some input row with the four columns appended |
| `ExportArtikel5Name.CompareAndUpdateLength` | SIA/export_artikel5_name.py:89-92 | the output length is the running sum of the per-row result lengths |
| `ExportArtikel5Name.CompareAndUpdateBlocks` | SIA/export_artikel5_name.py:90-92 | the rows of input `i` form one block in input order |
| `ExportArtikel5Name.CompareAndUpdateAllFailing` | SIA/export_artikel5_name.py:67-92 | when every lookup fails there is no fan-out: exactly one row per input, each with its passthrough columns and the four `#N/V` columns |
| `ExportIpList.SameHighBits` | SIA/3cx/export_ip_list.py:35 | two addresses agree above bit `n` exactly when their XOR is below `2^n` |
| `ExportIpList.BitLengthBound` | SIA/3cx/export_ip_list.py:38 | `x.bit_length() <= n` exactly when `x < 2^n` |
| `ExportIpList.HostBits` | SIA/3cx/export_ip_list.py:35-38 | `bit_length(start ^ end)` is at most 32, and the two addresses agree on all bits from position `n` up exactly when `n` is at least this value |
| `ExportIpList.CalculateCidr` | SIA/3cx/export_ip_list.py:20-41 | the prefix lies in 0..32; the network address is `start` with its host bits cleared, so it is at most `start`; both addresses lie in the network; no longer prefix around `start` contains `end` |
| `ExportIpList.CalculateCidrSingleAddress` | SIA/3cx/export_ip_list.py:35-38 | equal addresses give prefix 32 and the address itself |
| `ExportIpList.CalculateCidrSymmetric` | SIA/3cx/export_ip_list.py:31-41 | swapping the two addresses gives the same network; `start <= end` is not needed |
| `ExportIpList.CalculateCidrExampleSlash24` | SIA/3cx/export_ip_list.py:20-41 | 192.168.1.0 to 192.168.1.255 gives 192.168.1.0/24 |
| `ExportIpList.CalculateCidrExampleSlash30` | SIA/3cx/export_ip_list.py:40 | 10.0.0.5 to 10.0.0.6 gives 10.0.0.4/30: `strict=False` aligns the block rather than starting it at `start` |

## Left out

- HTTP sessions, Basic authentication and `.env` loading (`SIA/artikel5/config.py`, the top of both standalone scripts) are network and configuration I/O. The registry is the parameter `registry: Request -> Reply`, and the endpoint is a parameter too. A GET/POST tag is kept on each request, but the verb has no effect in the model.
- The registry is a fixed function of the request: two identical lookups get the same reply. The real registry is queried concurrently over the network, so one of two identical lookups can time out, answer 5xx or be rate-limited while the other succeeds. ExportByUid.EnrichRowKey, ExportByNameAndCity.EnrichRowKey and ExportByNameAndLegalSeatId.EnrichRowMissingKeys therefore state "same key, same request, same reply". Transient or time-dependent answers are not modelled.
- The `ThreadPoolExecutor` concurrency is not modelled. `executor.map` returns results in input order, so the batch is a sequential map followed by concatenation.
- pandas CSV reading and writing, delimiters, encodings, `reset_index`, NaN cells and numeric dtypes are file I/O. Rows are `map<string, string>`. A map has no column order, so the output header order (input columns, then the appended ones) is not modelled.
- A JSON `null` value is encoded as an absent field, with `otherKeys` set so the object stays truthy. Where the source passes the null on, the cell is the same. `item.get(...)` returns `None` for `name`, `legalSeat`, `legalSeatId`, `chid`, `swissZipCode` and `city`, and for `uid` in the fan-out and city-check policies. pandas writes `None` as an empty cell, the model's `""`.
- Artikel5Utils.ProcessRowUid, ExportArtikel5Uid.ProcessRow: an item whose `uid` is JSON null makes the source raise in `format_uid` (`None[3:6]`, `artikel5/utils.py:92` and `:39`, `export_artikel5_uid.py:75` and `:53`). The exception comes out of the flatten and aborts the whole batch. The model writes `CHE-..` for that item, because it has no batch-abort outcome.
- Uncaught exceptions inside a policy other than the null `uid` above are not modelled either. They come out of `executor.map` when the results are flattened and abort the whole batch. The cases are:
  - a `null` address;
  - a `null` legal seat in the city check;
  - a JSON array element that is not an object (`item.get` at `artikel5/utils.py:59`, `:89` and `:129`);
  - a decoded body that is a non-empty JSON object or scalar rather than an array;
  - a NaN `uid` cell in `artikel5/export_by_uid.py`, where `api_endpoint + uid` (line 11) runs outside the `try`;
  - a NaN `city` cell after a successful lookup (`.lower()` at `artikel5/utils.py:127`).

  A NaN `name` or `legalSeatId` cell, and a NaN `uid` in the standalone script, are used inside the fetch's `try`, so at worst they end as the failure sentinel. The model's cells are strings, so NaN does not arise.
- `str.lower()` in the city check is modelled for the ASCII letters only. Unicode case mapping is left out.
- `calculate_CIDR` takes dotted-quad strings. The model takes the 32-bit integers `ipaddress.ip_address` yields, and returns the network as an address and prefix length rather than its `a.b.c.d/p` string. IPv6 inputs are not modelled. The source still computes `32 - bit_length`: for far-apart addresses that is a negative prefix, which `ipaddress` rejects, and for close ones (`::1` and `::2`) it is a prefix in 0..32 that `ip_network` accepts as an IPv6 prefix.
- `CIDR_from_csv` and `csv_to_json` (file reading and printing) are left out. So are the SHAB gazette scrapers (HTTP plus XML extraction), the Nextcloud browser automation, and `test.py`. None of them contains enrichment or CIDR logic.
- The `print` of the output path at the end of each `compare_and_update` is console output.
