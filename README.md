# Telemetry bridge: a Dafny model

This project models the telemetry bridge of a suit/rover support system. The bridge has two parts:

- `TSSUpdater` is a UDP client. It sends an 8-byte big-endian request `(timestamp, command)` to the telemetry server. The reply is a datagram: an 8-byte header, then a NUL-padded JSON document. The client decodes that document and maps every failure to its exception.
- The `tss_polling` task runs forever. Each pass it fetches three documents (rover, suit, vehicle) and reshapes them into one `{"data": ...}` record per category of the thirteen-member `TelemetryCategory`. It writes one SQLite row per cycle, keyed by timestamp. It then broadcasts each record, stamped with the cycle's time, to the websockets subscribed to that category through `ConnectionManager`.

Modules, in dependency order:

- `Wrappers`: `Option` and `Result`.
- `Json`: JSON values and Python's `dict.get`.
- `Wire`: request packing, response framing (`recvfrom` truncation, header skip, NUL strip) and `fetch_data` (`Wire.Fetch`).
- `Client`: the `TssUpdater` class and its close/context-manager/finaliser discipline.
- `Categories`: the enumeration and its string keys.
- `Registry`: the subscriber registry as pure transitions. It also holds the `ConnectionManager` class, whose methods are proved equal to those transitions, and the websocket endpoint.
- `Reshape`: the per-cycle `data` dict literal, driven by one table from category to document path.
- `Storage`: the table made by `init_db`, the row inserted by `update_db`, and the `DatabaseManager` class.
- `Polling`: one cycle as a function of the state and the world's behaviour (`Cycle`), the run of cycles (`Run`), and the imperative loop (`Poll`, `PollCycle`, `BroadcastLoop`), proved equal to them.

The outside world is always an input:

- the network's behaviour in each exchange (`Wire.Exchange`);
- the clock readings;
- the set of websocket connections whose sends fail in a cycle;
- the text entered at the IP prompt;
- the UTF-8 decoder, JSON parser, JSON serialiser and URL unquoter, passed as function parameters.

## Model

| member | source | states |
|---|---|---|
| Wire.U32BE | Software/tss/tss_updater.py:59 | the four bytes `struct.pack(">I", x)` gives; characterised by `Wire.U32RoundTrip` and `Wire.U32BytesRoundTrip` |
| Wire.U32RoundTrip | Software/tss/tss_updater.py:59 | unpacking the four big-endian bytes of any unsigned 32-bit value gives the value back |
| Wire.U32BytesRoundTrip | Software/tss/tss_updater.py:59 | any four bytes are the big-endian encoding of the value they unpack to |
| Wire.EncodeRequest | Software/tss/tss_updater.py:58-59 | `struct.pack(">II", ...)` succeeds exactly when both fields fit in 32 unsigned bits, and then yields 8 bytes |
| Wire.DecodeRequest | Software/tss/tss_updater.py:59 | the server's unpack accepts exactly 8-byte packets and yields two 32-bit values |
| Wire.RequestRoundTrip | Software/tss/tss_updater.py:58-59 | decoding the packed request gives back the timestamp and the command |
| Wire.RequestBytesRoundTrip | Software/tss/tss_updater.py:59 | every 8-byte packet is the packing of the pair it decodes to |
| Wire.StripLeadingNul | Software/tss/tss_updater.py:65 | the input is some NUL bytes followed by the result, and the result does not start with NUL |
| Wire.StripTrailingNul | Software/tss/tss_updater.py:65 | the input is the result followed by some NUL bytes, and the result does not end with NUL |
| Wire.StripNul | Software/tss/tss_updater.py:65 | `strip(b'\x00')` never lengthens, and its result has no NUL at either end |
| Wire.StripAllNul | Software/tss/tss_updater.py:65 | an all-NUL payload strips to the empty byte string |
| Wire.StripUnique | Software/tss/tss_updater.py:65 | a payload with no NUL at either end, padded with any NULs on both sides, strips to exactly that payload |
| Wire.StripDecomposition | Software/tss/tss_updater.py:65 | any byte string is its stripped form with NUL padding on each side |
| Wire.StripIdempotent | Software/tss/tss_updater.py:65 | stripping twice is stripping once |
| Wire.StripPaddingInvariant | Software/tss/tss_updater.py:65 | adding NUL padding on either side of any payload does not change the stripped result |
| Wire.Received | Software/tss/tss_updater.py:63 | `recvfrom(8192)` gives a prefix of the datagram of at most 8192 bytes: all of it when it fits, and exactly its first 8192 bytes when it is longer |
| Wire.Payload | Software/tss/tss_updater.py:65 | `data[8:]` is everything after the 8-byte header, or empty for a datagram shorter than the header |
| Wire.PayloadText | Software/tss/tss_updater.py:63-65 | the text handed to the decoder is at most 8192 - 8 bytes and has no NUL at either end; `Wire.HeaderIgnored` and `Wire.PaddingIgnored` say what it does not depend on |
| Wire.HeaderIgnored | Software/tss/tss_updater.py:65 | two datagrams differing only in their 8-byte header decode to the same text |
| Wire.FramedPayload | Software/tss/tss_updater.py:63-65 | a header plus a body that fits the buffer yields exactly the body |
| Wire.PaddingIgnored | Software/tss/tss_updater.py:63-65 | NUL padding around a payload never changes the decoded text, provided the header, the leading padding and the payload fit the buffer; truncation can cut only trailing NULs |
| Wire.DecodeResponse | Software/tss/tss_updater.py:65 | decoding succeeds exactly when UTF-8 and JSON both succeed on the stripped payload. A payload that is not UTF-8 fails with UnicodeDecodeError; valid UTF-8 that is not JSON fails with the wrapped JSON error; nothing else is raised |
| Wire.Receive | Software/tss/tss_updater.py:63-73 | what follows a successful `sendto`: TimeoutError exactly when `recvfrom` times out, ConnectionError with the socket's own reason when it fails, and otherwise the decoding of the received bytes |
| Wire.SentRequest | Software/tss/tss_updater.py:58-62 | a packet is handed to `sendto` exactly when packing succeeds and the client still holds its socket, and it decodes to the clock reading and the command |
| Wire.Fetch | Software/tss/tss_updater.py:52-73 | a request is sent exactly when neither struct.error nor the closed-socket AttributeError is raised. The reply read is what `recvfrom` returns after that packet was sent, not necessarily the answer to it; once sent, the outcome is `Wire.Receive` of that reply. For each exception of `fetch_data`, exactly the conditions that raise it: struct.error out of range; AttributeError after close; TimeoutError on a send or receive timeout; ConnectionError with the socket's reason; UnicodeDecodeError or ValueError from decoding. Success means both calls went through and the result is the decoded datagram read after the packet was sent |
| Client.TssUpdater.constructor | Software/tss/tss_updater.py:13-18 | the client keeps the address and holds an open socket with a 2.0 s timeout |
| Client.TssUpdater.Close | Software/tss/tss_updater.py:20-28 | close clears the socket whether or not the socket's close raises; it closes the socket once if there was one and nothing otherwise; it raises only if there was a socket and its close raised; the address is unchanged |
| Client.TssUpdater.Enter | Software/tss/tss_updater.py:30-34 | the context value is the client itself |
| Client.TssUpdater.Exit | Software/tss/tss_updater.py:36-40 | leaving the block closes the socket and passes on close's exception |
| Client.TssUpdater.Del | Software/tss/tss_updater.py:42-50 | the finaliser closes the socket and raises nothing |
| Client.ScopedLifetime | Software/tss/tss_updater.py:20-50 | a client used in a `with` block, finalised and closed again, closes its socket exactly once, and only the first release can raise |
| Categories.Key | Software/tss/tss_api.py:16-33 | `category.value`; bijective with the enumeration by `Categories.FromKeyOfKey`, `Categories.KeyInjective` and `Categories.CategoryKeysExact` |
| Categories.Index | Software/tss/tss_api.py:16-33 | each category has a position in declaration order, and that position holds it |
| Categories.FromKey | Software/tss/tss_api.py:16-33 | looking up a string by value gives a category whose value is that string |
| Categories.FromKeyOfKey | Software/tss/tss_api.py:16-33 | each category's value looks up to that category |
| Categories.KeyInjective | Software/tss/tss_api.py:16-33 | two categories have the same value exactly when they are the same category |
| Categories.AllCategoriesComplete | Software/tss/tss_api.py:16-33 | iteration visits all thirteen categories, each exactly once |
| Categories.CategoryKeysExact | Software/tss/tss_api.py:16-33 | a string is a category value exactly when it looks up to a category |
| Categories.KeysOfDistinct | Software/tss/tss_api.py:16-33 | n distinct categories have n distinct values |
| Categories.CategoryKeysCount | Software/tss/tss_api.py:16-33 | there are exactly thirteen distinct category values |
| Registry.FreshRegistry | Software/tss/tss_api.py:40 | the initial registry has exactly the category values as keys, each with no subscribers |
| Registry.FreshRegistryShape | Software/tss/tss_api.py:40 | the initial registry has thirteen entries, one per category, all empty, and every key names a category |
| Registry.Connected | Software/tss/tss_api.py:42-48 | the connect transition; characterised by `Registry.ConnectEffect` and `Registry.DisconnectUndoesConnect` |
| Registry.Disconnected | Software/tss/tss_api.py:50-55 | the disconnect transition; characterised by `Registry.DisconnectEffect` and `Registry.DisconnectIdempotent` |
| Registry.Pruned | Software/tss/tss_api.py:66-81 | the registry after one category's broadcast; characterised by `Registry.BroadcastEffect` and `Registry.BroadcastEmpty` |
| Registry.Recipients | Software/tss/tss_api.py:66-81 | the connections one category's broadcast reaches; `Registry.BroadcastEffect` shows they are exactly the subscribers left afterwards |
| Registry.ConnectEffect | Software/tss/tss_api.py:42-48 | connect adds the socket to the named category only; an unknown category changes nothing; the set of categories never changes |
| Registry.DisconnectEffect | Software/tss/tss_api.py:50-55 | disconnect removes the socket from the named category only, and changes nothing for an unknown category or a socket not subscribed |
| Registry.DisconnectIdempotent | Software/tss/tss_api.py:50-55 | a second disconnect of the same socket changes nothing (`discard`) |
| Registry.DisconnectUndoesConnect | Software/tss/tss_api.py:42-55 | disconnecting a newly connected socket restores the registry |
| Registry.BroadcastEffect | Software/tss/tss_api.py:57-81 | after a broadcast a subscriber stays exactly when its send succeeded; the message reaches exactly the survivors; other categories are untouched |
| Registry.BroadcastEmpty | Software/tss/tss_api.py:66-81 | broadcasting to a category with no subscribers reaches no one and changes nothing |
| Registry.ListOf | Software/tss/tss_api.py:71 | the snapshot lists each subscriber exactly once |
| Registry.ConnectionManager.constructor | Software/tss/tss_api.py:36-40 | a new manager holds the initial registry |
| Registry.ConnectionManager.Connect | Software/tss/tss_api.py:42-48 | the registry becomes the connect transition of the old registry; the set of categories is preserved |
| Registry.ConnectionManager.Disconnect | Software/tss/tss_api.py:50-55 | the registry becomes the disconnect transition of the old registry; the set of categories is preserved |
| Registry.ConnectionManager.BroadcastCategory | Software/tss/tss_api.py:57-81 | one send is attempted per subscriber of the snapshot taken at entry, none twice. Failed connections are disconnected and the rest receive the message, exactly as the pure prune transition says; the returned delivery records the message and its recipients |
| Registry.ConnectionManager.SendEach | Software/tss/tss_api.py:72-81 | the loop over the snapshot removes exactly the failed snapshot members from the live category and delivers to the others |
| Registry.WebsocketEndpoint | Software/tss/tss_api.py:163-176 | the URL-decoded segment is rejected with close code 1003 and the "does not exist" reason exactly when it names no category, leaving the registry alone; otherwise the socket is connected to that category |
| Json.Get | Software/tss/tss_api.py:217-266 | `.get` raises AttributeError exactly on a non-dict; otherwise it returns the entry or the default |
| Reshape.Normalise | Software/tss/tss_api.py:213-215 | a string document is parsed as JSON, raising when it cannot be; any other document passes unchanged |
| Reshape.SourcePath | Software/tss/tss_api.py:217-266 | the single table from category to its document and `.get` path; `Reshape.RoverScenario` and `Reshape.MissingErrorScenario` exercise it |
| Reshape.Lookup | Software/tss/tss_api.py:217-266 | one entry's `.get` chain; characterised by `Reshape.LookupFails` and `Reshape.LookupValue` |
| Reshape.ReshapeAll | Software/tss/tss_api.py:217-266 | the `data` dict literal; characterised by `Reshape.ReshapeSucceedsIff`, `Reshape.ReshapeComplete` and `Reshape.FirstShapeErrorIsLookup` |
| Reshape.LookupFails | Software/tss/tss_api.py:217-266 | a category's lookup raises exactly when its document is not a dict, or when its outer entry is present and not a dict (a JSON null included) |
| Reshape.LookupValue | Software/tss/tss_api.py:217-266 | a lookup gives the entry, `{}` for a missing top-level key, and null for a missing nested key |
| Reshape.FirstShapeError | Software/tss/tss_api.py:217-266 | the exception the dict literal raises, if any; characterised by `Reshape.FirstShapeErrorNone` and `Reshape.FirstShapeErrorIsLookup` |
| Reshape.FirstShapeErrorNone | Software/tss/tss_api.py:217-266 | the dict literal raises nothing exactly on reshapeable documents |
| Reshape.LookupSucceeds | Software/tss/tss_api.py:217-266 | every category's lookup succeeds on reshapeable documents |
| Reshape.FirstShapeErrorIsLookup | Software/tss/tss_api.py:217-266 | the exception raised is the failure of one category's own lookup, and every category before it in the literal's order looked up successfully |
| Reshape.ReshapeComplete | Software/tss/tss_api.py:217-266 | a successful reshape has an entry for exactly the thirteen categories, each `{"data": v}`, where v is that category's lookup |
| Reshape.ReshapeSucceedsIff | Software/tss/tss_api.py:217-266 | reshaping succeeds exactly when all three documents are dicts and the suit's telemetry/dcu/imu entries are dicts or absent |
| Reshape.RoverScenario | Software/tss/tss_api.py:219-221 | a rover document `{"pr_telemetry": {"speed": 5}}` gives the rover record `{"data": {"speed": 5}}` |
| Reshape.MissingErrorScenario | Software/tss/tss_api.py:223-254 | a suit document without "error" or per-suit entries does not fail the cycle: the error record holds `{}` and the Eva1Telemetry record holds null |
| Reshape.MissingSuitEntriesScenario | Software/tss/tss_api.py:223-246 | with the same suit document, each of the six per-suit records (telemetry, dcu and imu of eva1 and eva2) holds null |
| Storage.CategoryColumns | Software/tss/tss_api.py:108 | one column per category, in enumeration order, named by the category's value |
| Storage.CreateTable | Software/tss/tss_api.py:111-112 | `CREATE TABLE IF NOT EXISTS` leaves an existing table alone; on a new file it succeeds exactly when the column names are distinct, and creates an empty table |
| Storage.Columns | Software/tss/tss_api.py:108-111 | the table's columns, the timestamp then one per category; characterised by `Storage.CategoryColumns` and `Storage.ColumnsDistinct` |
| Storage.ColumnsDistinct | Software/tss/tss_api.py:108-111 | the fourteen column names (timestamp plus thirteen categories) are distinct |
| Storage.InitTable | Software/tss/tss_api.py:97-115 | what init_db does to the file; characterised by `Storage.InitTableFresh` and `Storage.InitTableIdempotent` |
| Storage.InitTableFresh | Software/tss/tss_api.py:97-115 | init_db on a new file creates the empty telemetry table, and running it again leaves that table |
| Storage.InitTableIdempotent | Software/tss/tss_api.py:111 | init_db a second time changes nothing |
| Storage.RowValues | Software/tss/tss_api.py:129-134 | update_db's `values` list; characterised by `Storage.RowShape` |
| Storage.DumpCategory | Software/tss/tss_api.py:134 | `json.dumps(data.get(category))`; characterised by `Storage.RowShape` |
| Storage.RowShape | Software/tss/tss_api.py:129-136 | the row has one value per column: the timestamp first, then each category's serialised record under its own column, with "null" for an absent category |
| Storage.Insert | Software/tss/tss_api.py:136-138 | an insert succeeds only into an existing table with a full row and a new key, and then adds exactly that row; a repeated primary key fails with an integrity error |
| Storage.InsertCycle | Software/tss/tss_api.py:117-140 | what update_db does to the file; characterised by `Storage.InsertFreshTimestamp`, `Storage.DuplicateTimestampFails` and `Storage.DistinctTimestampsKept` |
| Storage.InsertFreshTimestamp | Software/tss/tss_api.py:117-140 | a cycle's row is always accepted when the table exists and the timestamp is new, and it adds exactly that key |
| Storage.DuplicateTimestampFails | Software/tss/tss_api.py:117-140 | a second update_db with the same timestamp fails with a primary-key conflict instead of overwriting |
| Storage.DistinctTimestampsKept | Software/tss/tss_api.py:117-140 | two cycles with distinct timestamps give two rows, in which each category's value can be retrieved separately |
| Storage.DatabaseManager.constructor | Software/tss/tss_api.py:84-95 | a new manager's database file has no table yet, which the model assumes (see "File names can repeat") |
| Storage.DatabaseManager.InitDb | Software/tss/tss_api.py:97-115 | the file becomes what CREATE TABLE gives, or is unchanged and the error is reported |
| Storage.DatabaseManager.UpdateDb | Software/tss/tss_api.py:117-140 | the row is inserted and committed, or the error is raised and the file is unchanged |
| Polling.FetchAll | Software/tss/tss_api.py:207-209 | the three fetches succeed together or not at all; on success the documents are the rover, suit and vehicle replies in that order; otherwise the first failing fetch, in the order rover, suit, vehicle, is the cycle's error |
| Polling.CycleRequests | Software/tss/tss_api.py:207-209 | the requests a cycle sends are commands 0, 1, 2 in that order, each with its own clock reading, stopping after the first fetch that raises |
| Polling.FetchAllSendsThree | Software/tss/tss_api.py:207-209 | a cycle whose fetches all succeed has sent exactly three requests, for commands 0, 1 and 2 |
| Polling.CollectCycle | Software/tss/tss_api.py:207-266 | fetching, string-document decoding and reshaping; characterised by `Polling.CollectedRecords`, `Polling.NormaliseFailureLogged`, `Polling.CollectedParts` and `Polling.RoverRecordFromCommandZero` |
| Polling.NormaliseFailureLogged | Software/tss/tss_api.py:213-215 | once the three fetches succeed, the string documents are decoded rover first, then suit, then vehicle, and the first that fails to parse is the cycle's logged error |
| Polling.CollectedParts | Software/tss/tss_api.py:207-266 | a collected cycle is the reshape of the three normalised documents: the rover, suit and vehicle documents are the normalised results of the command-0, command-1 and command-2 fetches |
| Polling.RoverRecordFromCommandZero | Software/tss/tss_api.py:207-221 | a collected cycle's rover record is `{"data": ...}` around the "pr_telemetry" entry of the normalised result of the command-0 fetch |
| Polling.CollectedRecords | Software/tss/tss_api.py:207-266 | collected cycle data always has a dict record for every category |
| Polling.Message | Software/tss/tss_api.py:281 | the broadcast message is the record with a "timestamp" field set to the cycle time, all other fields kept |
| Polling.BroadcastAll | Software/tss/tss_api.py:277-282 | the broadcast loop as a function; characterised by `Polling.BroadcastAllOrder` and `Polling.BroadcastAllKeys` |
| Polling.BroadcastAllOrder | Software/tss/tss_api.py:277-282 | the loop makes one broadcast per category, in enumeration order, each with that category's record and the shared timestamp |
| Polling.BroadcastAllKeys | Software/tss/tss_api.py:277-282 | broadcasting never adds or removes registry categories |
| Polling.BroadcastAllEffect | Software/tss/tss_api.py:277-282 | when every category broadcast has a record, each broadcast category's subscribers lose exactly the connections whose send failed, other keys keep theirs, and the i-th delivery reached exactly the i-th category's subscribers whose send succeeded |
| Polling.StepPrunesFailing | Software/tss/tss_api.py:272-282 | a stored cycle keeps the earlier deliveries, removes the failing connections from every category's subscribers, and each of its thirteen deliveries reached that category's surviving subscribers |
| Polling.Step | Software/tss/tss_api.py:272-288 | the rest of a cycle once its data is collected or has raised; characterised by `Polling.StepAllOrNothing`, `Polling.StepBroadcastsAll`, `Polling.StepPersistsRow` and `Polling.StepAccounting` |
| Polling.Cycle | Software/tss/tss_api.py:206-288 | one pass of the loop body; characterised by `Polling.PersistOnlyAfterFetches`, `Polling.FetchesShortCircuit`, `Polling.SendFailureLogged` and `Polling.CycleAccounting` |
| Polling.Run | Software/tss/tss_api.py:204-290 | the cycles run in order; characterised by `Polling.RunAccounting` |
| Polling.StepAllOrNothing | Software/tss/tss_api.py:206-288 | a cycle that raises during fetching or reshaping logs that error, and one that fails in update_db logs the storage error; either way nothing else changes. A cycle whose row is inserted logs nothing and stores that row |
| Polling.StepBroadcastsAll | Software/tss/tss_api.py:272-282 | a stored cycle appends thirteen deliveries after the earlier ones, in enumeration order, each carrying its record and the cycle's timestamp |
| Polling.StepPersistsRow | Software/tss/tss_api.py:272 | a stored cycle's row, under its timestamp, is the timestamp plus the serialised records, which carry no timestamp field |
| Polling.StepAccounting | Software/tss/tss_api.py:206-288 | each cycle appends either exactly one error or exactly thirteen deliveries, and rewrites no earlier entry |
| Polling.FailedStepTransparent | Software/tss/tss_api.py:286-288 | after a failed cycle, the next cycle stores, prunes and broadcasts exactly as if the failed cycle had not happened, and the logged error remains |
| Polling.PersistOnlyAfterFetches | Software/tss/tss_api.py:207-272 | a row is written or a broadcast made only if all three fetches succeeded |
| Polling.FetchesShortCircuit | Software/tss/tss_api.py:207-209 | when the rover fetch fails, the other two exchanges do not matter and the cycle only logs that error |
| Polling.SendFailureLogged | Software/tss/tss_api.py:206-288 | a cycle whose first request cannot be sent logs the ConnectionError with its reason, and changes nothing else |
| Polling.CycleAccounting | Software/tss/tss_api.py:206-288 | one cycle logs one error or makes thirteen broadcasts, keeping the earlier log |
| Polling.RunAccounting | Software/tss/tss_api.py:204-290 | over any run of n cycles, each cycle logs exactly one error or makes exactly thirteen broadcasts, so an exception never ends the loop, and no earlier entry is rewritten |
| Polling.BroadcastLoop | Software/tss/tss_api.py:277-282 | the loop over the live manager leaves the registry, and yields the deliveries, that the pure broadcast sequence gives |
| Polling.PollCycle | Software/tss/tss_api.py:206-288 | one pass over the live manager, updater and database manager gives exactly the state of the pure cycle |
| Polling.Poll | Software/tss/tss_api.py:185-290 | the updater is built with the address entered, or the default when the entry is empty, and the default port. The table is created, and after the cycles the database, registry and logs equal the pure run from an empty table. The socket is then closed exactly once, and close's exception is passed on |

## Behaviour worth noting

The model follows the code in each of these points:

- **A storage failure cancels the broadcast.** `update_db` (tss_api.py:272) raises before the broadcast loop at line 277. The handler at line 286 then ends the cycle, so a cycle whose row cannot be written broadcasts nothing (`Polling.StepAllOrNothing`).
- **NULs go from both ends.** `strip(b'\x00')` (tss_updater.py:65) removes leading NUL bytes as well as the trailing padding (`Wire.StripNul`).
- **A UTF-8 error escapes unwrapped.**
  - A payload that is not valid UTF-8 raises `UnicodeDecodeError`, which is neither a `json.JSONDecodeError` nor a `socket.error`. So it leaves `fetch_data` as it is (`Wire.UnicodeErr`).
  - Only a JSON syntax error becomes `ValueError` (tss_updater.py:72-73).
- **Some missing data fails the cycle.**
  - A missing key yields `{}` or null.
  - Any of the following makes `.get` raise `AttributeError`, which fails the whole cycle (`Reshape.ReshapeSucceedsIff`):
    - a document that is not a dict;
    - a suit entry such as `"telemetry"` that is present but not a dict, null included.
- **The timestamp is read late.** The cycle timestamp is read after the three fetches (tss_api.py:211). Each record gets its `"timestamp"` field only after `update_db` has stored the row (line 281), so the stored records do not contain it (`Polling.StepPersistsRow`).
- **Replies are not matched to requests.** `fetch_data` reads the next datagram queued on the socket (tss_updater.py:63) and skips its header unchecked (line 65), so nothing confirms that it answers the request just sent. After a timeout (lines 68-69) the late answer stays queued, and the next fetch reads it. From then on each document can be the answer to the previous command, and the cycle's records can stay shifted by one. The model's `Exchange.reply` is any datagram, so its properties hold whatever the server sends (`Wire.Fetch`).
- **File names can repeat.** The database file is named `tss_data_` plus the start time as month, day, hour, minute and second (tss_api.py:86, :95). The name has no year and one-second resolution. A second run started in the same second, or at the same date and time in a later year, reopens the earlier file. `CREATE TABLE IF NOT EXISTS` (line 111) then keeps the old table and its rows (`Storage.InitTableIdempotent`), and a cycle whose timestamp is already stored fails with a primary-key conflict (`Storage.DuplicateTimestampFails`). `Storage.DatabaseManager` and `Polling.Poll` start from a file with no table, which is an assumption of this model.
- **A packing error escapes the handlers.** An out-of-range timestamp or command raises `struct.error` at tss_updater.py:59, before the `try` block, so none of the handlers converts it (`Wire.PackFailed`).

## Left out

- Network I/O is not modelled as real traffic. What `sendto` does is an input, and what `recvfrom` gets after a request is an input function of the packet sent (`Wire.Exchange`). Nothing ties that datagram to this request: it is whatever is queued on the socket.
- Wire.Fetch: the destination address `(tss_ip, tss_port)` is not part of the exchange, so the model does not say where the datagram goes.
- The clock is an input. `int(time.time())` is read in three places: inside `fetch_data` (`Exchange.clock`), once per cycle (`CycleInput.now`), and as `create_time` in `DatabaseManager.__init__` (tss_api.py:85), which nothing in the core reads again and which is not modelled. The first two are inputs, with no relation assumed between them.
- The socket's 2.0 s timeout is kept only as a value. Elapsed time and the deadline itself are not modelled; a timeout is an exchange outcome.
- UTF-8 decoding, `json.loads`, `json.dumps` and `urllib.parse.unquote` are function parameters, because they are library code outside the system. The only property assumed of the serialiser is that it serialises null as `"null"` (`Storage.DumpsNull`).
- Concurrency is not modelled: `asyncio.to_thread`, `asyncio.sleep(1)`, task cancellation, and connects or disconnects that interleave with a broadcast. Cycles run one after another. Cancellation between cycles is the end of the input sequence, and the set of connections whose sends fail is fixed for each cycle.
- Registry.ConnectionManager.BroadcastCategory: the snapshot's order is any listing of the subscriber set, not CPython's hash order. A failing `close()` on a dead connection is swallowed in the source, and it is not modelled separately.
- Registry.WebsocketEndpoint: `websocket.accept()`, the `receive_text` loop and the FastAPI routing are not modelled. The disconnect that follows `WebSocketDisconnect` is `Registry.ConnectionManager.Disconnect`.
- The FastAPI application, `lifespan` and the module-level objects are framework wiring and are not modelled.
- The database file's path, the logs directory and the creation timestamps in `DatabaseManager.__init__` are not modelled. The model assumes each manager starts from a file with no table. The file name does not guarantee this; see "File names can repeat" under "## Behaviour worth noting".
- SQLite is modelled as its one `telemetry` table. Column types, connections and commits are not modelled, and a failed statement is assumed to leave the file unchanged.
- The `input("Enter TSS IP: ")` prompt is the parameter `enteredIp`.
- The text printed for a failed cycle is not modelled. The log holds the exception as a `Polling.CycleError` value.
- Exceptions that no line of tss_updater.py or tss_api.py raises are not modelled, for example a `MemoryError` or a cancellation in the middle of a cycle.
- Wire.Fetch: `ConnectionErr` carries the socket error's reason but not the formatted message text. `TimeoutErr` and `JsonErr` carry no text.
- Storage.CreateTable: column names are compared exactly, whereas SQLite compares them case-insensitively. The two agree on the all-lowercase names init_db uses.
- Wire.Received: an oversized datagram is cut to its first 8192 bytes, which is what POSIX `recvfrom` does. On Windows the same call raises `OSError` instead, which `fetch_data` would report as `ConnectionError`. That platform difference is not modelled.
- Floating-point JSON numbers are abstract `real` values; IEEE behaviour is not modelled.
- The files under `AIA/` (speech, language model, document search) are not part of this model.
