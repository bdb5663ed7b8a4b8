# Carrier TPS allocation — a Dafny model

This project models the core of a carrier-capacity service for an SMS
platform. Customers ask for a number of transactions per second (TPS) towards
a set of destination countries, optionally within an hour window. The service
answers in one of two ways:

- it rejects the request, with one of four messages;
- it splits the TPS over the carriers that can serve it, and subtracts each
  carrier's share from that carrier's headroom in the carrier profile table.

The model covers four parts of the system.

- **Allocation engine** (`lp_solver.dfy`, module `LpSolver`).
  - `allocate_customer_capacity` works in stages:
    1. it keeps the carriers that support one of the requested destinations;
    2. it adds each carrier's `max_allocatable_tps`;
    3. it keeps the carriers whose derived peak window overlaps the requested
       window;
    4. it formulates a linear program over the carriers that are left and hands
       it to a solver;
    5. it shapes the solver's vector into rounded per-carrier allocations;
    6. it commits them.
  - The commit is `update_allocatable_tps`, a method of the class
    `CarrierProfileTable`, whose field `rows` is the table.
  - The solver is an oracle argument. It is modelled by the subset type
    `LinearPrograms.Solver`: every vector it reports as solved is feasible.
  - The model proves three things about the engine:
    - each rejection happens exactly under its condition;
    - a solved vector meets the request in its own terms, and the rounded
      allocations meet it within half a hundredth per carrier;
    - the commit leaves everything other than the allocated carriers'
      headroom unchanged.
- **Profile analytics** (`data_analyst.dfy`, module `DataAnalyst`). The
  row-level SQL expressions that produce the carrier and customer profile
  columns the engine reads:
  - the peak window `[h-4, h+3]` clipped to the day;
  - the noon default for a carrier without traffic;
  - the allocatable headroom;
  - the first-match `CASE` classifiers (compliance, utilisation, capacity
    level, performance rating, busiest period).
- **Request signatures** (`hmac_generator.dfy`, module `HmacGenerator`, with
  the byte encodings in `encoding.dfy`, module `Encoding`).
  - `HmacSignatureBuilder` is a class with nine fields, a fluent setter for
    each, and `build`. `build` rejects a builder whose required fields are
    missing. Otherwise it feeds the canonical message to a keyed MAC: the
    fields one per line, each followed by a line feed, then a final line feed.
  - The hex and Base64 renderings are proved to read back to the signature.
  - The canonical message is proved to determine its line-free fields.
  - `get_signature` ties the fixed constants to that builder.
- **Chat front end** (`chat_app.dfy`, module `ChatApp`).
  - The session gate of the login, chat, message and logout handlers, as the
    class `ChatServer` over its session map.
  - The `fixed_messages` loop, which normalises the posted messages before
    they go to the LLM client. The LLM client is an argument, and the class
    keeps a ghost record of its calls.

`duckdb_casts.dfy` (module `DuckDbCasts`) holds DuckDB's two casts to
INTEGER: a DOUBLE rounds halves to even, a DECIMAL rounds halves away from
zero. `allocatable_tps` is an INTEGER column, so every value the commit writes
is rounded to an integer.

`wrappers.dfy` holds `Option` and `Result`. `linear_programs.dfy` holds the
shape of a linear program in `linprog` form (`A_ub x <= b_ub`,
`A_eq x = b_eq`, bounds) and what it means for a vector to be feasible.

The model follows the code where its documentation says otherwise:

- The capacity stage removes no carrier. A carrier with no headroom stays,
  with an upper bound of 0. For that reason the "requested TPS" error after
  that stage can never be returned (`CapacityStageKeepsEveryCarrier`,
  `AllocateCustomerCapacity`).
- A request without a window uses `"0-23"` (hours 0 to 23 with 23 excluded
  by the overlap test), not a full day.

## Model

| member | source | states |
|---|---|---|
| `LpSolver.AllocateCustomerCapacity` | lp_solver.py:11-124 | Each of the three reachable rejections is returned exactly under its condition (no carrier for the destinations; none left after the window filter; the solver failed). The "requested TPS" rejection never occurs. A rejection leaves the table untouched. On success, the request lists a destination, the solved vector meets the request, and the allocations are the positive shares, rounded, with distinct carriers. `total_requested_tps` is the truncated request, `total_allocated_tps` the rounded vector sum, and the table becomes the committed table. |
| `LpSolver.CarrierProfileTable.UpdateAllocatableTps` | lp_solver.py:127-137 | The table becomes `Committed(old rows, allocations)`: one keyed update per allocation, in order, each storing the floored difference rounded to an integer. The invariant "unique carrier names, no negative headroom" is kept. |
| `LpSolver.CarrierProfileTable.constructor` | lp_solver.py:14-23 | The table holds the rows read from `carrier_profile`. Given rows with distinct carrier names (the profile is grouped by carrier) and no negative headroom, the table invariant holds. |
| `LpSolver.FormulateProgram` | lp_solver.py:70-101 | The nested loops build exactly `Formulation`: the all-ones objective and equality row, one coverage row per destination, the right-hand sides `-requested/k` and the bounds `[0, cap_i]`. |
| `LpSolver.ShapeAllocations` | lp_solver.py:108-114 | The allocations list holds the carriers whose share is positive, in filtered order, each with its share rounded to hundredths. |
| `LpSolver.Truncate` | lp_solver.py:121 | Python `int()` of a number rounds toward zero: `n <= x < n+1` for `x >= 0`, `n-1 < x <= n` below 0. |
| `LpSolver.Round2` | lp_solver.py:113 | `round(x, 2)` is within half a hundredth of `x`, and is non-negative for non-negative `x`. |
| `LpSolver.Keep` | lp_solver.py:28-32 | A boolean-mask filter keeps exactly the elements that pass, and never lengthens the sequence. |
| `LpSolver.KeepAppend` | lp_solver.py:28-32 | Filtering a concatenation is the concatenation of the filtered parts, so the filter keeps table order. |
| `LpSolver.KeepIdempotent` | lp_solver.py:62 | Applying the same filter twice equals applying it once. |
| `LpSolver.KeepDistinct` | lp_solver.py:62 | Filtering keeps carrier names distinct. |
| `LpSolver.KeepNone` | lp_solver.py:34-35 | A filter that no row passes leaves an empty frame. |
| `LpSolver.DestinationStageMembers` | lp_solver.py:28-32 | Stage 1 keeps exactly the carriers that support at least one requested destination. |
| `LpSolver.DestinationStageNeedsDestinations` | lp_solver.py:84 | Whenever a carrier survives stage 1, the request lists a destination, so the division by `num_dest` is defined. |
| `LpSolver.DisjointDestinationsRejected` | lp_solver.py:28-35 | When no carrier supports any requested destination, stage 1 is empty, whatever the capacities and windows. |
| `LpSolver.MaxAllocatable` | lp_solver.py:37-43 | `compute_allocatable_tps` is never negative. An unconvertible (NULL) cell gives 0. A non-negative integer cell gives its value, and a negative one gives 0. |
| `LpSolver.CapacityStageKeepsEveryCarrier` | lp_solver.py:45-48 | The capacity column adds a non-negative bound to every row and removes none, so the emptiness check after it is dead when stage 1 kept a carrier. |
| `LpSolver.CapacityStageDistinct` | lp_solver.py:45 | Adding the capacity column keeps carrier names distinct. |
| `LpSolver.PeakOverlapsIsSharedHour` | lp_solver.py:56-60 | For non-empty windows the overlap test holds exactly when some hour lies in both half-open ranges `[start, end)`. |
| `LpSolver.RequestWindow` | lp_solver.py:52-54 | A request without `peak_window` uses `0-23`; otherwise the window is the one given. |
| `LpSolver.PeakStageMembers` | lp_solver.py:56-62 | Stage 3 keeps exactly the carriers with `carrier_end > req_start` and `carrier_start < req_end`. |
| `LpSolver.DefaultWindowAdmitsProfiledCarriers` | lp_solver.py:52-62 | Every carrier window the analytics job derives from an hour of the day overlaps the default window. |
| `LpSolver.PeakEndHourNotMatched` | lp_solver.py:56-60 | The derived window spans eight hours counting both ends. A request for its end hour alone does not overlap it, because the test treats that end as excluded. |
| `LpSolver.EligibleNeedsDestinations` | lp_solver.py:64-84 | A non-empty eligible set implies the request lists a destination. |
| `LpSolver.EligibleDistinct` | lp_solver.py:28-62 | The three stages keep carrier names distinct. |
| `LpSolver.FormulationShape` | lp_solver.py:76-101 | The formulated program's objective and equality row are all ones. Its right-hand side is the request. It has one row per listed destination (duplicates included), with -1 exactly at the supporting carriers and right-hand side `-requested/k`. Its bounds are `[0, cap_i]`. |
| `LpSolver.DotSupportRow` | lp_solver.py:93-99 | A destination's constraint row, applied to `x`, is minus the TPS that carriers supporting that destination supply. |
| `LpSolver.FormulationFeasibleIff` | lp_solver.py:76-103 | A vector is feasible for the formulated program if and only if it meets the request: within the bounds, summing to the request, and giving each destination at least its even share from its supporting carriers. |
| `LpSolver.PositiveIndices` | lp_solver.py:109-110 | The positions of positive shares, ascending and complete. |
| `LpSolver.ShapedFollowsPositiveIndices` | lp_solver.py:108-114 | The k-th allocation belongs to the k-th carrier with a positive share and carries that share rounded. |
| `LpSolver.ShapedDistinct` | lp_solver.py:108-114 | Distinct eligible carriers give an allocation list with distinct carriers. |
| `LpSolver.ShapedTotalNear` | lp_solver.py:113 | The rounded allocations add up to the vector's sum, within half a hundredth per carrier. |
| `LpSolver.RoundedSuppliedNear` | lp_solver.py:113 | Rounding lowers no destination's supplied TPS by more than half a hundredth per carrier. |
| `LpSolver.AllocationMeetsRequest` | lp_solver.py:103-114 | For a vector that meets the request, the rounded allocations conserve the requested TPS within tolerance. Every destination still receives its even share within tolerance. No carrier is given more than its capacity plus the rounding. |
| `LpSolver.Decremented` | lp_solver.py:133-137 | The stored value is never negative. When there is room it is the difference rounded to the nearest integer; otherwise it is 0. It never grows a non-negative cell by a non-negative amount. An allocation of at most 0.5 leaves the cell unchanged. A NULL cell ends at 0. |
| `LpSolver.DecrementedRounds` | lp_solver.py:133-137 | A headroom of 30 less 12.34 is stored as 18, and 30 less 0.4 stays 30. |
| `LpSolver.RejectionMessageInjective` | lp_solver.py:35-106 | The four error messages are distinct, so each error exit can be told apart by its message. |
| `LpSolver.CommitTouchesOnlyCapacity` | lp_solver.py:127-137 | The commit keeps the rows, their order, names, windows and countries, and keeps every headroom non-negative. |
| `LpSolver.CommitPerCarrier` | lp_solver.py:127-137 | With each carrier allocated at most once, an allocated carrier's headroom becomes `Decremented` of its old value (the floored difference, rounded to an integer) and every other row is unchanged. |
| `LinearPrograms.DotOnes` | lp_solver.py:76-80 | The all-ones row applied to `x` is the sum of `x`. |
| `DataAnalyst.PeakStartTime` | data_analyst.py:310 | `GREATEST(0, h-4)` is at least 0 and at least `h-4`, and equals one of them. |
| `DataAnalyst.PeakEndTime` | data_analyst.py:311 | `LEAST(23, h+3)` is at most 23 and at most `h+3`, and equals one of them. |
| `DataAnalyst.PeakWindowWithinDay` | data_analyst.py:310-311 | For an hour of the day the window lies within the day and contains the hour. It spans 3 to 7 hours, and exactly 7 if and only if `4 <= h <= 20`. |
| `DataAnalyst.CarrierPeakHour` | data_analyst.py:257 | The detected peak hour, or `DEFAULT_PEAK_HOUR` (noon) when none was detected; an hour of the day whenever the detected one is. |
| `DataAnalyst.NoTrafficPeakWindow` | data_analyst.py:257-311 | A carrier without traffic gets the window 8 to 15. |
| `DataAnalyst.TotalAllocatedTps` | data_analyst.py:295 | The sum of approved allocations, or 0 for a carrier with none. |
| `DuckDbCasts.CastDoubleToInteger` | data_analyst.py:314 | `CAST(x AS INTEGER)` of a DOUBLE is within half of `x`. Off the halves it is the unique nearest integer, and on a half it is even. |
| `DuckDbCasts.CastDecimalToInteger` | lp_solver.py:135 | `CAST(x AS INTEGER)` of a DECIMAL is the nearest integer with halves away from zero, and keeps the sign. |
| `DuckDbCasts.CastDoubleToIntegerUnique` | data_analyst.py:314 | Any integer within half of `x` that is even on a half is the DOUBLE cast of `x`, so the cast's contract fixes its value. |
| `DuckDbCasts.CastOfInteger` | data_analyst.py:314 | An integral value casts to itself under either rule. |
| `DuckDbCasts.CastsAgreeOffHalves` | data_analyst.py:314 | Off the halves the two casts give the same integer. |
| `DuckDbCasts.CastsDifferOnHalves` | data_analyst.py:314 | On a half they differ: 86.5 is 86 as a DOUBLE and 87 as a DECIMAL. |
| `DataAnalyst.AllocatableTps` | data_analyst.py:314 | The headroom is `max(0, allowed - actual - COALESCE(approved, 0))` cast to INTEGER: it lies within half of that value, strictly off the halves, and is even on a half. With no approved allocations, or an integral approved total, it is exactly `max(0, allowed - actual - approved)`. It is never negative, and never above the allowed TPS for non-negative usage. |
| `DataAnalyst.AllocatableTpsUnique` | data_analyst.py:314 | The headroom is the only integer within half of the clamped free capacity that is even on a tie. |
| `DataAnalyst.HalfHeadroomRoundsToEven` | data_analyst.py:314 | Allowed 100, actual 0 and approved 13.5 give a headroom of 86: the DOUBLE cast rounds the half to even. |
| `DataAnalyst.FirstExceeded` | data_analyst.py:317-322 | A first-match `CASE WHEN x > t ...` takes the first threshold that `x` exceeds: `x` exceeds none of the earlier ones. |
| `DataAnalyst.FirstExceededMonotone` | data_analyst.py:317-322 | A larger value never takes a later branch. |
| `DataAnalyst.InContractPercentage` | data_analyst.py:109-110 | The percentage times the total equals the in-contract count times 100. It is never negative, and at most 100 when the in-contract count does not exceed the total. |
| `DataAnalyst.ContractCompliance` | data_analyst.py:108-112 | COMPLIANT above 80, PARTIALLY_COMPLIANT above 50 up to 80, NON_COMPLIANT otherwise, each as an if-and-only-if. |
| `DataAnalyst.TpsUtilizationLevel` | data_analyst.py:115-119 | HIGH above 0.9 of the allocation, MEDIUM above 0.5 up to 0.9, LOW otherwise, each as an if-and-only-if. |
| `DataAnalyst.CapacityUtilizationLevel` | data_analyst.py:317-322 | OVER_CAPACITY, HIGH, MEDIUM or LOW against 0.9, 0.7 and 0.3 of the allowed TPS, first match wins, each as an if-and-only-if. |
| `DataAnalyst.CapacityUtilizationMonotone` | data_analyst.py:317-322 | For the same allowed TPS, a larger load never yields a lower level. |
| `DataAnalyst.DeliverySuccessRate` | data_analyst.py:251-254 | 0 for a carrier that handled nothing; otherwise successes times 100 over handled, between 0 and 100. |
| `DataAnalyst.PerformanceRating` | data_analyst.py:325-330 | EXCELLENT above 95, GOOD above 90, AVERAGE above 80, POOR otherwise, each as an if-and-only-if. |
| `DataAnalyst.IdleCarrierRatedPoor` | data_analyst.py:251-330 | A carrier that handled nothing is rated POOR. |
| `DataAnalyst.Greatest4` | data_analyst.py:132-134 | `GREATEST` of four counts bounds each of them and equals one of them. |
| `DataAnalyst.PeakPeriodOf` | data_analyst.py:131-136 | The customer's busiest period is the first bucket (night, morning, afternoon, evening) whose count is the greatest. |
| `DataAnalyst.CarrierPeakPeriod` | data_analyst.py:350-356 | NO_TRAFFIC if and only if the carrier handled nothing; otherwise the customer rule. |
| `HmacGenerator.HmacSignatureBuilder.constructor` | hmac_generator.py:13-22 | Every field starts unset. |
| `HmacGenerator.HmacSignatureBuilder.SetAlgorithm` | hmac_generator.py:24-26 | Sets the algorithm, changes no other field, and returns the same builder. |
| `HmacGenerator.HmacSignatureBuilder.SetHost` | hmac_generator.py:28-30 | Sets the host, changes no other field, and returns the same builder. |
| `HmacGenerator.HmacSignatureBuilder.SetApiKey` | hmac_generator.py:32-34 | Sets the API key, changes no other field, and returns the same builder. |
| `HmacGenerator.HmacSignatureBuilder.SetMethod` | hmac_generator.py:36-38 | Sets the HTTP method, changes no other field, and returns the same builder. |
| `HmacGenerator.HmacSignatureBuilder.SetResource` | hmac_generator.py:40-42 | Sets the resource, changes no other field, and returns the same builder. |
| `HmacGenerator.HmacSignatureBuilder.SetContentType` | hmac_generator.py:44-46 | Sets the content type, changes no other field, and returns the same builder. |
| `HmacGenerator.HmacSignatureBuilder.SetDate` | hmac_generator.py:48-50 | Sets the date, changes no other field, and returns the same builder. |
| `HmacGenerator.HmacSignatureBuilder.SetNonce` | hmac_generator.py:52-54 | Sets the nonce, changes no other field, and returns the same builder. |
| `HmacGenerator.HmacSignatureBuilder.SetApiSecret` | hmac_generator.py:56-61 | Text is stored as its UTF-8 bytes; bytes, `None` and other values are stored as given. |
| `HmacGenerator.HmacSignatureBuilder.Build` | hmac_generator.py:63-88 | Returns `Signature(State())` and changes no field. Missing required fields raise ValueError. A key that is not bytes raises TypeError. An unknown hash raises ValueError. Otherwise it returns the MAC of the canonical message. |
| `HmacGenerator.HmacSignatureBuilder.IsHashEquals` | hmac_generator.py:90-93 | Propagates the build error; otherwise reports whether the signature equals the expected bytes. |
| `HmacGenerator.HmacSignatureBuilder.BuildAsHexString` | hmac_generator.py:95-96 | The upper-case hex of the signature: twice its length, only `0-9A-F`, and it decodes back to the signature. |
| `HmacGenerator.HmacSignatureBuilder.BuildAsBase64String` | hmac_generator.py:98-99 | The standard Base64 text of the signature: `4*ceil(n/3)` characters, and it decodes back to the signature. |
| `HmacGenerator.GetSignature` | hmac_generator.py:102-120 | The error of the fixed builder, or the Base64 text of its signature. |
| `HmacGenerator.CanonicalMessageWritten` | hmac_generator.py:69-84 | The framed message is exactly what the sequence of `update` calls writes. An absent nonce writes nothing before its line feed. |
| `HmacGenerator.MessageNewlines` | hmac_generator.py:69-84 | The message holds eight line feeds beyond those inside the fields. |
| `HmacGenerator.MessageSplit` | hmac_generator.py:69-84 | With line-free fields, splitting the message at line feeds gives back the seven encoded fields and two empty pieces. |
| `HmacGenerator.MessageInjective` | hmac_generator.py:69-84 | Two line-free field tuples that sign the same message are equal; an absent nonce and an empty one coincide. |
| `HmacGenerator.ErrorMessageInjective` | hmac_generator.py:66 | The build errors have distinct messages. |
| `HmacGenerator.SignatureCases` | hmac_generator.py:63-68 | The missing-fields error occurs if and only if a required field is unset or empty. The key error occurs if and only if the fields are present and the key is not bytes. A signature is the MAC of the canonical message under the stored algorithm and key. |
| `Encoding.CountAppend` | hmac_generator.py:69-84 | Counting a byte in a concatenation adds the counts in the parts. |
| `Encoding.CountZero` | hmac_generator.py:69-84 | A count is zero if and only if the element does not occur. |
| `Encoding.Utf8Char` | hmac_generator.py:58 | A code point encodes to 1 to 4 bytes, one byte exactly for ASCII, and otherwise a lead byte followed by continuation bytes. |
| `Encoding.Utf8CharRoundTrip` | hmac_generator.py:58 | Decoding a code point's bytes gives back the code point. |
| `Encoding.Utf8CharLead` | hmac_generator.py:58 | The lead byte announces the sequence length. |
| `Encoding.Utf8CharInjective` | hmac_generator.py:58 | Distinct code points have distinct encodings. |
| `Encoding.Utf8CharNewline` | hmac_generator.py:69-84 | Only `\n` encodes to a line feed byte. |
| `Encoding.Utf8` | hmac_generator.py:69-84 | `str.encode('utf-8')` takes between one and four bytes per character. |
| `Encoding.Utf8Append` | hmac_generator.py:69-84 | Encoding distributes over concatenation. |
| `Encoding.Utf8Injective` | hmac_generator.py:69-84 | Distinct strings have distinct encodings. |
| `Encoding.Utf8Newlines` | hmac_generator.py:69-84 | The line feed bytes of an encoding are the `\n` characters of the string. |
| `Encoding.Utf8NoNewline` | hmac_generator.py:69-84 | A string without `\n` encodes without a line feed byte. |
| `Encoding.Split` | hmac_generator.py:11 | Splitting at a delimiter gives one more piece than the delimiter count. |
| `Encoding.FramedSnoc` | hmac_generator.py:69-84 | Appending a piece to a framed message appends the piece and one delimiter. |
| `Encoding.FramedEight` | hmac_generator.py:69-84 | Framing eight pieces writes each piece followed by a delimiter. |
| `Encoding.FramedCount` | hmac_generator.py:69-84 | A framed message holds one delimiter per piece beyond those inside the pieces. |
| `Encoding.SplitFramed` | hmac_generator.py:69-84 | Splitting a framed message of delimiter-free pieces gives back the pieces and a final empty piece. |
| `Encoding.SplitPiece` | hmac_generator.py:69-84 | Splitting a delimiter-free piece followed by a delimiter peels off that piece. |
| `Encoding.Hex` | hmac_generator.py:96 | `bytes.hex()` writes two characters per byte. |
| `Encoding.UpperAscii` | hmac_generator.py:96 | `str.upper()` keeps the length. |
| `Encoding.UpperHexValue` | hmac_generator.py:96 | An upper-case hex digit has a value below 16. |
| `Encoding.UpperHexDigitValue` | hmac_generator.py:96 | Every nibble writes an upper-case hex digit that reads back to it. |
| `Encoding.UpperHexRoundTrip` | hmac_generator.py:96 | The upper-cased hex of bytes has twice their length, uses only `0-9A-F`, and decodes back to them. |
| `Encoding.Base64Value` | hmac_generator.py:99 | A Base64 character has a value below 64. |
| `Encoding.Base64DigitValue` | hmac_generator.py:99 | Every sextet writes an alphabet character, not padding, that reads back to it. |
| `Encoding.Sextets` | hmac_generator.py:99 | Three bytes split into four sextets. |
| `Encoding.Octets` | hmac_generator.py:99 | Four sextets join into three bytes. |
| `Encoding.SextetsOctets` | hmac_generator.py:99 | Joining the sextets of three bytes gives back the bytes. |
| `Encoding.Quad` | hmac_generator.py:99 | A group encodes to four characters, with `=` padding exactly where one or two bytes are missing. |
| `Encoding.QuadOctets` | hmac_generator.py:99 | Decoding a group gives back its one to three bytes. |
| `Encoding.Base64` | hmac_generator.py:99 | `b64encode` writes `4*ceil(n/3)` characters, all from the alphabet or padding. |
| `Encoding.Base64RoundTrip` | hmac_generator.py:99 | Decoding the Base64 text of bytes gives back the bytes. |
| `ChatApp.MessagesOf` | app.py:40-45 | The body yields messages exactly when it is an object whose `messages` key is missing, a list, an empty string or an empty object; anything else raises. A list yields its items, and only a list yields any message. |
| `ChatApp.NormalizedContent` | app.py:47-55 | Text becomes one `{"text": ...}` part, a list is kept as it is, and anything else (missing included) becomes `[]`. |
| `ChatApp.NormalizeRoundTrip` | app.py:44-60 | A message already in the fixed shape passes through unchanged. |
| `ChatApp.NormalizeIdempotent` | app.py:44-60 | Normalising twice equals normalising once. |
| `ChatApp.FixMessages` | app.py:44-60 | The loop succeeds if and only if every message is an object. It keeps the length and order, and each output is the normalised input. |
| `ChatApp.FixedMessagesShape` | app.py:40-60 | The handler's messages keep the input's length and order. Each role is the input's role (null when missing), and each content follows the content rule. |
| `ChatApp.ChatServer.constructor` | app.py:11-14 | A new server has an empty session and no LLM call yet. |
| `ChatApp.ChatServer.Login` | app.py:17-26 | GET renders the login page. A POST without both form fields is a bad request. The password `1234` stores the key under `api_key` and redirects to the chat page. Any other password answers 401 and leaves the session alone. |
| `ChatApp.ChatServer.Chat` | app.py:29-33 | The chat page is shown only with `api_key` in the session; otherwise the client is redirected to the login page. |
| `ChatApp.ChatServer.ChatMessage` | app.py:36-63 | Without `api_key`: 403 `Not authenticated` and no LLM call. A malformed body: a server error and no LLM call. Otherwise exactly one LLM call with the session key and the fixed messages, and its answer under `reply`. The session is never changed. |
| `ChatApp.ChatServer.Logout` | app.py:66-69 | The session is emptied and the client is redirected to the login page. |
| `ChatApp.LogoutLocksChat` | app.py:36-39 | After logout, a message is refused with 403 and the LLM is not called, whatever the body. |

## Left out

- Malformed requests are not modelled: the `Request` datatype always has a numeric `requested_tps`, a list of `destinations` and a well-formed window. The code raises instead of answering when a key is missing (a KeyError at lp_solver.py:30, 72 or 80), when `requested_tps` is not numeric (a TypeError at lp_solver.py:84), and when `"peak_window"` is null (an AttributeError at lp_solver.py:52).
- Solving the linear program is left out: `linprog` (HiGHS) is an oracle argument. The model assumes only that a solved vector is feasible. Optimality, which adds nothing here because the objective equals the requested total, is not modelled.
- Floating point is left out: all quantities are exact reals.
- LpSolver.Round2: rounds halves up and states only closeness within half a hundredth, not Python's exact tie rule on binary doubles.
- LpSolver.AllocateCustomerCapacity: the solver's tolerance is not modelled; a solved vector is taken to be exactly feasible.
- Reading `carrier_profile` is left out. So are `ast.literal_eval` of the country list and the `"start-end"` parse of the window: rows arrive parsed, and a window is a pair of integers. A malformed window string, which raises in the code, is not modelled.
- The allowed and actual TPS columns the engine selects but never uses are left out.
- A missing `allocatable_tps` value is modelled as `Null`. pandas reads it as NaN, which `int()` rejects, so the bound is 0. When the commit meets such a cell it stores 0, on the assumption that DuckDB's `GREATEST` skips NULL.
- LpSolver.Decremented: assumes each allocated amount reaches the UPDATE as a decimal literal. A float that Python prints in exponent form would be a DOUBLE, which rounds halves to even; that case is not modelled.
- The commit is modelled as keyed updates on the in-memory table. The SQL text, its quoting of the carrier name, the database connection and concurrent requests are not modelled.
- The customer API key argument of `allocate_customer_capacity` is left out, because the code never reads it.
- The `print` and `logger.debug` output is left out, because it does not affect results.
- In the analytics job, the aggregation queries (`COUNT`, `SUM`, `MODE`, joins, date arithmetic, JSON construction) and the DuckDB I/O are left out; each expression takes the aggregated values as arguments.
- HMAC and SHA-512 internals are left out: the keyed MAC is an argument returning `None` for an unknown hash name. Key-type checking is modelled before the digest lookup, following `hmac.new`. The messages of the two `hmac.new` errors are only the fixed prefixes of CPython's texts, which go on to name the key's type or the digest.
- The setters of the builder take only strings or `None`; values of other types, which Python would store and later fail on, are not modelled. `set_apiSecret` stores text as its UTF-8 bytes, a bytes-like value (`bytes` or `bytearray`) as the key bytes `KeyBytes`, and `None` as unset. It keeps a value of any other type as `NotBytes`, which `hmac.new` rejects.
- The `hmac` digest object is modelled as the bytes fed to it so far; its incremental state is not.
- `hmac.compare_digest`'s constant-time behaviour and its rejection of a text argument are left out: `IsHashEquals` compares bytes.
- Python strings may hold lone surrogates, which `encode('utf-8')` rejects; Dafny's `char` excludes surrogates, so that error path is not modelled.
- The environment variables read by `get_signature` (`os.getenv`) are arguments.
- Flask routing, templates, redirects and `jsonify` are reduced to the reply values. The `get_json` content-type and parse errors are folded into `MalformedRequest`. The filesystem-backed session store is modelled as a single client's session map.
- The LLM client (`llm_client.py`) is an argument, and the scheduler (`scheduler.py`) is not part of this model.
