# Q&A web service: verified model of its decision logic

The service is a question-and-answer REST server written in Rust on warp and sqlx. Clients list, fetch, post, update and delete questions. They register and log in, and they carry a PASETO session token in the `Authorization` header. This project models in Dafny the parts of the service that decide something:

- **`handle-errors`**: the closed `Error` enum, its `Display` texts and `return_error`. `return_error` is the recovery step that turns every warp rejection into a status and a body.
- **Query-string pagination** (`types/pagination.rs`): `limit` and `offset`. A missing or unreadable value falls back to its default. The `u32` to `i32` cast wraps around.
- **The earlier in-memory service** (`src/main.rs`):
  - a `HashMap` store mutated in place;
  - a strict `start`/`end` window;
  - a smaller `return_error`.
- **The question handlers of the database-backed service** (`routes/question.rs`):
  - ownership gating;
  - profanity filtering before every write;
  - defaulting of the listing window.
  - The database is a class over tables (`store.rs`).
- **Registration, login, token issue and verification, and the `auth` filter** (`routes/authentication.rs`). Hashing, token sealing and validation are function values. The clock is a parameter.
- **Id parsing and `Display`** (`types/question.rs`, `types/answer.rs`).

Rust's own behaviour is written out in `rust_std.dfy` wherever the service depends on its edge cases:
- `str::parse` for `u32`, `usize` and `i32`, with the `ParseIntError` kind it reports;
- integer `Display`;
- `Debug` of strings.

Warp's rejection is written out in `warp.dfy`. It is a list of causes, and `find` returns the first cause of a given type.

Modules follow the source files:

| module | file | models |
|---|---|---|
| `Wrappers` | wrappers.dfy | `Option`, `Result` |
| `RustStd` | rust_std.dfy | integer widths, integer parsing and printing, `io::Error`, string `Debug` |
| `Warp` | warp.dfy | rejections, `find`, replies |
| `HandleErrors` | handle_errors.dfy | `handle-errors/src/lib.rs` |
| `TypesPagination` | pagination.dfy | `src/types/pagination.rs` |
| `TypesQuestion`, `TypesAnswer`, `TypesAccount` | question_types.dfy, answer_types.dfy, account_types.dfy | `src/types/*.rs` |
| `Listing` | listing.dfy | enumeration order of a map, `skip`/`take` |
| `Store` | store.dfy | the tables behind `src/store.rs` |
| `RoutesQuestion` | question_routes.dfy | `src/routes/question.rs` |
| `RoutesAuthentication` | authentication.dfy | `src/routes/authentication.rs` |
| `InMemoryService` | in_memory_service.dfy | `src/main.rs` |

Some modelling choices:

- **Database failures.** Every database round trip takes a `fault: Option<SqlxError>` argument: the driver error it meets instead of an answer, if any. Beyond that, the model raises PostgreSQL's own errors for the cases the tables decide:
  - 2201X for a negative offset;
  - 2201W for a negative limit;
  - 23505 for a duplicate email;
  - 2200H when a `serial` id sequence is exhausted.
- **Iteration order.** The order in which a `HashMap` or a `SELECT` without `ORDER BY` returns rows is unspecified. The model represents it as an `order` sequence that enumerates the keys exactly once:
  - a new key goes last;
  - overwriting a key keeps the order;
  - removing a key keeps the others in their relative order.
- **The profanity service** is a class. It holds the check it answers with, and a log of every text sent to it, so "no profanity call" is a stated postcondition.

## Model

| member | source | states |
|---|---|---|
| HandleErrors.ReturnError | handle-errors/src/lib.rs:47-146 | the recovery step always replies (`Ok`) and never rejects again, given that the duplicate-key test's `unwrap`s do not panic |
| HandleErrors.ErrorText | handle-errors/src/lib.rs:21-38 | every error's `Display` text starts with the four-character prefix of its variant |
| HandleErrors.PrefixNamesVariant | handle-errors/src/lib.rs:21-38 | the four-character prefix of an error's text names exactly its variant, so no two variants share one |
| HandleErrors.ErrorTextTellsVariantsApart | handle-errors/src/lib.rs:21-38 | two errors with the same `Display` text are of the same variant, and a fieldless variant's text belongs to it alone |
| HandleErrors.ErrorResponse | handle-errors/src/lib.rs:63-139 | the `Error` branches answer only 401, 422, 500, 404, 417 or 416; 422 exactly for a duplicate key; 500 exactly for the other server-side faults, with one of three fixed texts; a parse error answers "Parse error: " and the error's text |
| HandleErrors.ErrorReplies | handle-errors/src/lib.rs:63-139 | the status and body of every `Error` variant's reply: 417 "Missing Parameters", 416 "Invalid range", 417 "Parse error: " and the error's text, 404 "Question not found", 401 "Wrong E-Mail/Password combination", 401 "Unauthorized", 401 "Token Error", 422 "Account already exists" for a duplicate key, 500 "Database Query Error" for any other database error, 500 "External api error", and 500 "Internal server error" for the profanity service's client and server errors and argon2's errors, whatever detail they carry |
| HandleErrors.ReturnErrorCorrected | handle-errors/src/lib.rs:98-119 | the intended recovery step always replies; it agrees with `return_error` wherever that does not panic, and a database error other than a duplicate key answers 500 "Database Query Error" whatever its code |
| HandleErrors.InsertedIsFound | handle-errors/src/lib.rs:48-62 | `find` stops at an inserted cause when no earlier cause has its type |
| HandleErrors.CorsOutranksEverything | handle-errors/src/lib.rs:48-52 | a CORS rejection answers 403 with its own text, whatever else the rejection holds and wherever the CORS cause sits |
| HandleErrors.BodyErrorOutranksErrors | handle-errors/src/lib.rs:53-57 | without a CORS cause, a body-deserialize error answers 404 with its text, whatever other causes come with it |
| HandleErrors.InvalidIdOutranksErrors | handle-errors/src/lib.rs:58-62 | without CORS or body causes, `InvalidId` answers 422 "No valid ID presented", ahead of any `Error` |
| HandleErrors.FirstErrorDecides | handle-errors/src/lib.rs:63-139 | only the first custom `Error` of a rejection decides the answer: the answer equals `ErrorResponse` of that error alone |
| HandleErrors.FirstErrorIsFound | handle-errors/src/lib.rs:63-139 | `find::<Error>()` returns the first custom error when the causes before it are warp's own |
| HandleErrors.UnmatchedIsRouteNotFound | handle-errors/src/lib.rs:140-145 | a rejection made only of warp's own causes (`reject()` included) answers 404 "Route not found" |
| HandleErrors.StatusClassifiesError | handle-errors/src/lib.rs:63-139 | for a handler's error, one iff per status: 401 for the three authentication errors; 422 for a duplicate key; 500 for the other server-side faults; 404 for `QuestionNotFound`; 417 for a missing parameter or a parse error; 416 for `InvalidRange` |
| HandleErrors.ServerFaultsDoNotLeak | handle-errors/src/lib.rs:98-139 | a server-side fault answers one of three fixed texts, the same as with its wrapped detail blanked out: nothing of the wrapped error reaches the client |
| HandleErrors.DatabaseCodeResponse | handle-errors/src/lib.rs:98-119 | a database error with a numeric code never panics, and answers 422 "Account already exists" exactly for 23505 and 500 "Database Query Error" for any other code |
| HandleErrors.DuplicateKeyCode | handle-errors/src/lib.rs:45-119 | the driver code "23505" answers 422 "Account already exists"; another numeric code and `RowNotFound` answer 500 "Database Query Error" |
| Warp.FindIndex | handle-errors/src/lib.rs:48-140 | `find` returns the first position of the type asked for, or none exactly when no cause has that type |
| Warp.Find | handle-errors/src/lib.rs:48-140 | the cause found has the type asked for and is one of the rejection's causes; none is found exactly when no cause has that type |
| Warp.FindError | handle-errors/src/lib.rs:63-135 | `find::<Error>()` gives a custom error of the rejection, or none exactly when the rejection holds no custom error |
| Warp.MapCausesFind | src/main.rs:125-168 | translating custom errors keeps where every type is first found, and translates the error that is found |
| Warp.FindIndexDeterminedByTypes | handle-errors/src/lib.rs:48-140 | where `find` stops depends only on the types of the causes |
| RustStd.Step | handle-errors/src/lib.rs:101 | one digit of `str::parse`: a non-digit fails, and passing the type's bound fails |
| RustStd.Accumulate | handle-errors/src/lib.rs:101 | the digit loop stays within the bound, or fails with an invalid digit or the overflow of its sign |
| RustStd.AccumulateSnoc | handle-errors/src/lib.rs:101 | scanning one more digit continues the outcome of the digits before it |
| RustStd.AccumulateDenotes | handle-errors/src/lib.rs:101 | the digit loop accepts exactly the digit strings whose value is within the bound, and yields that value |
| RustStd.UnsignedParseMeaning | src/types/pagination.rs:30-33 | unsigned `parse` succeeds exactly on an optional `+` followed by one or more digits whose value fits, and yields that value |
| RustStd.ParseU32 | src/types/pagination.rs:30-33 | `parse::<u32>()` succeeds exactly on an unsigned literal of at most 2^32-1 and yields its value |
| RustStd.ParseUsize | src/main.rs:281-287 | `parse::<usize>()` succeeds exactly on an unsigned literal of at most 2^64-1 and yields its value |
| RustStd.ParseI32 | src/types/question.rs:12 | `parse::<i32>()`: the empty string is `Empty`; a `-` number parses exactly when its magnitude is at most 2^31 and yields its negation; any other input parses exactly as an unsigned literal of at most 2^31-1 |
| RustStd.NatToString | src/types/question.rs:3-7 | the decimal text of a number is non-empty, all digits, without a leading zero, and denotes the number |
| RustStd.Int32ToString | src/types/question.rs:3-7 | an `i32` displays as non-empty text without a comma that `parse::<i32>()` reads back as the same `i32` |
| RustStd.EscapeRoundTrip | src/types/question.rs:28-36 | the escaping `Debug` applies to the tags loses nothing: unescaping gives the original text back |
| TypesPagination.GetValue | src/types/pagination.rs:24-43 | a value that is present and reads as a `u32` gives that number; a missing or unreadable one gives the default |
| TypesPagination.New | src/types/pagination.rs:7-14 | `Pagination::new` never fails: the limit is present exactly when `limit` reads, with its value; the offset is `offset`'s value when it reads and 0 otherwise |
| TypesPagination.AsI32 | src/types/pagination.rs:15-23 | `as i32` agrees with its argument modulo 2^32, is non-negative exactly below 2^31, and is the identity there |
| TypesPagination.AsI32Injective | src/types/pagination.rs:15-23 | `as i32` on `u32` loses no information |
| TypesPagination.GetPagination | src/types/pagination.rs:46-50 | `get_pagination` is `Pagination::new` of the parameters: no limit and offset 0 when neither value reads |
| TypesPagination.GetLimit | src/types/pagination.rs:15-20 | the limit is absent exactly when none was read, and otherwise is the stored value cast to `i32` |
| TypesPagination.GetOffset | src/types/pagination.rs:21-23 | the offset is the stored value cast to `i32` |
| TypesPagination.OnlyLimitAndOffsetMatter | src/types/pagination.rs:7-14 | parameters other than `limit` and `offset` do not affect the pagination |
| TypesPagination.UnreadableIsMissing | src/types/pagination.rs:29-43 | a value that does not parse counts as no value at all |
| TypesPagination.LimitRoundTrip | src/types/pagination.rs:15-20 | a limit below 2^31 written as the `limit` parameter comes back unchanged from `get_limit` |
| TypesPagination.OffsetRoundTrip | src/types/pagination.rs:21-23 | an offset below 2^31 written as the `offset` parameter comes back unchanged from `get_offset` |
| TypesPagination.LargeLimitTurnsNegative | src/types/pagination.rs:15-20 | a limit from 2^31 to 2^32-1 parses, but reaches the store as that number less 2^32, a negative number |
| TypesPagination.PaginationTests | src/types/pagination.rs:57-146 | the module's unit tests: valid, missing offset, missing limit, missing both, and unparseable values |
| TypesQuestion.IdText | src/types/question.rs:3-7 | an id displays as non-empty text without a comma |
| TypesQuestion.FromStr | src/types/question.rs:8-19 | the empty string, and only it, is `InvalidInput` "No id provided"; any other input is the id `parse::<i32>()` gives |
| TypesQuestion.IdRoundTrip | src/types/question.rs:3-19 | reading back the text an id displays as gives the id |
| TypesQuestion.IndexOfAfter | src/types/question.rs:28-36 | the first comma of a question's text is the one right after its id |
| TypesQuestion.QuestionText | src/types/question.rs:28-36 | a question's text starts with its id's text, and its first comma comes right after the id |
| TypesQuestion.NewQuestionText | src/types/question.rs:44-52 | a new question's text starts with "New question: " |
| TypesQuestion.QuestionTextDeterminesId | src/types/question.rs:28-36 | two questions that display alike have the same id |
| TypesQuestion.QuestionAndNewQuestionTextsDiffer | src/types/question.rs:28-52 | a question's text never equals a new question's text: one starts with its id, the other with "New question: " |
| TypesAnswer.FromStr | src/types/answer.rs:10-21 | the empty string, and only it, is `InvalidInput` "No id provided"; any other text is accepted unchanged |
| TypesAnswer.AnswerIdRoundTrip | src/types/answer.rs:10-21 | an answer id reads back from its text exactly when it is non-empty |
| Listing.Values | src/main.rs:63-67 | the values of the map, one per key of the enumeration, in its order |
| Listing.Page | src/main.rs:63-67 | `skip`/`take`: empty past the end; otherwise the length is the smaller of the limit and what remains; the elements are those starting at position `skip` |
| Listing.PageWhole | src/routes/question.rs:5-11 | no offset and no limit leave the sequence whole |
| Listing.RemoveKey | src/main.rs:110-115 | removing a key from the enumeration keeps exactly the other keys |
| Listing.RemoveKeyKeepsOrder | src/main.rs:110-115 | after removing a key, the remaining values keep their relative order |
| Listing.RemoveKeyEnumerates | src/main.rs:110-115 | removing a key from an enumeration of the keys enumerates the keys without it |
| Listing.AppendEnumerates | src/main.rs:80-94 | appending a new key enumerates the enlarged key set |
| Store.Store.Listed | src/store.rs:30-43 | the rows' questions, one per row, in the table's order |
| Store.Store.SelectQuestions | src/store.rs:30-43 | `LIMIT $1 OFFSET $2` succeeds exactly when there is no fault and neither value is negative, and then is the page of the listing |
| Store.Store.SelectQuestion | src/store.rs:44-56 | `fetch_optional`: some question exactly when a row with the id exists, this row's question |
| Store.Store.IsQuestionOwner | src/store.rs:103-115 | true exactly when a row with this id and owner exists, so an absent id answers like someone else's |
| Store.Store.GetAccount | src/store.rs:147-159 | the account stored under the email, with its id; an unknown email is `RowNotFound` |
| Store.Store.AddQuestion | src/store.rs:57-72 | the new row takes the next serial id and goes last; its question is the one posted, under that id; nothing else changes; an exhausted sequence is 2200H |
| Store.Store.UpdateQuestion | src/store.rs:73-89 | an owned row keeps its id, owner and place and takes the new title, content and tags; otherwise `RowNotFound`, with nothing changed |
| Store.UpdateQuestionAsWritten | src/store.rs:73-89 | the query as written never updates: with no other fault it fails with 42883, `integer = text` |
| Store.UpdateAsWrittenIs500 | src/store.rs:73-89 | that failure reaches the client as 500 "Database Query Error", without a panic |
| Store.Store.DeleteQuestion | src/store.rs:90-102 | answers `true` whether or not a row went; an owned row is removed and the others keep their order |
| Store.Store.AddAccount | src/store.rs:133-145 | a new email gets a row with the next serial id and the given password; an exhausted sequence is 2200H, tested first because the serial default is drawn before the unique index is consulted; otherwise a known email is a unique violation (23505); nothing else changes |
| Store.DuplicateEmailIs422 | src/store.rs:133-145 | registering an email a second time reaches the client as 422 "Account already exists" |
| Store.NegativeWindowCodesAreUnreadable | handle-errors/src/lib.rs:101 | PostgreSQL's codes for a negative limit or offset are not numbers, so `return_error` would panic on them |
| RoutesQuestion.ProfanityFilter.CheckProfanity | src/routes/question.rs:38-41 | one call to the profanity service: its answer, and the text added to the log of calls |
| RoutesQuestion.Window | src/routes/question.rs:5-11 | an empty query lists from 0 without a limit; otherwise the limit and offset are the ones `Pagination::new` read, passed through the wrapping `as i32`: a limit is passed exactly when it reads, and the offset is non-negative exactly when it is missing, unreadable or below 2^31 |
| RoutesQuestion.LargeLimitPanics | src/routes/question.rs:5-16 | a `limit` from 2^31 to 2^32-1 reaches the store negative; the store answers 2201W, and `return_error` would panic on it |
| RoutesQuestion.LargeLimitAnswers500 | src/routes/question.rs:5-16 | the same request answers 500 "Database Query Error" with the corrected recovery step |
| RoutesQuestion.JsonOrReject | src/routes/question.rs:13-16 | a store result answers as JSON when it succeeds, and as its error, rejected as is, when it fails |
| RoutesQuestion.GetQuestions | src/routes/question.rs:1-19 | the store is called with the window of the query and its answer is passed on; an empty query lists everything; a store error is passed on unchanged |
| RoutesQuestion.GetQuestion | src/routes/question.rs:21-31 | the row's question as JSON, JSON `null` for an absent id, and a store error passed on unchanged |
| RoutesQuestion.AddQuestion | src/routes/question.rs:33-64 | both texts go to the profanity service; a failure of either, title first, rejects with nothing stored; when both checks pass, the store answers and the sequence has room, the reply is 201 "Question added"; the cleaned texts are then stored under the session's account, under the next id, last; the accounts and their sequence are untouched; an exhausted sequence is 2200H with nothing stored |
| RoutesQuestion.UpdateQuestion | src/routes/question.rs:67-99 | a non-owner, or an absent id, is `Unauthorized` with no profanity call and no write; for the owner the title and then the content are checked, and a failure stops before the write; the write keeps the id and owner and takes the cleaned texts; then 200 "Question updated"; the accounts and both sequences are untouched |
| RoutesQuestion.UpdateQuestionAsWritten | src/routes/question.rs:67-99 | with the query as written, an update never succeeds and changes nothing; the owner's valid update answers 500 "Database Query Error" |
| RoutesQuestion.DeleteQuestion | src/routes/question.rs:101-115 | the owner's row is removed and the reply is 200 "Question deleted"; anyone else, and an absent id, is `Unauthorized` with nothing removed; on success the accounts and both sequences are untouched |
| RoutesAuthentication.VerifyToken | src/routes/authentication.rs:72-83 | the session the token's claims decode to, exactly when the token validates and decodes; every failure is `TokenError` |
| RoutesAuthentication.Auth | src/routes/authentication.rs:85-96 | the token's session exactly when a header is there and the token verifies; a missing header is warp's header rejection; a bad token is the plain `reject()`, not `TokenError` |
| RoutesAuthentication.AuthFailureIsRouteNotFound | handle-errors/src/lib.rs:140-145 | whatever stops `auth` reaches the client as 404 "Route not found" |
| RoutesAuthentication.TokenWindow | src/routes/authentication.rs:57-83 | a token issued at a time verifies exactly from then until one day later, and yields its account's session; otherwise `TokenError`, and `auth` rejects |
| RoutesAuthentication.Register | src/routes/authentication.rs:6-26 | the store receives the hash of the password, in place of the plaintext; a new email, with no fault and room in the sequence, answers 200 "Account added" and is stored under the next account id, with the questions untouched; an exhausted sequence is 2200H, otherwise a known email is 23505, and a fault is passed on, each with nothing changed |
| RoutesAuthentication.IssuedClaims | src/routes/authentication.rs:57-70 | an issued token's claims are valid from now until one day later, for the given account |
| RoutesAuthentication.IssueToken | src/routes/authentication.rs:57-70 | if the token library keeps its promise, the token issued now verifies at once as the session of its account |
| RoutesAuthentication.RegisteredAccountLogsIn | src/routes/authentication.rs:6-45 | an account stored with the hash of its password logs in with that password and receives the token issued for its id |
| RoutesAuthentication.Login | src/routes/authentication.rs:28-45 | a store error is passed on; a wrong password is `WrongPassword`; a verifier failure is `ArgonLibraryError`; a match issues a token for the stored id |
| RoutesAuthentication.LoginOutcomes | src/routes/authentication.rs:28-45 | an unknown email is 500 "Database Query Error"; a token is issued exactly when verification says yes, for the stored id; a wrong password is 401; a failing verifier is 500 |
| InMemoryService.FromStr | src/main.rs:16-27 | the empty string, and only it, is `InvalidInput` "No id provided"; any other text is the id unchanged |
| InMemoryService.IdText | src/main.rs:11-27 | an id's text reads back as the id exactly when the id is non-empty |
| InMemoryService.ReturnError | src/main.rs:125-168 | the smaller recovery step answers only 403, 404, 422, 417 or 416, and 416 exactly when no CORS, body or `InvalidId` cause is present and the first error is `InvalidRange` |
| InMemoryService.ErrorResponse | src/main.rs:142-161 | the `Error` branches answer 404, 417 or 416, and 416 exactly for `InvalidRange` |
| InMemoryService.LiftAgrees | src/main.rs:142-161 | each error gets the response its `handle-errors` namesake gets |
| InMemoryService.ReturnErrorAgreesWithHandleErrors | src/main.rs:125-168 | the smaller recovery step gives every rejection the same response as the `handle-errors` one does, once its errors are read as their namesakes, and never panics |
| InMemoryService.GetValue | src/main.rs:281-287 | the value under the key as a `usize` exactly when it reads, otherwise `ParseError` with the kind `parse` reports |
| InMemoryService.NewPagination | src/main.rs:269-280 | `start` then `end` must read (the first failing one is the `ParseError`); with both read, `InvalidRange` exactly when end < start, otherwise exactly the two values |
| InMemoryService.GetPagination | src/main.rs:117-123 | `MissingParameters` exactly when `start` or `end` is missing; a window it returns never runs backwards |
| InMemoryService.PaginationErrorStatus | src/main.rs:125-168 | a bad window reaches the client as 416 for a backwards range and 417 otherwise |
| InMemoryService.Store.Listed | src/main.rs:63-64 | `values()`: the questions in the store's enumeration order |
| InMemoryService.Store.GetQuestions | src/main.rs:50-70 | an empty query gives the first 20 values; otherwise a bad window is the rejection, and a good one gives the values from `start` up to `end`, at most end - start of them |
| InMemoryService.Store.GetQuestion | src/main.rs:72-78 | the question under the id exactly when it is there; `QuestionNotFound` otherwise; the map is only read |
| InMemoryService.Store.AddQuestion | src/main.rs:80-94 | the question is inserted under its own id, overwriting; every other entry stays; a new key goes last; 201 "Question added" |
| InMemoryService.Store.UpdateQuestion | src/main.rs:96-108 | a present path id takes the body with the id forced to the path id; an absent one is `QuestionNotFound` with the map unchanged |
| InMemoryService.Store.DeleteQuestion | src/main.rs:110-115 | a present id is removed and the others keep their order, "Question deleted"; an absent one is `QuestionNotFound` with nothing changed |

## Left out

- I/O and logging: `tracing` events, `println!` and the JSON serialisation of replies are not modelled. A JSON reply is the value it serialises.
- Concurrency: the `Arc<RwLock<..>>` of the in-memory store and the `tokio::join!` of the two profanity checks run sequentially in the model.
- RoutesQuestion.AddQuestion: the two profanity checks run concurrently in the source. The model sends the title and then the content, and reports the title's error first when both fail, as the source's match order does.
- Service startup and wiring: `src/lib.rs`, `src/bin/server.rs`, `src/config.rs`, the `main()` routing of `src/main.rs`, and warp's choice between rejections of several `.or` routes. These are glue code without decision logic.
- Loading `questions.json` into the in-memory store (`Store::init`): the store's constructor takes the initial map and its order instead.
- `src/routes/answer.rs` and `store.add_answer`: a pass-through with no decision logic. The `fetch_one` on an INSERT without RETURNING (src/store.rs:118-123) is therefore not modelled.
- The profanity module that `check_profanity` calls is not part of this model. Its answers are the `check` function of `ProfanityFilter`.
- `types/account.rs` is not part of this model. `Account`, `AccountId` and `Session` take the shapes the store and the routes use.
- Cryptography: argon2 hashing and verification, PASETO sealing and validation, and the decoding of the claims into a `Session` are function values in `Crypto`.
  - No cryptographic property is proved.
  - The random salt is a parameter.
  - The clock is a parameter in whole seconds; sub-second times are not modelled.
  - `PASETO_KEY` is a constant of the `Crypto` value, although the source reads it from the environment on every call.
- RoutesAuthentication.TokenWindow: holds under the hypothesis `PasetoHonours` about the token library. The hypothesis is that a sealed token validates exactly inside its window and decodes to its account's session.
- Panics that are not modelled as results:
  - `hash_encoded(..).unwrap()`, the token builder's `expect` and `account.id.expect` are assumed not to fire (the store always returns an id);
  - the environment `unwrap` of `PASETO_KEY` is assumed not to fire.
- HandleErrors.ReturnError: requires `NoPanic`, which excludes the source's panic at handle-errors/src/lib.rs:101 on a database error whose SQLSTATE code is absent or not a number. PostgreSQL's codes for a negative limit or offset (2201W, 2201X) contain letters, so a limit from 2^31 to 2^32-1 in the query string would reach that panic; see "## Findings". A limit of 2^32 or more does not parse as a `u32` and counts as no limit.
- TypesQuestion.FromStr: requires the empty string or an `i32` literal, because `parse::<i32>().unwrap()` panics on any other text.
- InMemoryService.NewPagination: requires `start`, and `end` once `start` reads, because `get_value` unwraps the lookup. `GetPagination` only calls it with both present.
- Store.Store.UpdateQuestion: models the evidently intended `WHERE id = $4 AND account_id = $5`; the query as written is under "## Findings". The handler has already checked ownership, so the model writes exactly the owned row.
- Store.Store.DeleteQuestion: answers `Ok(true)` whether or not a row was removed, exactly as the source does (src/store.rs:96). The handler only calls it after the ownership check.
- Store: the SQL itself, the connection pool and the migrations are not modelled. The store is its tables. A failed insert does not consume a serial id in the model, though PostgreSQL's sequences would.
- The order of rows and `HashMap` values is unspecified in the source. The model's choice that a new key goes last is one admissible enumeration and is not a promise of the source.
- `Display` of the in-memory `Question` (src/main.rs:36-44) is not modelled. No code in src/main.rs uses it (the `println!` at src/main.rs:126 prints the rejection), and it is the same format as `types/question.rs`, which is modelled.
- `Debug` of strings covers the backslash escapes of `char::escape_debug`. The `\u{..}` escapes for other non-printable characters are not modelled.
- `usize` is taken to be 64 bits wide (`RustStd.uint64`), as on the usual server targets.
- The `auth` filter answers 404 "Route not found" for a missing header or a bad token. A 401 for these cases is what a design for this service would suggest, but the model follows the code.

## Findings

| source | as written | input that shows it | evidently intended | confidence | as-written member | corrected member |
|---|---|---|---|---|---|---|
| src/store.rs:74 | `WHERE id = $4 AND account_id =$2` compares the integer owner column with `$2`, the content bound as text | any update by the question's owner whose title and content pass the profanity check | `account_id = $5`, the owner bound at src/store.rs:79 | medium (PostgreSQL rejects `integer = text` with 42883); not executed | Store.UpdateQuestionAsWritten, RoutesQuestion.UpdateQuestionAsWritten | Store.Store.UpdateQuestion, RoutesQuestion.UpdateQuestion |
| handle-errors/src/lib.rs:101 | `parse::<u32>().unwrap()` of the SQLSTATE code panics on a code that is not a number | `GET /questions?limit=2147483648`: the `as i32` cast at src/types/pagination.rs:17 turns the limit negative, and PostgreSQL answers 2201W | a database error whose code is missing or not a number answers 500 "Database Query Error" like any other | high (PostgreSQL's codes for a negative limit or offset, 2201W and 2201X, contain letters); not executed | RoutesQuestion.LargeLimitPanics, Store.NegativeWindowCodesAreUnreadable, TypesPagination.LargeLimitTurnsNegative | HandleErrors.ReturnErrorCorrected, RoutesQuestion.LargeLimitAnswers500 |
