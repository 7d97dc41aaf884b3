# wallet-api core, modelled in Dafny

This project models the service core of the wallet-api repository, which holds
two Spring Boot trees: `socialbanking` and `wallet`. The model covers:

- **Transactions**: cursor paging of a user's transactions. The cursor is the
  text `o:<offset>` in unpadded URL-safe Base64. The model also gives the
  summary list that feeds the quick payees.
- **Accounts**: the account listings. Each account is joined with its balance
  and its details, and `getStatus` derives a status. The model covers the
  offset-paged variants, quick payees with favourite flags, and goal and loan
  accounts.
- **Paging**: `PageRequest` with its defaults, `toPageable` and `getOffset`;
  Spring's page window and `Page.map`; `PageInfo.of` and
  `PageInfo.fromSpringPage`.
- **Dashboard**: the wallet dashboard, assembled from five collaborators. It
  sits behind a read-through cache, and on login the dashboard event handler
  evicts the user's entry and warms it again.
- **Errors and envelopes**: the two `GlobalExceptionHandler`s, which turn
  exceptions into error envelopes, and `SuccessResponseAdvice`, which wraps
  socialbanking bodies as `{ "data": ... }`.
- **Authentication**: the wallet's `JwtAuthFilter`, and `AuthServiceImpl`'s
  PIN login and token refresh.

Modules, one file each:

- `Wrappers`: `Option` and `Result`.
- `JavaText`: the Java behaviours the code relies on. These are `int`
  wrap-around, `String.trim`, `startsWith`, `Integer.toString` and
  `Integer.parseInt`.
- `Base64Url`: the URL-safe Base64 encoding and decoding.
- `Transactions`, `Paging`, `Accounts`, `Dashboard` and `DashboardCache`.
- `ErrorHandling`, `ResponseAdvice`, `Jwt`/`JwtFilter` and `Auth`.

Where the source mutates state, the model is imperative:

- `Accounts` keeps the source's map- and set-filling loops as methods. Each
  method is proved equal to a specification function.
- The cache manager, the dashboard service, the event handler, the filter's
  security context and filter chain, and the auth service are classes.

Where the source only computes values, the model uses functions and lemmas.

The two `AccountServiceImpl`s (socialbanking and wallet) share one model,
because their listings, paging, quick payees and status rules are the same.
The two exception handlers differ only in the socialbanking trace id. They
share `ErrorHandling.Classify`.

## Model

| member | source | states |
|---|---|---|
| JavaText.Wrap32 | src/main/java/com/lbk/wallet/common/api/dto/PageRequest.java:31-33 | Java `int` arithmetic. The result is an `int`, it is congruent to the exact value modulo 2^32, and it equals the exact value when that fits. |
| JavaText.TrimIsInfix | src/main/java/com/lbk/wallet/common/internal/JwtAuthFilter.java:36 | `trim` removes only control or space characters, and only from the two ends. What is left is a contiguous slice that starts and ends with a non-blank character. |
| JavaText.ParseInt | src/main/java/com/lbk/socialbanking/transaction/internal/service/TransactionServiceImpl.java:69 | `Integer.parseInt` accepts only values that fit an `int`. |
| JavaText.ParseIntOfDecimal | src/main/java/com/lbk/socialbanking/transaction/internal/service/TransactionServiceImpl.java:59-69 | `Integer.parseInt` reads back what `Integer.toString` writes for every non-negative `int`. |
| Base64Url.EncodeUnpadded | src/main/java/com/lbk/socialbanking/transaction/internal/service/TransactionServiceImpl.java:59-62 | The unpadded URL encoder writes ⌈4n/3⌉ characters, all from the URL-safe alphabet, so there is no `=`, `+` or `/`. |
| Base64Url.DecodeUnpadded | src/main/java/com/lbk/socialbanking/transaction/internal/service/TransactionServiceImpl.java:67 | The decoder accepts only URL-safe characters. |
| Base64Url.DecodeEncodeUnpadded | src/main/java/com/lbk/socialbanking/transaction/internal/service/TransactionServiceImpl.java:59-67 | Decoding undoes unpadded encoding for every byte string. |
| Base64Url.DecodeEncode | src/main/java/com/lbk/socialbanking/transaction/internal/service/TransactionServiceImpl.java:59-67 | The URL decoder, which also accepts padding, recovers every byte string that the unpadded encoder wrote. |
| Transactions.EncodeCursor | src/main/java/com/lbk/socialbanking/transaction/internal/service/TransactionServiceImpl.java:59-62 | A cursor is a non-empty URL-safe text that decodes to `o:` followed by the offset's decimal digits. |
| Transactions.DecodeCursor | src/main/java/com/lbk/socialbanking/transaction/internal/service/TransactionServiceImpl.java:64-73 | Decoding a cursor always gives an `int`. |
| Transactions.DecodeEncodeCursor | src/main/java/com/lbk/socialbanking/transaction/internal/service/TransactionServiceImpl.java:59-73 | Decoding the cursor written for an offset up to `Integer.MAX_VALUE` gives that offset back. |
| Transactions.MalformedCursorIsZero | src/main/java/com/lbk/socialbanking/transaction/internal/service/TransactionServiceImpl.java:64-72 | A missing, blank, undecodable, unprefixed or non-numeric cursor counts as offset 0. |
| Transactions.EncodeCursorInjective | src/main/java/com/lbk/socialbanking/transaction/internal/service/TransactionServiceImpl.java:59-62 | Different offsets get different cursors. |
| Transactions.FindByUserId | src/main/java/com/lbk/socialbanking/transaction/internal/service/TransactionServiceImpl.java:29 | Every row the query returns belongs to the user and comes from the table, and every row of the user is returned. |
| Transactions.FindByUserIdSingle | src/main/java/com/lbk/socialbanking/transaction/internal/service/TransactionServiceImpl.java:29 | A one-row table yields that row exactly when it is the user's. |
| Transactions.FindByUserIdAppend | src/main/java/com/lbk/socialbanking/transaction/internal/service/TransactionServiceImpl.java:29 | The query is an order-preserving filter: the user's rows of `a + b` are those of `a` followed by those of `b`, so each row keeps its place and appears once. |
| Transactions.ItemsOf | src/main/java/com/lbk/socialbanking/transaction/internal/service/TransactionServiceImpl.java:35-37 | Each row maps to one item, in order. |
| Transactions.StartOffset | src/main/java/com/lbk/socialbanking/transaction/internal/service/TransactionServiceImpl.java:30-32 | The start is the decoded cursor when it lies in `0..size`, 0 when it is negative, and `size` when it is past the end. |
| Transactions.PageEnd | src/main/java/com/lbk/socialbanking/transaction/internal/service/TransactionServiceImpl.java:33 | The end is `min(start + limit, size)`: at least the start, at most both the size and `start + limit`, and equal to one of the two. |
| Transactions.PageFrom | src/main/java/com/lbk/socialbanking/transaction/internal/service/TransactionServiceImpl.java:30-44 | The page holds the items of rows `start..end`. It has a next cursor exactly when rows remain, and that cursor decodes to `end`. |
| Transactions.ListTransactions | src/main/java/com/lbk/socialbanking/transaction/internal/service/TransactionServiceImpl.java:26-45 | `listTransactions` applies the rules of `PageFrom` to the user's rows. |
| Transactions.AccountIdIgnored | src/main/java/com/lbk/socialbanking/transaction/internal/service/TransactionServiceImpl.java:26-29 | The account id does not affect the answer. |
| Transactions.PastEndIsEmpty | src/main/java/com/lbk/socialbanking/transaction/internal/service/TransactionServiceImpl.java:31-39 | A cursor at or past the end, or a user without transactions whatever the cursor, gives an empty page with no next cursor. |
| Transactions.Walk | src/main/java/com/lbk/socialbanking/transaction/internal/service/TransactionServiceImpl.java:39 | Following the cursors gives a non-empty run of pages, and the first page is the one asked for. |
| Transactions.PageFromAdvances | src/main/java/com/lbk/socialbanking/transaction/internal/service/TransactionServiceImpl.java:33-39 | A page that hands out a cursor is full, and the cursor starts the next page right after it, so following cursors ends. |
| Transactions.WalkEndsWithoutCursor | src/main/java/com/lbk/socialbanking/transaction/internal/service/TransactionServiceImpl.java:39 | The last page of a walk has no next cursor. |
| Transactions.WalkPagesFull | src/main/java/com/lbk/socialbanking/transaction/internal/service/TransactionServiceImpl.java:33-39 | Every page before the last one is full. |
| Transactions.WalkFrom | src/main/java/com/lbk/socialbanking/transaction/internal/service/TransactionServiceImpl.java:30-44 | A walk from a cursor returns every row from the start offset on, once each and in order. |
| Transactions.WalkVisitsEveryTransaction | src/main/java/com/lbk/socialbanking/transaction/internal/service/TransactionServiceImpl.java:26-45 | A walk starts with `listTransactions(..., null, limit)` and returns all the user's transactions once each, in order. Every page but the last is full, and the last has no cursor. |
| Transactions.ListTransactionSummaries | src/main/java/com/lbk/socialbanking/transaction/internal/service/TransactionServiceImpl.java:47-57 | There is one summary per user row, in order, with the row's id, name and image. |
| Paging.NewPageRequest | src/main/java/com/lbk/socialbanking/common/api/dto/PageRequest.java:10-16 | A missing page is 1 and a missing limit is 20. Given values are kept. |
| Paging.ToPageable | src/main/java/com/lbk/socialbanking/common/api/dto/PageRequest.java:18-20 | The pageable's number is the zero-based page and its size is the limit. |
| Paging.GetOffsetAsWritten | src/main/java/com/lbk/socialbanking/common/api/dto/PageRequest.java:22-24 | `(page - 1) * limit` evaluated in 32-bit `int` arithmetic. |
| Paging.GetOffset | src/main/java/com/lbk/wallet/common/api/dto/PageRequest.java:31-33 | The offset is the row where the requested page starts, the same as the pageable's offset. |
| Paging.Window | src/main/java/com/lbk/socialbanking/account/internal/service/AccountServiceImpl.java:159-161 | `skip(offset).limit(limit)` returns the rows `offset..offset+limit`, cut at the end. It is empty past the end. |
| Paging.SkipLimit | src/main/java/com/lbk/socialbanking/account/internal/service/AccountServiceImpl.java:156-161 | `skip` throws exactly when the offset is negative. Otherwise the result is the window. |
| Paging.CeilDivIsLeast | src/main/java/com/lbk/socialbanking/common/api/dto/PageInfo.java:12-15 | The page count is the least number of pages whose rows hold the total. |
| Paging.PageOf | src/main/java/com/lbk/socialbanking/account/internal/service/AccountServiceImpl.java:75-76 | A paging query returns the window at the pageable's offset, with number, size and total. |
| Paging.MapPage | src/main/java/com/lbk/socialbanking/account/internal/service/AccountServiceImpl.java:86 | `Page.map` converts every row in place and keeps the page numbers. |
| Paging.PageInfoOf | src/main/java/com/lbk/socialbanking/common/api/dto/PageInfo.java:12-15 | The request and the total are echoed. `totalPages` is the ceiling of total/limit: the pages hold the total, and one page fewer would not. |
| Paging.FromSpringPage | src/main/java/com/lbk/socialbanking/common/api/dto/PageInfo.java:17-24 | The page number is made one-based, size and total are copied, and Spring's page count is used. |
| Paging.ResponseFromSpringPage | src/main/java/com/lbk/wallet/common/api/dto/PaginatedResponse.java:16-21 | The response holds the page's rows and its `PageInfo`. |
| Paging.PageInfoPathsAgree | src/main/java/com/lbk/socialbanking/common/api/dto/PageInfo.java:12-24 | `fromSpringPage` of the page Spring returns equals `PageInfo.of` on the request and the row count. |
| Paging.PageNonEmptyIffWithinTotal | src/main/java/com/lbk/socialbanking/account/internal/service/AccountServiceImpl.java:156-174 | A page holds rows exactly when its number is at most `totalPages`. |
| Paging.PagesUpToIsPrefix | src/main/java/com/lbk/socialbanking/account/internal/service/AccountServiceImpl.java:156-161 | Pages 1..k, read one after another, are the first k·limit rows. |
| Paging.AllPagesCoverRows | src/main/java/com/lbk/socialbanking/account/internal/service/AccountServiceImpl.java:146-178 | Reading pages 1..totalPages returns every row once, in order. |
| Paging.GetOffsetWrapsToFirstPage | src/main/java/com/lbk/socialbanking/common/api/dto/PageRequest.java:22-24 | A valid request for page 1073741825 of 20 gets offset 0 as written, where the intended offset is 21474836480. |
| Paging.GetOffsetWrapsNegative | src/main/java/com/lbk/socialbanking/account/internal/service/AccountServiceImpl.java:156-161 | A request for page 107374184 of 20, valid for the payee endpoint, gets offset -2147483636 as written, so `skip` throws. The intended answer is an empty page. |
| Paging.WalletPaginationExamples | src/test/java/com/lbk/wallet/common/api/dto/PaginationTest.java:14-56 | The wallet's pagination examples hold for the model: defaults, offset, pageable, page count and response. |
| Accounts.GetStatus | src/main/java/com/lbk/socialbanking/account/internal/service/AccountServiceImpl.java:111-122 | The status is UNKNOWN exactly without a progress value, COMPLETED at 100 or more, NOT_STARTED at 0 or less, and IN_PROGRESS in between. |
| Accounts.IndexByIsLastWrite | src/main/java/com/lbk/socialbanking/account/internal/service/AccountServiceImpl.java:184-187 | Indexing rows by key with `put` keeps, for each key, the value of the last row with that key. A key is present exactly when some row has it. |
| Accounts.GetBalancesByUserId | src/main/java/com/lbk/socialbanking/account/internal/service/AccountServiceImpl.java:180-191 | The loop builds the balance map, keyed by account id, with the last row winning. |
| Accounts.IndexDetails | src/main/java/com/lbk/socialbanking/account/internal/service/AccountServiceImpl.java:57-60 | The loop builds the details map, keyed by account id, with the last row winning. |
| Accounts.MapToAccountSummary | src/main/java/com/lbk/socialbanking/account/internal/service/AccountServiceImpl.java:89-109 | The summary copies the account's own fields and takes the balance if present, else 0. With a detail row, it takes the detail's color and the status derived from its progress; without one, color and status are null. |
| Accounts.MissingDetailIsNotUnknown | src/main/java/com/lbk/socialbanking/account/internal/service/AccountServiceImpl.java:95-98 | A missing detail row gives a null status, while a detail row without progress gives UNKNOWN. |
| Accounts.Summaries | src/main/java/com/lbk/socialbanking/account/internal/service/AccountServiceImpl.java:62-64 | There is one summary per account, in order. |
| Accounts.ListAccounts | src/main/java/com/lbk/socialbanking/account/internal/service/AccountServiceImpl.java:50-69 | Every account is joined with the last balance and details row for its id, in order. |
| Accounts.ListAccountsPage | src/main/java/com/lbk/socialbanking/account/internal/service/AccountServiceImpl.java:71-87 | The requested window of accounts is joined as in the unpaged list. The pagination equals `PageInfo.of` on the request and the account count. |
| Accounts.CollectFavorites | src/main/java/com/lbk/socialbanking/account/internal/service/AccountServiceImpl.java:128-130 | The loop collects exactly the favourite flag ids. |
| Accounts.FavoriteIffFlagged | src/main/java/com/lbk/socialbanking/account/internal/service/AccountServiceImpl.java:128-138 | An id is a favourite exactly when some FAVORITE flag names it. |
| Accounts.Payees | src/main/java/com/lbk/socialbanking/account/internal/service/AccountServiceImpl.java:134-139 | There is one payee per summary, in order, marked favourite when its id is in the set. |
| Accounts.ListQuickPayees | src/main/java/com/lbk/socialbanking/account/internal/service/AccountServiceImpl.java:124-144 | The result is the first `min(limit, n)` summaries as payees, with id, name and image copied and the favourite mark set exactly when flagged. |
| Accounts.ListQuickPayeesPage | src/main/java/com/lbk/socialbanking/account/internal/service/AccountServiceImpl.java:146-178 | The payees of the requested window, with `PageInfo.of` on the request and the summary count. |
| Accounts.OfType | src/main/java/com/lbk/socialbanking/account/internal/service/AccountServiceImpl.java:197 | Every row returned has the given type (ignoring case) and comes from the accounts, and every account of that type is returned. |
| Accounts.ListGoalAccounts | src/main/java/com/lbk/socialbanking/account/internal/service/AccountServiceImpl.java:193-218 | The requested window of the goal accounts, each joined and projected to a goal item, with `PageInfo.of` on the goal count. |
| Accounts.ListLoanAccounts | src/main/java/com/lbk/socialbanking/account/internal/service/AccountServiceImpl.java:220-245 | The requested window of the loan accounts, each joined and projected to a loan item, with `PageInfo.of` on the loan count. |
| Dashboard.FirstSaving | src/main/java/com/lbk/wallet/dashboard/internal/servcie/DashboardServiceImpl.java:91-93 | Gives the index of the first SAVING account, or none when there is no SAVING account. |
| Dashboard.SelectPrimary | src/main/java/com/lbk/wallet/dashboard/internal/servcie/DashboardServiceImpl.java:91-94 | The primary account is the first SAVING account (ignoring case). Without one it is the first account, and with no accounts it is null. |
| Dashboard.Assemble | src/main/java/com/lbk/wallet/dashboard/internal/servcie/DashboardServiceImpl.java:96-108 | The response holds the greeting, the primary account, the accounts and the payees. Goals and loans become cards one for one, in order. |
| Dashboard.BuildDashboard | src/main/java/com/lbk/wallet/dashboard/internal/servcie/DashboardServiceImpl.java:46-108 | The dashboard is built exactly when all five collaborators answer. It then uses limit 10 for payees and page 1 of size 10 for goals and loans. |
| Dashboard.PrimaryPrefersFirstSaving | src/main/java/com/lbk/wallet/dashboard/internal/servcie/DashboardServiceImpl.java:91-94 | A SAVING account with no SAVING account before it is the primary. |
| DashboardCache.HitReturnsStored | src/main/java/com/lbk/wallet/dashboard/internal/servcie/DashboardServiceImpl.java:45 | A cached entry is returned as is, and nothing is rebuilt or stored. |
| DashboardCache.ReadThroughIdempotent | src/main/java/com/lbk/wallet/dashboard/internal/servcie/DashboardServiceImpl.java:45 | A second read right after a first returns the same dashboard and changes nothing. |
| DashboardCache.FailedReadStoresNothing | src/main/java/com/lbk/wallet/dashboard/internal/servcie/DashboardServiceImpl.java:45 | A build that fails on a miss leaves the caches as they were. |
| DashboardCache.DashboardService.GetDashboard | src/main/java/com/lbk/wallet/dashboard/internal/servcie/DashboardServiceImpl.java:45-108 | `getDashboard` reads through the "dashboardData" cache keyed by user id, building the dashboard on a miss. |
| DashboardCache.LoginTouchesOnlyUserKey | src/main/java/com/lbk/wallet/dashboard/internal/handlers/DashboardEventHandler.java:37-98 | A login changes only the logged-in user's entry in only the dashboard cache. |
| DashboardCache.LoginRefreshesEntry | src/main/java/com/lbk/wallet/dashboard/internal/handlers/DashboardEventHandler.java:37-86 | After a login whose eviction went through, the user's entry is the freshly built dashboard when the build succeeds, and absent otherwise. It never keeps the stale one. |
| DashboardCache.LoginWithoutCacheChangesNothing | src/main/java/com/lbk/wallet/dashboard/internal/handlers/DashboardEventHandler.java:57-67 | Without a dashboard cache, a login changes nothing. |
| DashboardCache.DashboardEventHandler.EvictUserCache | src/main/java/com/lbk/wallet/dashboard/internal/handlers/DashboardEventHandler.java:88-98 | The user's key is evicted when the cache exists. A failing eviction is swallowed and leaves the caches as they were. |
| DashboardCache.DashboardEventHandler.HandleUserLoggedIn | src/main/java/com/lbk/wallet/dashboard/internal/handlers/DashboardEventHandler.java:37-86 | `handleUserLoggedIn` looks up the cache, evicts when it exists, and pre-warms through the service. The new caches are `AfterLogin` of the old ones. |
| ErrorHandling.Classify | src/main/java/com/lbk/socialbanking/common/internal/GlobalExceptionHandler.java:27-143 | An `ApiException` keeps its own status, code and message. Validation and constraint failures give 400 VALIDATION_ERROR with the first message or "Validation failed". A missing header gives 400 "Missing required header.". Anything else gives 500 INTERNAL_ERROR "Unexpected error.". |
| ErrorHandling.HandleWallet | src/main/java/com/lbk/wallet/common/api/GlobalExceptionHandler.java:21-92 | The wallet envelope holds the classification, and the HTTP status equals the body's status. |
| ErrorHandling.HandleSocial | src/main/java/com/lbk/socialbanking/common/internal/GlobalExceptionHandler.java:27-143 | The socialbanking envelope carries the request's trace id, and the HTTP status equals the body's status. |
| ErrorHandling.SocialIsWalletWithTrace | src/main/java/com/lbk/socialbanking/common/internal/GlobalExceptionHandler.java:27-143 | The socialbanking answer is the wallet answer with the trace id added. |
| ErrorHandling.OtherHidesMessage | src/main/java/com/lbk/socialbanking/common/internal/GlobalExceptionHandler.java:134-143 | An unexpected exception's message never reaches the client. |
| ErrorHandling.StatusByKind | src/main/java/com/lbk/socialbanking/common/internal/GlobalExceptionHandler.java:44-112 | Only an `ApiException` chooses its own status. A 500 from any other exception means it was unexpected. |
| ResponseAdvice.Supports | src/main/java/com/lbk/socialbanking/common/internal/SuccessResponseAdvice.java:17-20 | The advice applies to every controller method. |
| ResponseAdvice.BeforeBodyWrite | src/main/java/com/lbk/socialbanking/common/internal/SuccessResponseAdvice.java:23-39 | The body goes out unchanged exactly on a docs path or when it is null, a success or error envelope, or paginated. Otherwise it is wrapped as `SuccessResponse(body)`. |
| ResponseAdvice.Idempotent | src/main/java/com/lbk/socialbanking/common/internal/SuccessResponseAdvice.java:23-39 | Wrapping an already wrapped body changes nothing. |
| ResponseAdvice.AlwaysEnveloped | src/main/java/com/lbk/socialbanking/common/internal/SuccessResponseAdvice.java:30-38 | Off the docs paths, every non-null body leaves as a recognised envelope. |
| JwtFilter.BearerToken | src/main/java/com/lbk/wallet/common/internal/JwtAuthFilter.java:34-36 | A token is present exactly when the header starts with "Bearer " (case-sensitive). The token is the trimmed rest of the header. |
| JwtFilter.Decide | src/main/java/com/lbk/wallet/common/internal/JwtAuthFilter.java:34-51 | A request is authenticated exactly when its token parses with type "access". It is then authenticated as the subject, with only ROLE_USER. |
| JwtFilter.AccessTokenAuthenticates | src/main/java/com/lbk/wallet/common/internal/JwtAuthFilter.java:38-48 | A minted access token authenticates its user. A refresh token authenticates nobody. |
| JwtFilter.SchemeIsCaseSensitive | src/main/java/com/lbk/wallet/common/internal/JwtAuthFilter.java:35 | "bearer " in lower case, or "Bearer" without the space, carries no token. |
| JwtFilter.FilterChain.DoFilter | src/main/java/com/lbk/wallet/common/internal/JwtAuthFilter.java:53 | The chain is invoked once more. |
| JwtFilter.JwtAuthFilter.DoFilterInternal | src/main/java/com/lbk/wallet/common/internal/JwtAuthFilter.java:30-54 | The authentication is set exactly when `Decide` gives one, and is otherwise left as it was. The chain runs once on every path. |
| Auth.LatestCredential | src/main/java/com/lbk/wallet/auth/internal/service/AuthServiceImpl.java:37-41 | Gives none exactly when the user has no credential row. Otherwise it gives a row of that user with the latest update time. |
| Auth.Tokens | src/main/java/com/lbk/wallet/auth/internal/service/AuthServiceImpl.java:53 | The token pair expires in 900 seconds and has type "Bearer". |
| Auth.LoginOutcome | src/main/java/com/lbk/wallet/auth/internal/service/AuthServiceImpl.java:33-54 | An unknown user gets INVALID_USER, and a PIN that does not match the newest hash gets INVALID_PIN. Otherwise the login succeeds with tokens for the user. |
| Auth.LoginSucceedsIffPinMatches | src/main/java/com/lbk/wallet/auth/internal/service/AuthServiceImpl.java:37-53 | A login succeeds exactly when the user exists and the PIN matches the newest credential. The event then names that user. |
| Auth.UnknownUserIgnoresPin | src/main/java/com/lbk/wallet/auth/internal/service/AuthServiceImpl.java:37-41 | An unknown user is refused with INVALID_USER whatever PIN is sent. |
| Auth.Refresh | src/main/java/com/lbk/wallet/auth/internal/service/AuthServiceImpl.java:56-68 | A parse failure propagates. A token whose type is not exactly "refresh" gets 400 INVALID_REQUEST. Otherwise a new pair is minted for the token's subject. |
| Auth.LoginTokensRefresh | src/main/java/com/lbk/wallet/auth/internal/service/AuthServiceImpl.java:53-67 | The refresh token from a login refreshes to the same user's pair. The access token from that login is refused. |
| Auth.AuthService.Login | src/main/java/com/lbk/wallet/auth/internal/service/AuthServiceImpl.java:33-54 | `login` answers as `LoginOutcome` says and publishes one event exactly when the login succeeds. |

## Left out

- Amounts are modelled as integers. The source's `BigDecimal` and `double` conversion is not modelled.
- Concurrency is not modelled. The dashboard's `CompletableFuture`s, its executor and the `@Async` handler run in line, and their timeouts are not modelled.
- Redis is not modelled: the cache time to live, the serializers and the cache manager configuration. A cache is a map from user id to dashboard.
- JWT signing, expiry and keys, and the BCrypt password encoder, are not modelled. They are function parameters.
- Logging, metrics and trace id generation are not modelled. The trace id is a parameter.
- Controllers, request binding and bean validation are not modelled. Their limits (page ≥ 1, limit 1..100) appear only as preconditions. The paged payee methods accept limits up to 100, which includes the payee endpoint's 1..20.
- The repositories' row order is not modelled. It is taken as table order, and the transaction order is assumed stable between requests.
- Transactions.FindByUserId: the `ORDER BY transactionId` is not modelled. The table is taken to be stored in ascending transaction id, so the order-preserving filter stated by `FindByUserIdAppend` is that order.
- `Integer.parseInt` on non-ASCII digits is not modelled. The UTF-8 decoding of the cursor text is taken byte for byte.
- `equalsIgnoreCase` is modelled over ASCII only.
- The internals of the authentication event publisher are not modelled. A published event is recorded as the user id it names.
- A `null` field-error message and a `null` token subject are not modelled.
- `SuccessResponse.of` and the DTO constructors are plain datatype constructors.
- Transactions.ListTransactions: limits outside 1..100 are excluded, because the controller rejects them. Tables within `limit` rows of `Integer.MAX_VALUE` are also excluded, because `start + limit` would wrap.
- Paging.PageInfoOf: a limit outside 1..100 is excluded, because the controllers reject it. A limit of 0 would divide by zero in `double`, giving `Integer.MAX_VALUE` pages for a non-zero total and 0 for a zero total.
- Accounts.ListQuickPayees: a negative limit is excluded, because `Stream.limit` throws on it.
- Accounts.ListQuickPayeesPage: uses the exact offset (`Paging.GetOffset`) instead of the 32-bit one. See Findings.
- ErrorHandling.Classify: for constraint violations, the message is stated only as one of the violations. The set's iteration order is not modelled.
- DashboardCache.ReadThrough: has no contract of its own. Its behaviour is stated by `HitReturnsStored`, `ReadThroughIdempotent` and `FailedReadStoresNothing`.
- DashboardCache.AfterLogin: has no contract of its own. Its behaviour is stated by the three `Login...` lemmas.

## Findings

| source | as written | input that shows it | evidently intended | confidence | as-written member | corrected member |
|---|---|---|---|---|---|---|
| src/main/java/com/lbk/socialbanking/common/api/dto/PageRequest.java:22-24 (and src/main/java/com/lbk/wallet/common/api/dto/PageRequest.java:31-33) | `getOffset` computes `(page - 1) * limit` in 32-bit `int`, and the controllers set no page maximum | `PageRequest(1073741825, 20)` wraps to offset 0 and serves page 1 again; `PageRequest(107374184, 20)` wraps to offset -2147483636, so `skip` throws and the response is a 500 | the exact offset, as Spring's `long` `getOffset` computes it, giving an empty page | not executed | Paging.GetOffsetAsWritten (shown by Paging.GetOffsetWrapsToFirstPage and Paging.GetOffsetWrapsNegative) | Paging.GetOffset |
