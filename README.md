# Agoravai2 Google Ads dashboard, modelled in Dafny

This project models the decision logic of the Agoravai2 Google Ads app. The app is an Express backend that talks to the Google Ads API, plus a
React dashboard that calls it. The project proves properties of that
model. It covers these parts:

- The backend's helpers:
  - customer-id cleaning and validation;
  - CTR and CPC texts;
  - micros conversion.
- The campaign aggregation of the Google Ads service. This is a one-pass fold of report rows into a `Map` keyed by campaign id, then a CTR pass. It is written as a class method with a loop, a `seq` of insertion-ordered keys and a Dafny `map`. It is proved equal to a declarative reference, `Summaries`.
- The authentication service:
  - the OAuth2 URL options;
  - the code exchange;
  - the session payload;
  - the JWT error mapping;
  - `Bearer` header parsing.
- The authentication routes (`/url`, `/callback`, `/login`) and the authentication middleware.
- The error handler, `sanitizeInput` and `handleValidationErrors`.
- The serverless entry point:
  - the CORS origin list;
  - the hand-built auth URL;
  - the demonstration callback and campaigns routes;
  - the 404 reply.
- The campaign listing route's `limit` default and reply.
- The dashboard's API client:
  - the request and response interceptors;
  - the query parameters;
  - the paths.
- The three dashboards:
  - the status labels and colours;
  - the status filter;
  - the chart data;
  - the status distribution;
  - the blank-id guard;
  - loading and logout;
  - the consistency of the demonstration data.

Each route is modelled in one of two ways, following the source. A pure route is a function from the request (query, body, environment, clock) to a `Reply`. A route that mutates the request or sends through a response is a method over the `Http` module's `Request`, `Response` and `Continuation` classes. A `Continuation` stands for `next`. Browser state is the `BrowserStorage` class (`localStorage`) and the `Window` class (`location.href`).

Some things outside the app are modelled as plain inputs:

- Environment variables, `Date.now()` and the Google Ads report rows are parameters.
- The provider's answer to an authorisation code is a parameter.
- The outcome of the dashboard's parallel requests is a parameter.
- The JWT library is a `JwtCodec`: a record of a signing and a verifying function. The lemmas assume only what the predicate `Sound` states about it: a token signed at time t verifies to its claims until t + 24 h, then fails with `TokenExpiredError`, and contains no space.
- The base64-of-JSON state codec is a `StateCodec`, with `StateSound` stating its round trip.

JavaScript numbers are exact `real`s, and integers are unbounded.
`toFixed(2)` is modelled as rounding to the nearest hundredth: `RoundedHundredths` and `FormatHundredths`. `String.prototype.toLowerCase` is lower-casing of ASCII letters. `encodeURIComponent` and `URLSearchParams` serialisation are UTF-8 percent-encoding, as in section 2.1 of RFC 3986. `URLSearchParams` also turns a space into `+`.

Three facts about the source shape the model:

- The campaign cost is summed per row after dividing each row's micros by one million (`googleAdsService.js:107`), not divided once on the total. `SumCostIsMicros` proves the two agree in exact arithmetic.
- The code exchange checks only that the provider returned a refresh token (`authService.js:41-43`). It does not check the access token.
- No code computes an account summary. The metrics summaries are constants (`api/index.js:153-160`). `DemoMetricsConsistent` proves that the dashboard's demonstration summary agrees with its campaigns.

## Model

| member | source | states |
|---|---|---|
| Helpers.MicrosToDecimal | google-ads-api-backend/src/utils/helpers.js:3-5 | the result times 1,000,000 is the micros, with a missing value read as 0; zero or missing gives 0 and non-negative micros give a non-negative amount |
| Helpers.RoundedHundredths | google-ads-api-backend/src/utils/helpers.js:9 | the number of hundredths printed is within half a hundredth of the value (the `toFixed(2)` rounding rule) |
| Helpers.ToFixed2Meaning | google-ads-api-backend/src/utils/helpers.js:9 | reading the two-decimal text back gives the signed rounded number of hundredths, so the text means the value to two decimals |
| Helpers.NegatedFixed2 | google-ads-api-backend/src/utils/helpers.js:14 | a leading minus sign on a two-decimal text negates the value read back: how a negative CPC prints |
| Helpers.CalculateCTR | google-ads-api-backend/src/utils/helpers.js:7-10 | zero or missing impressions give "0.00" whatever the clicks |
| Helpers.CalculateCTRMeaning | google-ads-api-backend/src/utils/helpers.js:9 | with impressions, the text reads back as clicks / impressions × 100 rounded to hundredths |
| Helpers.CalculateCTRIs | google-ads-api-backend/src/utils/helpers.js:9 | a percentage within half a hundredth of h prints as h hundredths |
| Helpers.CalculateCTRAllClicked | google-ads-api-backend/src/utils/helpers.js:9 | clicks equal to impressions give "100.00" |
| Helpers.CalculateCTRNoClicks | google-ads-api-backend/src/utils/helpers.js:8-9 | no clicks give "0.00" whatever the impressions |
| Helpers.CalculateCPC | google-ads-api-backend/src/utils/helpers.js:12-15 | zero or missing clicks give "0.00" whatever the cost |
| Helpers.CalculateCPCMeaning | google-ads-api-backend/src/utils/helpers.js:14 | with clicks, the text reads back as cost / clicks rounded to hundredths |
| Helpers.FormatCustomerId | google-ads-api-backend/src/utils/helpers.js:23-25 | the result contains no `-` and no white space |
| Helpers.FormatCustomerIdKeeps | google-ads-api-backend/src/utils/helpers.js:24 | the result is as long as the number of non-separator characters, and every one of them appears in it |
| Helpers.FormatCustomerIdOrder | google-ads-api-backend/src/utils/helpers.js:24 | formatting distributes over concatenation and drops exactly the separators, so all other characters are kept in order |
| Helpers.FormatCustomerIdIdempotent | google-ads-api-backend/src/utils/helpers.js:24 | formatting twice is formatting once |
| Helpers.NoSeparators | google-ads-api-backend/src/utils/helpers.js:24 | a digit string is left unchanged |
| Helpers.DashBetween | google-ads-api-backend/src/utils/helpers.js:24 | a dash between two texts is dropped and each side is formatted on its own |
| Helpers.ValidateCustomerId | google-ads-api-backend/src/utils/helpers.js:17-21 | specified by `ValidateMissingOrEmpty` and `ValidateCustomerIdMeaning`: a missing or empty id is invalid, and any other id is valid exactly when its kept characters are ten digits |
| Helpers.ValidateMissingOrEmpty | google-ads-api-backend/src/utils/helpers.js:18 | a missing or empty id is invalid |
| Helpers.ValidateIsFormattedTenDigits | google-ads-api-backend/src/utils/helpers.js:19-20 | a non-empty id is valid exactly when the formatted id is ten digits, the same cleaning as `formatCustomerId` |
| Helpers.ValidateCustomerIdMeaning | google-ads-api-backend/src/utils/helpers.js:17-21 | in both directions, an id is valid exactly when it is non-empty, has ten non-separator characters and all of them are digits |
| Helpers.ValidKeptAreDigits | google-ads-api-backend/src/utils/helpers.js:19-20 | if the cleaned id is all digits, so is every kept character of the input |
| Helpers.KeptDigitsFormatDigits | google-ads-api-backend/src/utils/helpers.js:19-20 | the converse: kept characters that are digits give an all-digit cleaned id |
| Helpers.ValidateDashedExample | google-ads-api-backend/src/utils/helpers.js:17-21 | "123-456-7890" formats to "1234567890" and is valid |
| Helpers.DashedValid | google-ads-api-backend/src/utils/helpers.js:17-21 | any three digit groups totalling ten digits, joined by dashes, form a valid id |
| Helpers.DashedGroups | google-ads-api-backend/src/utils/helpers.js:24 | digit groups joined by dashes format to the digits alone |
| Helpers.ValidateTooLongExample | google-ads-api-backend/src/utils/helpers.js:20 | "12345678901" (eleven digits) is invalid |
| Helpers.ValidateBlankExample | google-ads-api-backend/src/utils/helpers.js:19-20 | an all-blank id is invalid |
| AdsService.ClientCredentials | google-ads-api-backend/src/services/googleAdsService.js:12-22 | the check succeeds exactly when the client id, client secret and developer token are all set, passing those three on; otherwise it fails with the "not configured" message |
| AdsService.GoogleAdsService.constructor | google-ads-api-backend/src/services/googleAdsService.js:6-7 | the client starts out absent |
| AdsService.GoogleAdsService.InitializeClient | google-ads-api-backend/src/services/googleAdsService.js:11-25 | the outcome is the credential check, and the client field is set only when it succeeds |
| AdsService.GoogleAdsService.FormatCampaignsResponse | google-ads-api-backend/src/services/googleAdsService.js:82-117 | the Map fold followed by the CTR pass returns exactly `Summaries(rows)`, the declarative reference |
| AdsService.Values | google-ads-api-backend/src/services/googleAdsService.js:111 | `map.values()` lists every entry in the insertion order of its key |
| AdsService.WithCtrs | google-ads-api-backend/src/services/googleAdsService.js:111-116 | each entry gets its CTR, in order, and nothing else changes |
| AdsService.MirrorsStep | google-ads-api-backend/src/services/googleAdsService.js:86-108 | one iteration of the `forEach` keeps the invariant: the keys are the ids seen so far in first-seen order, and each entry is these rows' accumulation |
| AdsService.MirrorsFinal | google-ads-api-backend/src/services/googleAdsService.js:111-116 | once every row is in, the values with their CTRs are `Summaries(rows)` |
| AdsService.AccumulatedStep | google-ads-api-backend/src/services/googleAdsService.js:88-108 | adding a row opens the entry of a new id or adds the row's metrics to an existing one, leaving every other entry alone |
| AdsService.CampaignIds | google-ads-api-backend/src/services/googleAdsService.js:86-89 | the ids are distinct, and are exactly those occurring in the rows |
| AdsService.FirstIndex | google-ads-api-backend/src/services/googleAdsService.js:88 | the index is that of the first row of the campaign |
| AdsService.FirstIndexExtend | google-ads-api-backend/src/services/googleAdsService.js:88 | appending rows does not move the first row of a campaign already seen |
| AdsService.SummariesIds | google-ads-api-backend/src/services/googleAdsService.js:83-102 | one entry per distinct campaign id, no id twice, and an entry exactly for the ids in the input |
| AdsService.SummariesOrder | google-ads-api-backend/src/services/googleAdsService.js:88-89 | the entries come in the order of the first appearance of their ids |
| AdsService.CampaignIdsOrder | google-ads-api-backend/src/services/googleAdsService.js:88-89 | ids are listed in the order of their first rows |
| AdsService.SummariesFirstRow | google-ads-api-backend/src/services/googleAdsService.js:88-101 | name, status and type are those of the campaign's first row |
| AdsService.LaterRowsKeepFields | google-ads-api-backend/src/services/googleAdsService.js:88-101 | later rows never change a campaign's name, status or type |
| AdsService.SummariesMetrics | google-ads-api-backend/src/services/googleAdsService.js:98-115 | impressions, clicks, cost and conversions are sums over the campaign's rows, with missing values counted as 0; the CTR is `calculateCTR` of the sums when there were impressions, else the initial 0 |
| AdsService.SumCostIsMicros | google-ads-api-backend/src/services/googleAdsService.js:107 | the per-row sum of micros / 1,000,000, times 1,000,000, is the campaign's total micros |
| AdsService.SumsWithout | google-ads-api-backend/src/services/googleAdsService.js:95-98 | a campaign without rows sums to zero in every metric |
| AdsService.SummariesSize | google-ads-api-backend/src/services/googleAdsService.js:85-111 | there are no more entries than rows, and the output is empty exactly when the input is |
| AdsService.SummariesTotals | google-ads-api-backend/src/services/googleAdsService.js:105-106 | the impressions (or clicks) summed over the output equal those summed over the input rows |
| AdsService.SummariesTotalIsSumOverIds | google-ads-api-backend/src/services/googleAdsService.js:111 | the output total is the sum of the per-campaign sums over its ids |
| AdsService.SumOverCampaignIds | google-ads-api-backend/src/services/googleAdsService.js:85-109 | summing per-campaign totals over the distinct ids gives the total over all rows |
| AdsService.SumOverIdsStep | google-ads-api-backend/src/services/googleAdsService.js:104-106 | the last row adds its count to the one id it belongs to |
| AdsService.SumOverIdsAppend | google-ads-api-backend/src/services/googleAdsService.js:104-106 | one more id adds that id's sum |
| AuthService.AuthUrlRequest | google-ads-api-backend/src/services/authService.js:16-27 | offline access, the consent prompt, included granted scopes and both AdWords scopes always; the state given, or "default" when none is given |
| AuthService.AuthUrlStateNeverEmpty | google-ads-api-backend/src/services/authService.js:26 | the state sent is never empty, and is "default" exactly when none or "default" was given |
| AuthService.GenerateAuthUrl | google-ads-api-backend/src/services/authService.js:14-35 | the URL is the client's for those options; any failure becomes the fixed "could not generate" message |
| AuthService.ExchangeCodeForTokens | google-ads-api-backend/src/services/authService.js:37-54 | success exactly when the provider answered with a refresh token, which is copied; every failure message starts with the exchange prefix |
| AuthService.ExchangeCodeForTokensCases | google-ads-api-backend/src/services/authService.js:41-52 | a provider error and a missing refresh token each give their prefixed message; a success copies the tokens and defaults `tokenType` to "Bearer" |
| AuthService.SessionPayload | google-ads-api-backend/src/services/authService.js:58-63 | `userId` defaults to "anonymous", and `customerId` and `refreshToken` are copied unchanged |
| AuthService.GenerateInternalToken | google-ads-api-backend/src/services/authService.js:56-74 | success exactly when signing the payload succeeds; a failure is the fixed "could not generate the token" message |
| AuthService.VerifyMessage | google-ads-api-backend/src/services/authService.js:81-87 | `TokenExpiredError` maps exactly to "Token expirado", `JsonWebTokenError` exactly to "Token inválido", and anything else to the generic message |
| AuthService.VerifyInternalToken | google-ads-api-backend/src/services/authService.js:76-89 | either the verified claims, or the mapped message of the library's error |
| AuthService.SessionRoundTrip | google-ads-api-backend/src/services/authService.js:56-89 | an issued token verifies to its payload for 24 hours, then fails with "Token expirado", and contains no space |
| AuthService.ExtractTokenFromHeader | google-ads-api-backend/src/services/authService.js:91-102 | a missing or empty header fails with the "not provided" message, and any other failure is the format message |
| AuthService.ExtractTokenMeaning | google-ads-api-backend/src/services/authService.js:96-101 | in both directions, a header yields t exactly when it is "Bearer", one space and t, with t free of spaces |
| AuthService.ExtractTokenRoundTrip | google-ads-api-backend/src/services/authService.js:96-101 | extracting from "Bearer " + t gives t back for any space-free t, and "Bearer " gives the empty token |
| AuthService.ExtractTokenRejects | google-ads-api-backend/src/services/authService.js:97-98 | "bearer x", "Bearer  x" and "Bearer x y" are rejected with the format message |
| AuthService.RejectsAllBut | google-ads-api-backend/src/services/authService.js:96-98 | every non-empty header not of the `Bearer <token>` shape is rejected with the format message |
| AuthRoutes.EncodedStateIsNotDefault | google-ads-api-backend/src/routes/authRoutes.js:11-12 | an encoded state is never empty and never the "default" placeholder |
| AuthRoutes.AuthUrlRoute | google-ads-api-backend/src/routes/authRoutes.js:8-23 | the answer is the 200 reply carrying the URL the OAuth2 client built for the encoded state, or, when the client fails, the service's message thrown |
| AuthRoutes.AuthUrlReplyFields | google-ads-api-backend/src/routes/authRoutes.js:16-22 | the reply is 200 with `success`, and data holding that URL as `authUrl` and the fixed instructions |
| AuthRoutes.AuthUrlRouteState | google-ads-api-backend/src/routes/authRoutes.js:11-16 | the URL is requested with the encoded state itself, and the route answers exactly when the URL was built |
| AuthRoutes.CallbackUser | google-ads-api-backend/src/routes/authRoutes.js:48-52 | the user id is the state's or "anonymous", the customer id is the state's or the configured default, and the refresh token is the exchange's |
| AuthRoutes.Callback | google-ads-api-backend/src/routes/authRoutes.js:25-67 | a truthy `error` answers 400 AUTHORIZATION_DENIED and calls nothing; otherwise the exchange comes first, and either a failure is thrown with no reply, or the token is issued for `CallbackUser` of the resolved state and the callback reply is sent |
| AuthRoutes.ResolvedStateFallback | google-ads-api-backend/src/routes/authRoutes.js:39-46 | a missing, empty or "default" state, or one that does not decode, resolves to the configured default customer |
| AuthRoutes.CallbackIdentity | google-ads-api-backend/src/routes/authRoutes.js:48-54 | the signed claims are the callback user's, with the user id defaulted and the refresh token copied |
| AuthRoutes.CallbackReplyFields | google-ads-api-backend/src/routes/authRoutes.js:56-66 | the reply is 200 with success true, and its data carries the token, the echoed refresh token, the resolved customer id, `expiresIn` "24h" and `tokenType` "Bearer" |
| AuthRoutes.CallbackDataFields | google-ads-api-backend/src/routes/authRoutes.js:58-64 | the `data` object holds the six fields of the success reply |
| AuthRoutes.UrlStateRoundTrip | google-ads-api-backend/src/routes/authRoutes.js:11-12 | the state `/url` builds is decoded by `/callback` back to the same customer id and user id |
| AuthRoutes.Login | google-ads-api-backend/src/routes/authRoutes.js:69-98 | the route throws only the signing failure |
| AuthRoutes.LoginUser | google-ads-api-backend/src/routes/authRoutes.js:80-84 | the session is asked for the body's user id or "anonymous", and the body's customer id and refresh token |
| AuthRoutes.LoginMissingFields | google-ads-api-backend/src/routes/authRoutes.js:72-78 | a refresh token or customer id that is missing or falsy, of any JSON type, answers 400 MISSING_REQUIRED_FIELDS, the same for any signer and clock, so no token is issued |
| AuthRoutes.LoginIssues | google-ads-api-backend/src/routes/authRoutes.js:80-97 | with both fields truthy, whatever their type, the answer is the login reply for the token signed for the body's identity and the customer id as sent, or the signing error |
| AuthRoutes.LoginNumericCustomerId | google-ads-api-backend/src/routes/authRoutes.js:72-97 | a body with a numeric customer id is not refused: it gets the 200 login reply with the number echoed, or the signing error |
| AuthRoutes.LoginReplyFields | google-ads-api-backend/src/routes/authRoutes.js:88-97 | the reply is 200 with `success`, the message, and data holding the token, the customer id, `expiresIn` 24h and token type `Bearer`, and no refresh token |
| AuthRoutes.LoginSessionRoundTrip | google-ads-api-backend/src/routes/authRoutes.js:80-97 | the access token of a successful login verifies for 24 hours to the body's user id (or "anonymous"), customer id and refresh token, stamped with the login time, and is expired afterwards |
| AuthMiddleware.Decide | google-ads-api-backend/src/middlewares/authMiddleware.js:4-33 | every rejection is 401, and a missing or empty header is exactly the MISSING_AUTH_TOKEN reply |
| AuthMiddleware.DecideProceeds | google-ads-api-backend/src/middlewares/authMiddleware.js:15-22 | in both directions, a given header passes exactly when it is `Bearer <space-free token>` and the token verifies; the user is then the token's three claims |
| AuthMiddleware.DecideRejects | google-ads-api-backend/src/middlewares/authMiddleware.js:25-31 | a given header that does not pass is INVALID_TOKEN, carrying the format message or one of the verification messages |
| AuthMiddleware.IssuedTokenAccepted | google-ads-api-backend/src/middlewares/authMiddleware.js:15-22 | a backend-issued session token, sent as `Bearer`, passes for 24 hours with its claims as the user |
| AuthMiddleware.IssuedTokenExpires | google-ads-api-backend/src/middlewares/authMiddleware.js:25-31 | after that it is rejected with "Token expirado" |
| AuthMiddleware.Authenticate | google-ads-api-backend/src/middlewares/authMiddleware.js:4-33 | on success `req.user` is set and `next` runs once with nothing sent; otherwise one 401 reply is sent and `next` is not called; exactly one of the two happens |
| ErrorHandler.StatusOf | google-ads-api-backend/src/middlewares/errorHandler.js:30 | the error's own status when it is set and non-zero, else 500 |
| ErrorHandler.HandleError | google-ads-api-backend/src/middlewares/errorHandler.js:3-35 | specified by `HandleErrorClassifies` and the details lemmas: 400 VALIDATION_ERROR, then 400 GOOGLE_ADS_ERROR, then the error's status or 500 with the internal text |
| ErrorHandler.HandleErrorClassifies | google-ads-api-backend/src/middlewares/errorHandler.js:12-34 | a ValidationError is 400 VALIDATION_ERROR, even when its message names GoogleAdsError; otherwise a GoogleAdsError message is 400 GOOGLE_ADS_ERROR; otherwise the status is `StatusOf` and the code INTERNAL_SERVER_ERROR |
| ErrorHandler.ValidationDetails | google-ads-api-backend/src/middlewares/errorHandler.js:16 | the details are the error's truthy details, else its message |
| ErrorHandler.GoogleAdsDetails | google-ads-api-backend/src/middlewares/errorHandler.js:24 | the details are the message |
| ErrorHandler.InternalErrorText | google-ads-api-backend/src/middlewares/errorHandler.js:28-34 | outside development the text is "Erro interno do servidor" and there is no stack; in development it is the message and the stack |
| Validation.Sanitize | google-ads-api-backend/src/middlewares/validation.js:46 | the result contains no `<` and no `>` |
| Validation.SanitizeInput | google-ads-api-backend/src/middlewares/validation.js:43-59 | the query and the body become their sanitized forms, nothing else of the request changes, and `next` is called exactly once |
| Validation.SanitizeQuery | google-ads-api-backend/src/middlewares/validation.js:44-48 | the loop over the query leaves every string value sanitized and every other value alone |
| Validation.SanitizeFields | google-ads-api-backend/src/middlewares/validation.js:50-56 | the loop over an object body sanitizes each string member, keeping keys and order |
| Validation.SanitizeItems | google-ads-api-backend/src/middlewares/validation.js:50-56 | the same for a body that is an array |
| Validation.SanitizedHasNoAngleBrackets | google-ads-api-backend/src/middlewares/validation.js:44-56 | afterwards no string value of the query or body contains `<` or `>` |
| Validation.SanitizeKeeps | google-ads-api-backend/src/middlewares/validation.js:44-48 | the key set and every non-string value are unchanged, and a string keeps all its other characters in order |
| Validation.SanitizedBodyShape | google-ads-api-backend/src/middlewares/validation.js:50-56 | a body that is not an object is left alone; an object keeps its keys, order and non-string members |
| Validation.SanitizeIdempotent | google-ads-api-backend/src/middlewares/validation.js:46-53 | sanitizing twice is sanitizing once |
| Validation.ValidationOutcome | google-ads-api-backend/src/middlewares/validation.js:3-19 | it continues exactly when no error was recorded, and otherwise answers 400 |
| Validation.ValidationDetails | google-ads-api-backend/src/middlewares/validation.js:7-15 | VALIDATION_ERROR with one detail per error, in order, carrying its message and as `field` its path, or else its param |
| Validation.HandleValidationErrors | google-ads-api-backend/src/middlewares/validation.js:3-19 | either `next` is called once and nothing is sent, or the 400 reply is sent and `next` is not called |
| ApiIndex.CorsOrigins | google-ads-api-backend/api/index.js:9-11 | specified by `CorsOriginsShape` and `CorsOriginsRoundTrip`: the three defaults when unset, otherwise one trimmed origin per comma-separated piece, and a joined list of trimmed origins reads back as itself |
| ApiIndex.CorsOriginsShape | google-ads-api-backend/api/index.js:9-11 | unset or empty gives the three default origins; otherwise there are commas + 1 trimmed, comma-free origins |
| ApiIndex.CorsOriginsRoundTrip | google-ads-api-backend/api/index.js:9-10 | a list of trimmed origins written with commas is parsed back to itself |
| ApiIndex.IndexAuthUrl | google-ads-api-backend/api/index.js:29-65 | the reply is 500 exactly when no client id is configured |
| ApiIndex.IndexAuthUrlUnconfigured | google-ads-api-backend/api/index.js:33-38 | without a client id the body is the configuration error and carries no data or URL |
| ApiIndex.IndexAuthUrlData | google-ads-api-backend/api/index.js:40-57 | with a client id the reply is 200 and its data is the URL built from the client id and the encoded state, plus the instructions |
| ApiIndex.AuthUrlParameterOrder | google-ads-api-backend/api/index.js:43-49 | the URL is the endpoint, then client_id, percent-encoded redirect_uri, encoded scope, response_type=code, access_type=offline and the state, which is not percent-encoded, in that order |
| Url.EncodeUriComponent | google-ads-api-backend/api/index.js:45-46 | specified by `EncodedValue` and `UriDecodeEncode`: the encoding holds no `&` or `=`, and decoding gives the ASCII text back |
| ApiIndex.EncodedValue | google-ads-api-backend/api/index.js:45-46 | an encoded value holds no `&` and no `=`, and decoding it gives back ASCII text |
| ApiIndex.UriDecodeEncode | google-ads-api-backend/api/index.js:45-46 | decoding undoes `encodeURIComponent` on ASCII text |
| ApiIndex.IndexAuthUrlState | google-ads-api-backend/api/index.js:40-41 | the state decodes back to the caller's customer id and user id |
| ApiIndex.IndexCallback | google-ads-api-backend/api/index.js:68-95 | specified by `IndexCallbackCases`: a truthy `error` is the 400 denial, anything else the 200 demo token |
| ApiIndex.IndexCallbackCases | google-ads-api-backend/api/index.js:72-87 | a truthy `error` answers 400 AUTHORIZATION_DENIED; anything else answers 200 with the token "demo_jwt_token" |
| ApiIndex.IndexCampaignsReply | google-ads-api-backend/api/index.js:98-143 | specified by `IndexCampaignsShape`, `IndexCampaignsMessage` and `IndexCampaignsCtr`: the demo list with its total, message, echoed id, empty filters and CTRs that are `calculateCTR` of their figures |
| ApiIndex.IndexCampaignsShape | google-ads-api-backend/api/index.js:126-134 | `total` is the length of the list, the message names it, the customer id is echoed and the filters are empty |
| ApiIndex.IndexCampaignsMessage | google-ads-api-backend/api/index.js:103-134 | there are two demonstration campaigns, so the message is "2 campanhas encontradas" |
| ApiIndex.IndexCampaignsCtr | google-ads-api-backend/api/index.js:103-124 | each demonstration CTR is `calculateCTR` of its clicks and impressions, through `Helpers.CalculateCTRIs` |
| ApiIndex.NotFound | google-ads-api-backend/api/index.js:175-181 | specified by `NotFoundEchoes`: a 404 naming the path and the method |
| ApiIndex.NotFoundEchoes | google-ads-api-backend/api/index.js:175-181 | the 404 body names the missing endpoint, the original path and the method |
| CampaignsRoutes.ParseLimit | google-ads-api-backend/src/routes/campaignsRoutes.js:19 | a missing value, one with no digits, or 0 gives 50; any other parsed integer is kept, negatives included; the result is never 0 |
| CampaignsRoutes.ParseLimitRoundTrip | google-ads-api-backend/src/routes/campaignsRoutes.js:19 | a non-zero limit printed by the client is read back unchanged |
| CampaignsRoutes.ParseLimitZero | google-ads-api-backend/src/routes/campaignsRoutes.js:19 | "0" gives the default 50 |
| CampaignsRoutes.ParseLimitNoDigits | google-ads-api-backend/src/routes/campaignsRoutes.js:19 | a text that does not start with a sign or digit gives 50 |
| CampaignsRoutes.Options | google-ads-api-backend/src/routes/campaignsRoutes.js:18-21 | `status` is passed through unchanged, and the limit is `parseInt` of the text of the `limit` value |
| CampaignsRoutes.OptionsSingleLimit | google-ads-api-backend/src/routes/campaignsRoutes.js:19 | a single `limit` string is parsed as sent |
| CampaignsRoutes.OptionsRepeatedLimit | google-ads-api-backend/src/routes/campaignsRoutes.js:19 | a repeated `limit` whose first copy is a positive number gives that number: the copies are joined with commas and parsing stops at the first one |
| CampaignsRoutes.OptionsFiveAndSix | google-ads-api-backend/src/routes/campaignsRoutes.js:19 | `?limit=5&limit=6` gives the limit 5 |
| CampaignsRoutes.ListCampaignsRoute | google-ads-api-backend/src/routes/campaignsRoutes.js:9-37 | the route throws exactly when listing fails |
| CampaignsRoutes.ListCampaignsReply | google-ads-api-backend/src/routes/campaignsRoutes.js:27-36 | the data lists what the service returned, with `total` its length and the message naming that number; the customer id is echoed, and `filters` are the very options the service was called with |
| CampaignsRoutes.ListingDataFields | google-ads-api-backend/src/routes/campaignsRoutes.js:29-34 | the data object carries the count, the customer id and the options |
| ApiClient.ApiBaseUrl | google-ads-frontend/src/lib/api.ts:3 | the configured URL when it is set and non-empty, else `http://localhost:3000` |
| ApiClient.BrowserStorage.GetItem | google-ads-frontend/src/lib/api.ts:15 | the stored value, or none when the key is absent |
| ApiClient.BrowserStorage.SetItem | google-ads-frontend/src/components/CompleteDashboard.tsx:97 | the key now maps to the value, and every other key is unchanged |
| ApiClient.BrowserStorage.RemoveItem | google-ads-frontend/src/lib/api.ts:27 | the key is gone, and every other key is unchanged |
| ApiClient.AddAuthorization | google-ads-frontend/src/lib/api.ts:14-20 | `Authorization` becomes "Bearer " + token exactly when a non-empty token is stored; otherwise the headers are untouched |
| ApiClient.AuthorizationAccepted | google-ads-frontend/src/lib/api.ts:17 | the header the interceptor writes is parsed by the backend back to the token, and passes the middleware exactly when the token verifies |
| ApiClient.OnResponseError | google-ads-frontend/src/lib/api.ts:23-32 | the error is always rejected again; only a 401 removes the stored token and sends the window to `/auth` |
| ApiClient.RequestAfterError | google-ads-frontend/src/lib/api.ts:14-32 | after a 401 the next request goes out with its headers unchanged, so with no session, and the window is at `/auth`; after any other error it still carries the stored token |
| ApiClient.SearchParams.Append | google-ads-frontend/src/lib/api.ts:86-87 | the pair is added at the end |
| ApiClient.GetAuthUrlPath | google-ads-frontend/src/lib/api.ts:84-89 | the path is `/api/auth/url?` followed by the serialised `AuthUrlQuery` |
| ApiClient.AuthUrlQueryRoundTrip | google-ads-frontend/src/lib/api.ts:85-89 | the backend parses back exactly the given ids, customerId before userId, each present only when non-empty |
| ApiClient.GetCampaignsPath | google-ads-frontend/src/lib/api.ts:95-100 | the path is `/api/campaigns/{id}?` followed by the serialised `CampaignsQuery` |
| ApiClient.CampaignsQueryRoundTrip | google-ads-frontend/src/lib/api.ts:96-98 | the query parses back to limit (only when truthy, so 0 is left out) then status (only when non-empty) |
| ApiClient.CampaignsLimitForwarded | google-ads-frontend/src/lib/api.ts:97 | the limit the backend ends up using is the one the client asked for, and 50 when it sent none |
| ApiClient.CampaignsPathSegments | google-ads-frontend/src/lib/api.ts:100 | a customer id without `/` or `?` is the one path segment after `/api/campaigns/` |
| ApiClient.SummaryPathSegments | google-ads-frontend/src/lib/api.ts:107 | the customer id is the one segment between `/api/metrics/` and `/summary` |
| CompleteDashboard.StatusText | google-ads-frontend/src/components/CompleteDashboard.tsx:169-180 | enabled, paused and removed, in any case, give Ativa, Pausada and Removida; any other status is returned unchanged |
| CompleteDashboard.StatusTextIgnoresCase | google-ads-frontend/src/components/CompleteDashboard.tsx:170 | two spellings of a known status get the same label |
| CompleteDashboard.StatusTextAtiva | google-ads-frontend/src/components/CompleteDashboard.tsx:169-180 | in both directions, the label is "Ativa" exactly for an enabled status or the text "Ativa" itself |
| CompleteDashboard.StatusHue | google-ads-frontend/src/components/CompleteDashboard.tsx:155-167 | in both directions: green for enabled or active, yellow for paused, red for removed, gray for anything else |
| CompleteDashboard.StatusHueIgnoresCase | google-ads-frontend/src/components/CompleteDashboard.tsx:156 | the colour depends on the status only up to case |
| CompleteDashboard.StatusColor | google-ads-frontend/src/components/CompleteDashboard.tsx:155-167 | the bordered class text of each colour family |
| CompleteDashboard.StatusColorDistinguishes | google-ads-frontend/src/components/CompleteDashboard.tsx:155-167 | two statuses get the same classes exactly when they get the same colour |
| CompleteDashboard.FilterCampaigns | google-ads-frontend/src/components/CompleteDashboard.tsx:183-185 | specified by `FilterMeaning`: "all" keeps every campaign, any other filter the ordered subsequence whose status matches it ignoring case |
| CompleteDashboard.FilterMeaning | google-ads-frontend/src/components/CompleteDashboard.tsx:183-185 | "all" keeps every campaign; otherwise the result is an order-preserving subsequence holding every campaign whose status equals the filter ignoring case, and only those |
| CompleteDashboard.ChartData | google-ads-frontend/src/components/CompleteDashboard.tsx:188-194 | at most ten bars, the first ten filtered campaigns in order; a name longer than 15 characters becomes its first 15 plus "...", a shorter one stays unchanged, and the figures are copied |
| CompleteDashboard.ChartNamesShort | google-ads-frontend/src/components/CompleteDashboard.tsx:189 | no bar name is longer than 18 characters |
| CompleteDashboard.Distribution | google-ads-frontend/src/components/CompleteDashboard.tsx:196-205 | specified by `DistributionMeaning` and `DistributionMergesCase`: one slice per status label, with counts summing to the number of campaigns |
| CompleteDashboard.DistributionMeaning | google-ads-frontend/src/components/CompleteDashboard.tsx:196-200 | one slice per display label, each label once, its count being the campaigns with that label, and the counts summing to the number of campaigns |
| CompleteDashboard.DistributionMergesCase | google-ads-frontend/src/components/CompleteDashboard.tsx:196-200 | campaigns enabled in any mix of cases form the one slice "Ativa" |
| CompleteDashboard.FetchRequests | google-ads-frontend/src/components/CompleteDashboard.tsx:100-106 | two requests: the campaigns path with limit 100 and the chosen status, then the summary path |
| CompleteDashboard.FetchQuery | google-ads-frontend/src/components/CompleteDashboard.tsx:101-104 | the campaigns query asks for 100 campaigns, and for the status only when the filter is not "all" |
| CompleteDashboard.FailureMessage | google-ads-frontend/src/components/CompleteDashboard.tsx:127-131 | the backend's error text when there is one, else the fixed message |
| CompleteDashboard.Component.FetchAllData | google-ads-frontend/src/components/CompleteDashboard.tsx:86-135 | a blank id (the argument, else the current id) only sets the error, sends nothing and changes no storage; any other id is stored and both requests go out, after which the data is replaced or the error is set and loading ends |
| CompleteDashboard.Component.Load | google-ads-frontend/src/components/CompleteDashboard.tsx:93-134 | the id is stored, then the outcome replaces campaigns and metrics or sets the error, and loading ends |
| CompleteDashboard.Component.Mount | google-ads-frontend/src/components/CompleteDashboard.tsx:71-84 | the session decides `isAuthenticated`; a saved id is restored and loaded only when a session exists: a blank one only sets the error, any other one takes the outcome of the requests; without both nothing else changes, and the status filter never does |
| CompleteDashboard.Logout | google-ads-frontend/src/components/CompleteDashboard.tsx:137-141 | both the session token and the saved customer id are removed, nothing else is, and the window goes to `/auth` |
| CompleteDashboard.LogoutThenMount | google-ads-frontend/src/components/CompleteDashboard.tsx:137-141 | after logging out, the dashboard mounted next is not authenticated, restores no id, requests nothing and holds no data; every other stored key is kept |
| Dashboard.PlainStatusColor | google-ads-frontend/src/components/Dashboard.tsx:106-118 | green, yellow, red or gray classes by the same colour choice as the full dashboard |
| Dashboard.PlainColorBordered | google-ads-frontend/src/components/Dashboard.tsx:106-118 | the full dashboard's classes are these followed by the border class of the same colour |
| Dashboard.FullChartData | google-ads-frontend/src/components/Dashboard.tsx:120-125 | every campaign in order; a name longer than 20 characters becomes its first 20 plus "...", and the figures are copied |
| Dashboard.RawDistribution | google-ads-frontend/src/components/Dashboard.tsx:127-136 | specified by `RawDistributionMeaning`: one slice per raw status, with counts summing to the number of campaigns |
| Dashboard.RawDistributionMeaning | google-ads-frontend/src/components/Dashboard.tsx:127-131 | one slice per distinct raw status, each counting the campaigns with exactly that status, the counts summing to the number of campaigns |
| Dashboard.RawDistributionKeepsCase | google-ads-frontend/src/components/Dashboard.tsx:127-131 | "ENABLED" and "enabled" are two slices here but one in the full dashboard |
| Dashboard.DashboardRequests | google-ads-frontend/src/components/Dashboard.tsx:81-84 | the campaigns path without options, then the summary path |
| Dashboard.Render | google-ads-frontend/src/components/Dashboard.tsx:138-165 | in both directions: the demo exactly for "demo_token", the login prompt exactly for another or no token when not authenticated |
| Dashboard.Component.Mount | google-ads-frontend/src/components/Dashboard.tsx:50-65 | `isAuthenticated` is whether a token is stored; a saved id is restored unless the session is the demo one |
| Dashboard.Component.FetchData | google-ads-frontend/src/components/Dashboard.tsx:67-93 | a blank id only sets the error and sends nothing; any other id is stored, both requests go out, and their outcome replaces the data or sets the error |
| Dashboard.ScreenAfterMount | google-ads-frontend/src/components/Dashboard.tsx:50-65 | right after mounting, the demo token shows the demo, no session shows the login prompt, and any other session shows the dashboard |
| Dashboard.LogoutThenDashboard | google-ads-frontend/src/components/Dashboard.tsx:50-65 | after `handleLogout`, the dashboard mounted next is not authenticated and so renders the login prompt, restores no customer id and holds no data; storage lost exactly the two keys |
| DemoDashboard.DemoMetricsConsistent | google-ads-frontend/src/components/DemoDashboard.tsx:37-97 | the summary's campaign count, active count, impressions, clicks and cost (832200 cents) are what the campaigns add up to, and its CTR "3.97" is the backend's `calculateCTR` of the totals |
| DemoDashboard.DemoCtrConsistent | google-ads-frontend/src/components/DemoDashboard.tsx:37-88 | every demonstration campaign's CTR text is `calculateCTR` of its clicks and impressions |
| DemoDashboard.PerformanceData | google-ads-frontend/src/components/DemoDashboard.tsx:99-104 | every campaign in order; a name longer than 15 characters becomes its first 15 plus "...", and the figures are copied |
| DemoDashboard.DemoPerformanceNames | google-ads-frontend/src/components/DemoDashboard.tsx:99-104 | the five names shown for the demonstration data |
| DemoDashboard.DemoDistribution | google-ads-frontend/src/components/DemoDashboard.tsx:106-110 | ENABLED 3, PAUSED 1, REMOVED 1, in order of first appearance |
| DemoDashboard.DemoStatusLabels | google-ads-frontend/src/components/DemoDashboard.tsx:155-166 | its `getStatusText` (the same function as the full dashboard's) labels the demonstration statuses Ativa, Pausada and Removida |
| DemoDashboard.DemoStatusColor | google-ads-frontend/src/components/DemoDashboard.tsx:142-153 | green for enabled, yellow for paused, red for removed, gray otherwise; there is no "active" case |
| DemoDashboard.DemoColorDiffersOnActive | google-ads-frontend/src/components/DemoDashboard.tsx:142-153 | in both directions, it agrees with the first dashboard's badge on every status except "active" in any case |
| Text.TrimEmptyIffBlank | google-ads-frontend/src/components/CompleteDashboard.tsx:88 | in both directions, trimming gives the empty text exactly when the text is blank |
| Text.ParseInt | google-ads-api-backend/src/routes/campaignsRoutes.js:19 | specified by `ParseIntToString` and the `ParseLimit` lemmas: a printed integer reads back, a text without digits is `NaN` (none), and reading stops at the first non-digit |
| Text.ParseIntToString | google-ads-api-backend/src/routes/campaignsRoutes.js:19 | `parseInt` reads back any printed integer |
| Tally.TallyOf | google-ads-frontend/src/components/Dashboard.tsx:127-131 | specified by `TallyCounts` and `TallyOrder`: each key once with its number of occurrences, in first-occurrence order |
| Tally.TallyCounts | google-ads-frontend/src/components/Dashboard.tsx:127-131 | the `reduce` keeps each key once, counts its occurrences, and the counts sum to the input length |
| Tally.TallyOrder | google-ads-frontend/src/components/Dashboard.tsx:133 | the keys come in the order of their first occurrence |
| Url.SerializeParams | google-ads-frontend/src/lib/api.ts:89 | specified by `SerializeParamsRoundTrip`: the serialised ASCII pairs parse back to the same pairs in order |
| Url.SerializeParamsRoundTrip | google-ads-frontend/src/lib/api.ts:89 | `URLSearchParams` serialisation of ASCII pairs is parsed back to the same pairs |

## Left out

- Logging (`logger.js` and `console.error`): output only.
- `asyncHandler` (`errorHandler.js:37-41`): promise plumbing. A route that throws is modelled by its `Threw` result.
- The express-validator chains `validateCustomerId` and `validateCampaignId` (`validation.js:21-41`): library semantics. `handleValidationErrors` receives the recorded errors as an input.
- `metricsRoutes.js`, and the health and metrics-summary handlers of `api/index.js`: they return constants only.
- The final error handler of `api/index.js`: its constant 500 reply is not modelled.
- `scripts/setup.js`, the auth page, `next.config.js`, `jest.config.js` and the tests: file I/O, navigation, timers, configuration and test setup.
- The Google Ads queries (`getCustomerClient`, `listCampaigns`): they are network calls. The report rows and the listing are inputs.
- `oauth2Client.getToken` is an input: the provider's answer.
- `jwt.sign` and `jwt.verify` are the `JwtCodec` functions, assumed only through `Sound`.
- Base64 and `JSON.parse` of the OAuth state are the `StateCodec`, assumed only through `StateSound`.
- Helpers.RoundedHundredths: rounds exact rationals to the nearest hundredth. It does not model binary floating point, so `toFixed(2)` on a value like 1.005 may differ.
- JavaScript number detail for CTR, CPC and cost:
  - `parseFloat` of conversions and of the CTR text is not modelled; conversions are already reals.
  - `Intl.NumberFormat` currency and number formatting is rendering and is not modelled.
- Helpers.ValidateCustomerId / Helpers.FormatCustomerId: ids are modelled as strings only. The source first calls `customerId.toString()`, so it also accepts a number (`1234567890` is valid and formats to "1234567890") and reads an array as its items joined by ","; that conversion is not modelled, nor the `TypeError` `formatCustomerId` throws on `null` or `undefined`. No other file of the source calls these two helpers.
- Helpers.ValidateIsFormattedTenDigits: states the ten-digit test of the cleaned id for string ids only, for the reason on the line above.
- Text.AsciiLower: lower-cases ASCII letters only, where `toLowerCase` also maps other Unicode letters. White space for `trim` and `\s` is a fixed set of characters.
- Strings are sequences of characters, with no UTF-16 surrogate detail.
- JSX and recharts rendering: not modelled.
- `Promise.all` in the dashboards is a single outcome, both answered or one failed.
- The account-information fetch of `fetchAllData` is not modelled. Its failure is caught and ignored.
- The `setTimeout` refresh of the demo dashboard: a timer toggle.
- CompleteDashboard.Component.FetchAllData: computes its request paths before setting the loading state. State is not observable between those steps.
- `Object.entries` ordering: integer-like keys would come first, and the model keeps first-occurrence order for every key.
- The response success interceptor is the identity and is not modelled.
- Express header lower-casing is not modelled: the middleware reads the header under the `authorization` key.
- AdsService.GoogleAdsService.constructor: leaves the client absent and does not call `initializeClient` itself, because a Dafny constructor cannot fail. Calling `InitializeClient` right after is the source's constructor.
- The DemoDashboard `handleLogout` (`DemoDashboard.tsx:175-179`) is the same code as `CompleteDashboard.Logout`, and is not modelled twice.
- AuthRoutes.Login: a truthy `refreshToken`, `customerId` or `userId` that is not a string (a number, `true`, an object) passes the check and the customer id is echoed, as in the source. The session claims are strings only, so such a value is signed as absent, and a user id then becomes `anonymous`. The source signs the value itself. `LoginUser` and `LoginSessionRoundTrip` speak of string members only.
- AuthRoutes.StateParse: a parsed state object keeps only string `customerId` and `userId` members. A state whose ids are other JSON values (a number, say) is read as lacking them, where the source would use such an id.
- Query parameters other than `limit` and `status` are read as single strings. A repeated `code`, `state`, `customerId` or `userId`, which Express delivers as an array, is read as absent.
- CampaignsRoutes.Options: a numeric query value has no text and gives the default limit. The query-string parser never builds one.
- The per-row cost division follows the code. `SumCostIsMicros` relates it to integer micros.
