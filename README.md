# The business onboarding core of the Moov / Plaid proxy

This project models in Dafny the core of the proxy's `server.js`. That core is the `POST /create-account` handler, which onboards a batch of operators. The model covers:
- its OAuth scope resolver `getScopes`, with the two scope tables;
- the business-type normaliser;
- the four request-body builders: account, representative, underwriting and bank account;
- the operator loop, with its per-operator `try`/`catch`.

For every operator, the handler:
1. creates a business account with the bootstrap token;
2. asks for a token scoped to the new account, keeping the bootstrap token, and recording nothing, when that request fails;
3. fetches and accepts the terms of service;
4. adds the representative and marks the owners as provided;
5. sends the underwriting figures;
6. adds the bank account.

A failed step is recorded in `errors`, except a failed scoped-token request of step 2: the bootstrap token is used without a record. A failed create request skips the operator (`continue`). An exception ends the operator and is recorded as a `processing` error, under the name `operator.businessInfo?.legalBusinessName || "Unknown"`. For an `undefined` or `null` operator, that read of `operator.businessInfo` in the `catch` block throws in its turn: the exception leaves the loop, and the request answers 500 `Error creating Moov accounts`. After the loop, the handler answers 201 when at least one account was created and 400 otherwise.

The files:
- `js_value.dfy` models the JavaScript values the code handles: truthiness, `||`, `??`, property reads that throw on `undefined`/`null`, and ToString.
- `scopes.dfy` models the scope tables as templates and `getScopes`.
- `business_type.dfy` models `normalizeBusinessType`.
- `payloads.dfy` models the four payload builders.
- `onboarding.dfy` describes the handler by functions: each step, one operator's `try` and `catch`, the loop as a fold, and the request.
- `create_account.dfy` is the handler again as imperative methods. Local lists grow step by step, `scopedToken` is reassigned, and the `while` loop over the operators carries the invariant that what it has accumulated is the batch function of the operators processed so far. Each method is proved equal to its function.
- `onboarding_properties.dfy` and `batch_properties.dfy` prove what the functions guarantee.

The model does not perform the requests. Each request is replaced by the reply it gets, which is an input:
- `Accepted(body)`: an ok response with its JSON body;
- `Rejected(body)`: a failed response with its JSON body;
- `Threw(message)`: an exception, because `fetch` itself threw or because a body the code reads is not JSON.

Each operator gets one `Replies` record with a reply for every request it may make. The model returns, as a trace, the requests it makes, in order, with their payloads and tokens.

Facts about the code worth knowing:
- `getScopes(x, false)` yields 5 scopes, and `getScopes(x, true)` yields 14.
- A created account carries at most 4 step errors, one per stage. Accepting the terms is attempted only once a terms token arrived, and marking the owners only once the representative was added, so each of those pairs yields at most one error.
- A bootstrap token request that throws, or whose reply cannot be read, ends in a 500; a failed one ends in a 400 `Failed to get access token`.
- An id without `$` and free of `{accountID}` leaves no placeholder, but the id `{accountID}` itself leaves one.
- The camelCase keys of the business-type table can never match, because the input is lower-cased first.

## Model

| member | source | states |
|---|---|---|
| JsValue.Or | server.js:850-853 | `v \|\| d` is `v` when `v` is truthy and `d` otherwise; the result is truthy iff either operand is |
| JsValue.Coalesce | server.js:767-770 | `v ?? d` is `d` exactly when `v` is `undefined` or `null`; the result is nullish iff both are |
| JsValue.Get | server.js:656 | a property read throws exactly on `undefined` and `null`; an object yields its own property or `undefined` |
| JsValue.NatToString | server.js:970 | the decimal digits, without leading zeros, denote the number: the counts of the summary message |
| JsValue.JoinWith | server.js:62 | joining one part gives that part |
| JsValue.JsString | server.js:62 | the string conversion `replaceAll` applies to the account id leaves a string unchanged |
| ScopeTables.BasicTemplates | server.js:26-32 | the `withoutAccountID` table, in order; `GetScopesSplit` gives its 5 filled scopes and `BasicScopesInFull` its inclusion in the full table |
| ScopeTables.FullTemplates | server.js:33-48 | the `withAccountID` table, in order; `GetScopesSplit` gives its 14 filled scopes |
| Scopes.GetScopes | server.js:51-62 | `filteredScopes.join(" ").replaceAll("{accountID}", accountID)`; its properties are the lemmas below |
| Scopes.ReplaceAll | server.js:62 | literal left-to-right `replaceAll`; `ReplaceAllNoOccurrence`, `ReplaceAllConcat` and `ReplaceAllJoin` state how it acts |
| Scopes.GetScopesJoin | server.js:51-62 | `getScopes` is the chosen table joined with spaces, each template filled with the id |
| Scopes.GetScopesSplit | server.js:25-62 | for an id without spaces, splitting the result on spaces gives back the chosen table with the id filled in: 5 scopes for the basic table, 14 for the full one |
| Scopes.BasicScopesInFull | server.js:25-48 | every basic scope is also requested when all scopes are |
| Scopes.GetScopesNoPlaceholder | server.js:62 | under literal replacement, an id free of `{accountID}` leaves no placeholder in the result; in the code this holds for an id that also has no `$` |
| Scopes.PlaceholderSurvives | server.js:62 | the id `{accountID}` leaves the placeholder in the result, for either table |
| Scopes.EmptyProfileScope | server.js:29 | the profile scope for the empty id is `/accounts//profile.read` |
| Scopes.BootstrapScopes | server.js:548 | the bootstrap scope string has no placeholder and holds the empty-segment profile scope |
| Scopes.ReplaceAllJoin | server.js:62 | replacing in the joined table equals joining the replaced templates |
| Scopes.SplitJoin | server.js:62 | splitting a join on a separator no part contains gives back the parts |
| BusinessType.Lower | server.js:575 | `toLowerCase` keeps the length and lowers each character |
| BusinessType.Trim | server.js:575 | `trim`; `TrimIs` states that it removes exactly the surrounding whitespace, and `NormalizePadding` that padding is ignored |
| BusinessType.Canonical | server.js:575 | `type.toLowerCase().trim()`; `CanonicalNoUpper` and `CanonicalLength` state its properties |
| BusinessType.TypeMap | server.js:576-590 | `typeMap`'s 13 own keys and values; `LookupLowerCase` states which values a lower-case key reaches |
| BusinessType.Lookup | server.js:576-591 | `typeMap[normalized] \|\| "llc"` over the table's own keys; `LookupLowerCase` bounds its results |
| BusinessType.NormalizeBusinessType | server.js:573-592 | a falsy type gives `"llc"`; a call throws exactly on a truthy non-string |
| BusinessType.NormalizeRange | server.js:575-591 | every result is one of the six structures a lower-cased key can reach |
| BusinessType.LookupLowerCase | server.js:576-591 | a key without upper-case letters maps into those six structures |
| BusinessType.CanonicalNoUpper | server.js:575 | the lower-cased, trimmed key has no upper-case letter |
| BusinessType.NormalizePadding | server.js:575 | surrounding whitespace does not change the result |
| BusinessType.NormalizeCase | server.js:575 | inputs equal up to letter case give the same result |
| BusinessType.CanonicalKey | server.js:575-591 | a trimmed lower-case key is looked up unchanged |
| BusinessType.CorpExample | server.js:575-579 | `"Corp"` gives `privateCorporation` |
| BusinessType.CorporationExample | server.js:575-578 | `"corporation"` gives `privateCorporation` |
| BusinessType.IncExample | server.js:575-580 | `" INC "` gives `privateCorporation` |
| BusinessType.UpperIncExample | server.js:575-580 | `"INC"` gives `privateCorporation` |
| BusinessType.IncorporatedExample | server.js:575-581 | `"incorporated"` gives `privateCorporation` |
| BusinessType.UnknownDefault | server.js:574-591 | every non-empty string whose key the table lacks gives the same `"llc"` as no business type |
| BusinessType.PrivateCorporationMisses | server.js:575-591 | `"privateCorporation"` falls back to `"llc"` |
| BusinessType.NotIdempotent | server.js:575-591 | `"corp"` gives `privateCorporation`, but `privateCorporation` gives `"llc"` |
| BusinessType.RangeAttained | server.js:576-591 | each of the six structures is the result for some input |
| BusinessType.LlcKey | server.js:577 | `"llc"` gives `"llc"` |
| BusinessType.CorpKey | server.js:579 | `"corp"` gives `privateCorporation` |
| BusinessType.IncKey | server.js:580 | `"inc"` gives `privateCorporation` |
| BusinessType.PartnershipKey | server.js:582 | `"partnership"` gives `partnership` |
| BusinessType.SoleProprietorshipKey | server.js:584 | `"sole proprietorship"` gives `soleProprietorship` |
| BusinessType.TrustKey | server.js:586 | `"trust"` gives `trust` |
| BusinessType.NonprofitKey | server.js:589 | `"nonprofit"` gives `unincorporatedNonProfit` |
| Payloads.Prop | server.js:569 | reading a property of a non-nullish value never throws |
| Payloads.OptionalProp | server.js:766-770 | `v?.key` is `undefined` on a nullish `v` and the property otherwise |
| Payloads.IfTruthy | server.js:603-614 | a spread `...(v && { key: v })` adds the key, holding `v`, exactly when `v` is truthy |
| Payloads.BuildAccountData | server.js:594-619 | with no `businessInfo` the build throws; otherwise it succeeds iff the business type normalises. On success the type is `business`, the capabilities are the four of the code, the structure is the normalised business type (so a reachable one), the name, website, email, phone and address are copied, and each optional field is present, holding the supplied value, iff that value is truthy |
| Payloads.BuildRepresentative | server.js:757-773 | the flags and the percentage default to `true`, `true` and `100` only for nullish values; the job title defaults to `"Owner"` for any falsy value; both "provided" flags are set; the name, phone, email, address, birth date and government id are copied |
| Payloads.FalsyResponsibilities | server.js:766-771 | `false`, `false` and `0` are kept, and `""` becomes `"Owner"` |
| Payloads.MissingResponsibilities | server.js:766-771 | missing responsibilities take the owner defaults |
| Payloads.BuildUnderwriting | server.js:849-854 | each figure defaults to 500, 5000 and 500000 for any falsy value, so every figure sent is truthy |
| Payloads.ZeroUnderwriting | server.js:849-854 | zero figures are replaced by the defaults |
| Payloads.BuildBankAccount | server.js:891-900 | the numbers are copied; the type, holder name and holder type default through `\|\|` to `checking`, the legal business name and `business` |
| Onboarding.ScopedToken | server.js:679-683 | the scoped token is the initial token after a failed response, and the reply's `access_token` after an ok one; these three cases are the definition itself, and `TokenFallback` and `ChooseScopedToken` state what follows from them |
| Onboarding.CaughtName | server.js:960 | the `catch` block's name read throws exactly for a nullish operator; otherwise it is `businessInfo?.legalBusinessName` when truthy and `"Unknown"` else, so always truthy |
| Onboarding.SummaryResponse | server.js:968-973 | 201 and `success` iff some account was created, 400 and `failed` otherwise; the message gives the operator count and the created-account count in decimal; the accounts are listed; the `errors` key is present iff there are errors, and lists them |
| Onboarding.OperatorList | server.js:526-533 | `operators` when it is a truthy, non-empty array; `MissingOperators` states that otherwise nothing is requested |
| Onboarding.MissingOperatorsResponse | server.js:529-532 | the 400 for a missing or empty `operators`; `MissingOperators` states when it is sent |
| Onboarding.TokenFailedResponse | server.js:555-559 | the 400 `Failed to get access token` with the provider's reply; `BootstrapRejected` states when it is sent |
| Onboarding.CrashedResponse | server.js:976-980 | the 500 `Error creating Moov accounts` with the exception's message; `HandleStatus` and `BatchResponse` state when it is sent |
| Onboarding.TermsOfServiceSteps | server.js:684-754 | step 3; `TermsOfServiceShaped` and `TermsGate` state its properties |
| Onboarding.RepresentativeSteps | server.js:755-847 | step 4; `RepresentativeShaped` and `RepresentativeGate` state its properties |
| Onboarding.UnderwritingStep | server.js:848-888 | step 5; `UnderwritingShaped` and `LaterRequestsGate` state its properties |
| Onboarding.BankAccountStep | server.js:889-949 | step 6; `BankAccountShaped` and `LaterRequestsGate` state its properties |
| Onboarding.LaterSteps | server.js:684-949 | steps 3 to 6, stopping at an exception; `LaterStepsShaped` and `AllStepsRejected` state its properties |
| Onboarding.AfterCreation | server.js:660-956 | steps 2 to 6 and the `createdAccounts.push`; `AccountMeansReached`, `TokenFallback` and `CreatedAccountShape` state its properties |
| Onboarding.TryOperator | server.js:568-956 | the `try` block of one iteration; `ReachedOutcome`, `UnreachedOutcome` and the lemmas after them state its properties |
| Onboarding.Catch | server.js:957-964 | the `catch` block; `ReachedOutcome`, `NullishOperator` and `CreationThrew` state its properties |
| Onboarding.RunOperator | server.js:568-965 | one iteration; `OperatorTally` states its properties |
| Onboarding.Batch | server.js:567-965 | the loop; `BatchEscapes`, `BatchTally` and `BatchGrows` state its properties |
| Onboarding.Handle | server.js:524-982 | the whole request; `HandleStatus`, `MissingOperators`, `BootstrapRejected` and `BatchResponse` state its properties |
| OnboardingProperties.TermsOfServiceShaped | server.js:684-754 | step 3 records at most its stage's error, naming the operator and the account, and uses the account's token for the account |
| OnboardingProperties.RepresentativeShaped | server.js:755-847 | the same for step 4 |
| OnboardingProperties.UnderwritingShaped | server.js:848-888 | the same for step 5 |
| OnboardingProperties.BankAccountShaped | server.js:889-949 | the same for step 6 |
| OnboardingProperties.ThenShaped | server.js:684-949 | composing step runs with successive stages keeps the errors in stage order |
| OnboardingProperties.LaterStepsShaped | server.js:684-949 | steps 3 to 6 record errors in strictly increasing stage order (stages 1 to 4), each naming the operator and the account, and every request uses one token for one account |
| OnboardingProperties.OrderedLength | server.js:684-949 | stage-ordered errors within stages 1 to 4 number at most 4 |
| OnboardingProperties.TermsGate | server.js:700-722 | terms are accepted only after an ok terms-token reply, with that reply's `token` |
| OnboardingProperties.RepresentativeGate | server.js:756-846 | nothing happens for a falsy contact; owners are marked provided only after the representative was accepted |
| OnboardingProperties.LaterRequestsGate | server.js:849-900 | the bank account is added only for a truthy `bankAccount`, with its built payload; underwriting is always sent once |
| OnboardingProperties.AllStepsRejected | server.js:684-949 | when every step is rejected, with a contact and a bank account, the account gets exactly four errors, one per stage, and nothing throws |
| OnboardingProperties.ReachedOutcome | server.js:569-965 | such an operator has an account iff no step threw; otherwise it gets one `processing` error without an account id, under the `catch` block's name; nothing escapes |
| OnboardingProperties.NullishOperator | server.js:569-960 | an `undefined`/`null` operator makes no request, and an exception escapes the loop |
| OnboardingProperties.ProfileFails | server.js:594-596 | a profile that does not build makes no request and records one `processing` error |
| OnboardingProperties.CreateRejected | server.js:643-653 | a rejected create request records the one `create_account` error and makes no further request |
| OnboardingProperties.CreationThrew | server.js:621-683 | a create request that throws, an id that cannot be read, or a token request that throws gives one `processing` error and no account |
| OnboardingProperties.UnreachedOutcome | server.js:569-683 | an operator that stops before step 3 has no account and made at most 2 requests; it escapes iff it is nullish, and otherwise has exactly one terminal error |
| OnboardingProperties.AccountMeansReached | server.js:951-956 | an account is recorded only after all steps ran without an exception, with the operator's name, the id, the create reply and the scoped token |
| OnboardingProperties.TokenFallback | server.js:679-683 | after a failed token request the recorded account keeps the initial token |
| OnboardingProperties.CreatedAccountShape | server.js:621-956 | with an account: the create request used the initial token; the token request was for the id with all scopes; later requests use the account's token for the account; its errors name it, are stage-ordered, none terminal, and at most 4 |
| OnboardingProperties.CountTerminal | server.js:643-653 | the terminal-error count never exceeds the error count |
| OnboardingProperties.CountTerminalConcat | server.js:567-965 | terminal errors of concatenated lists add up |
| OnboardingProperties.StepErrorsNotTerminal | server.js:684-949 | no error of steps 3 to 6 is terminal |
| OnboardingProperties.ReachedTally | server.js:569-965 | an operator that reached step 3 ends with exactly one of an account and a terminal error |
| OnboardingProperties.UnreachedTally | server.js:569-683 | a non-nullish operator that stopped earlier ends with exactly one terminal error |
| OnboardingProperties.OperatorTally | server.js:567-965 | an operator escapes iff it is nullish; otherwise it ends with exactly one of an account and a terminal error |
| BatchProperties.EscapeEndsBatch | server.js:567-965 | after an escape, later operators are not processed |
| BatchProperties.BatchStops | server.js:567 | the loop's exit gives the whole batch |
| BatchProperties.BatchEscapes | server.js:567-965 | the loop escapes iff some operator is `undefined` or `null` |
| BatchProperties.ExtendTally | server.js:951-963 | one more fully accounted operator adds one to the count |
| BatchProperties.BatchTally | server.js:567-965 | without an escape, created accounts plus terminal errors equal the number of operators |
| BatchProperties.ExtendGrows | server.js:951-963 | one more operator only appends |
| BatchProperties.BatchGrows | server.js:567-965 | the errors, accounts and requests after `k` operators are prefixes of the final ones |
| BatchProperties.HandleStatus | server.js:524-981 | the status is 201, 400 or 500; it is 201 iff the summary lists an account; a 500 carries `Error creating Moov accounts` |
| BatchProperties.MissingOperators | server.js:526-533 | without a non-empty `operators` array no request is made, and the answer is the 400 (a 500 for a nullish body) |
| BatchProperties.BootstrapScope | server.js:536-551 | the bootstrap token asks for the 5 basic scopes, including `/accounts//profile.read` |
| BatchProperties.BootstrapFirst | server.js:536-551 | with operators, the first request is the bootstrap token request |
| BatchProperties.BootstrapRejected | server.js:553-560 | a failed bootstrap token request ends the request with `Failed to get access token` after that one request |
| BatchProperties.BatchResponse | server.js:562-973 | once the bootstrap token arrived, the answer is a 500 iff some operator is nullish; otherwise accounts plus terminal errors equal the number of operators |
| CreateAccount.AcceptTermsOfService | server.js:684-754 | step 3, computed by updating local lists, equals `TermsOfServiceSteps` |
| CreateAccount.AddRepresentative | server.js:755-847 | step 4 equals `RepresentativeSteps` |
| CreateAccount.UpdateUnderwriting | server.js:848-888 | step 5 equals `UnderwritingStep` |
| CreateAccount.AddBankAccount | server.js:889-949 | step 6 equals `BankAccountStep` |
| CreateAccount.AgreeAndRepresent | server.js:684-847 | steps 3 and 4, stopping at an exception |
| CreateAccount.SetUpAccount | server.js:848-949 | steps 5 and 6, stopping at an exception |
| CreateAccount.CompleteAccount | server.js:684-949 | steps 3 to 6 equal `LaterSteps` |
| CreateAccount.Joined | server.js:684-949 | appending a later step run after one that did not throw |
| CreateAccount.ChooseScopedToken | server.js:679-683 | `scopedToken` starts as the initial token and is replaced by the ok reply's `access_token` |
| CreateAccount.AfterAccountCreated | server.js:660-956 | steps 2 to 6 equal `AfterCreation` |
| CreateAccount.TryOperatorBlock | server.js:568-956 | the `try` block equals `TryOperator` |
| CreateAccount.CatchBlock | server.js:957-964 | the `catch` block equals `Catch` |
| CreateAccount.ProcessOperator | server.js:568-965 | one iteration equals `RunOperator` |
| CreateAccount.ProcessNext | server.js:567-965 | one more iteration extends the batch of the operators before it |
| CreateAccount.ProcessOperators | server.js:563-966 | the loop's errors, created accounts and requests equal `Batch`, whose properties are proved above |
| CreateAccount.HandleCreateAccount | server.js:524-982 | the handler's response and requests equal `Handle` |

## Left out

- The network, the environment variables, the headers, the API version and the URLs are left out. Each request is a reply given as input, and each request in the trace records only its token, account and payload.
- The other routes of `server.js` (`/health`, `/accessToken`, the account, wallet and Plaid routes) are left out; they are not part of this model.
- Logging (`console.log`, `console.error`) is left out. The `bankAccountID` check of step 6 is kept only for the read that can throw, with no output.
- The constant bodies of the terms-of-service acceptance and of the owners-provided update are not modelled; those requests are recorded with their token, account id and terms token.
- Numbers are unbounded integers plus `NaN`. Fractional numbers, `-0` and `Infinity` are left out. `JsString` writes every digit of an integer, while JavaScript's ToString writes a magnitude of at least 10^21 in exponent form (`1e+21`); a numeric account id that large reaches the scope string in a different form.
- BusinessType.NormalizeRange: holds of the table's own keys only. In the code `typeMap` is an object literal, so the keys `"constructor"` and `"__proto__"` (after lower-casing and trimming) find the inherited `Object` constructor and `Object.prototype`. Both are truthy non-strings, and `normalizeBusinessType` returns them; the model returns `"llc"` for these two keys.
- BusinessType.Lookup: looks up the table's own keys only, so it returns `"llc"` for `"constructor"` and `"__proto__"`, where the code returns the inherited `Object` constructor and `Object.prototype`.
- BusinessType.UnknownDefault: holds of the own-key table only; `"constructor"` and `"__proto__"` are non-empty strings the table lacks, yet the code does not return `"llc"` for them.
- Property reads see an object's own keys only; inherited properties and those of strings and arrays (such as `length`) are left out.
- `replaceAll` is literal replacement. The `$` patterns of a replacement string, and a function as replacement, are left out.
- Scopes.GetScopesNoPlaceholder: holds under literal replacement only. In the code the id is a replacement string, so an id containing `$&` puts each matched `{accountID}` back, and in the full table an id containing `` $' `` brings back the placeholders that follow the match (`` $` `` likewise the earlier ones); such ids keep placeholders in the source.
- `toLowerCase` lowers ASCII letters only; `trim` removes the ECMAScript whitespace and line-terminator characters. Unicode case mapping, such as U+212A KELVIN SIGN lowering to `k`, is left out.
- `JSON.stringify` is not modelled: an error record's `accountID` field is kept even when it holds `undefined`, which the response would drop.
- Exception messages follow V8's wording for property reads and for destructuring `operator`. The message for destructuring a nullish `req.body` or token body is that of a property read.
- Each operator is handled sequentially, as in the code, and the asynchronous suspension points are not modelled.
