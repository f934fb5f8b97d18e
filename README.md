# 88code status: credit engine, subscription fetch and API-key lookup

A Dafny model of the logic behind a VS Code status-bar extension for the
88code billing service. It has three parts:

- **Credit engine** (`calc.dfy`, module `Calc`). Subscription records become
  credit figures. A subscription's total is its clamped current credits plus
  its clamped remaining resets times its clamped plan limit. A pay-per-use
  plan has no resets. The active sum adds up the current credits of the active
  entries. The total sum adds up the per-subscription totals of every entry.
  A JavaScript `number` is `Num = Finite(real) | NonFinite`, so
  `Number.isFinite` is a constructor test. Arithmetic is exact.
- **Subscription fetch** (`api.dfy`, module `Api`). `fetchSubscriptions` runs a
  fixed chain of early failures: missing key, no `fetch`, a malformed
  response, `ok == false`, a body that is not an array. Otherwise it returns
  the parsed body unchanged. `FetchResult` is that chain as one function.
  `FetchSubscriptions` is the call itself. It returns the result and the
  sequence of side effects it performs: the timer is started, one request is
  issued, and the timer is cleared.
- **API-key lookup** (`config.dfy`, module `Config`). The key comes from the
  Codex auth file, then the Claude settings file, then the environment
  variables. Each file's value must start with `88_`. The environment lookup
  takes the first non-empty variable and validates only that one.

Supporting modules: `Wrappers` (Option, Result), `JsValues` (numbers, parsed
JSON values, property reads on them), `Types` (the fields of the subscription
record that the engine reads).

Inputs that the source gets from its environment are parameters:
- The Api outcome of the awaited `fetch` is a `FetchOutcome`: it resolves with
  a `Response` or rejects with a message. A network failure, and an abort by
  the 8000 ms timer before `fetch` settles, show up as a rejection of `fetch`.
  An abort after `fetch` has resolved shows up as a rejection of `res.json()`,
  which is the `BodyRejected` case of the response.
- Whether `globalThis.fetch` is a function is a `bool`.
- Each config file is `Option<Value>`: `None` when reading the file or running
  `JSON.parse` fails.
- `process.env` is a `map<string, string>`.

## Not in the code

- No response envelope (`{ok, code, msg, data}`) is decoded: the body is only
  checked to be an array.
- Subscriptions are not filtered by `endDate`.
- There is no reset-credits endpoint.
- There is no refresh state machine, change detection or snapshot cache.
- `calcActiveSum` does not clamp negative balances; only the per-subscription
  total clamps.

## Model

| member | source | states |
|---|---|---|
| Calc.FiniteOrZero | src/calc.ts:6 | a finite number is kept as it is; anything else counts as 0 |
| Calc.Clamp | src/calc.ts:17-22 | the clamp is `max(n, 0)` for a finite `n` and 0 otherwise: never negative, never below a finite input, and either 0 or the input itself |
| Calc.Sum | src/calc.ts:10 | the `reduce` sum starts at 0 and is non-negative when every element is |
| Calc.CreditsFold | src/calc.ts:6 | the credits `reduce` starts at 0 and is non-negative when every contribution is |
| Calc.RemainingResetTimes | src/calc.ts:26-31 | 0 for a `PAY_PER_USE` plan whatever `resetTimes` holds; for any other plan type `resetTimes` unchanged, negative or non-finite values included |
| Calc.CalcTotalPerSub | src/calc.ts:16-24 | the total is never below the clamped credits, which are never below 0; it is at least the credits when they are finite; for `PAY_PER_USE` it is exactly the clamped credits |
| Calc.TotalPerSubFormula | src/calc.ts:17-23 | the defining formula, clamp(credits) + clamp(remaining resets) * clamp(limit), with `RemainingResetTimes` unfolded; the properties proved about it are those of `CalcTotalPerSub`, `TotalPerSubGuards` and `TotalPerSubMonotone` |
| Calc.TotalPerSubGuards | src/calc.ts:17-22 | replacing a non-finite or negative credits, resets or limit field by 0 leaves the total unchanged |
| Calc.TotalPerSubMonotone | src/calc.ts:18-23 | more remaining resets or a larger limit never lower the total: resets and limit never subtract |
| Calc.TotalPerSubExample | src/calc.ts:16-23 | credits 12.34, 2 resets, limit 20 on a `STANDARD` plan give 52.34 |
| Calc.FilterActive | src/calc.ts:5 | the filter keeps exactly the active entries: every kept entry is active, and an entry is kept iff it is in the input and active |
| Calc.CalcActiveSum | src/calc.ts:3-7 | the empty list sums to 0 |
| Calc.MapTotals | src/calc.ts:10 | the map has one element per subscription, the i-th being that subscription's per-subscription total |
| Calc.CalcTotalSum | src/calc.ts:9-11 | the total sum is never negative, and is 0 for the empty list |
| Calc.SumAppend | src/calc.ts:10 | the `reduce` sum is additive over concatenation |
| Calc.CreditsFoldAppend | src/calc.ts:6 | the credits fold is additive over concatenation |
| Calc.FilterActiveAppend | src/calc.ts:5 | filtering distributes over concatenation and keeps order |
| Calc.MapTotalsAppend | src/calc.ts:10 | mapping to totals distributes over concatenation |
| Calc.ActiveSumAppend | src/calc.ts:3-7 | the active sum is additive over list concatenation |
| Calc.TotalSumAppend | src/calc.ts:9-11 | the total sum is additive over list concatenation |
| Calc.SingletonSums | src/calc.ts:3-11 | a one-entry list sums to that entry's contribution: its finite-or-0 credits if active, else 0; and its per-subscription total |
| Calc.ActiveSumMatchesSpec | src/calc.ts:3-7 | the active sum equals the sum over all entries of "credits (non-finite as 0) if active, else 0" |
| Calc.TotalSumMatchesSpec | src/calc.ts:9-11 | the total sum equals the sum of the per-subscription total over every entry, with no filtering by `isActive` |
| Calc.InactiveEntry | src/calc.ts:3-11 | inserting or removing an inactive entry anywhere leaves the active sum unchanged, while the total sum still counts it |
| Calc.ActiveSumOfFiltered | src/calc.ts:4-6 | only the active entries matter: the active sum of the filtered list equals that of the whole list |
| Calc.FilterActiveIdempotent | src/calc.ts:5 | filtering twice is filtering once |
| Calc.TotalSumBoundsActiveSum | src/calc.ts:3-23 | the total sum is never below the active sum |
| Calc.ActiveSumExamples | src/calc.ts:3-11 | a negative active balance passes into the active sum unclamped, a non-finite one counts as 0, and the total sum clamps the same negative balance to 0 |
| Api.KeyMissing | src/api.ts:8 | `!apiKey` holds exactly for an absent key and the empty string |
| Api.NatToString | src/api.ts:42 | the text is non-empty, all decimal digits, with no leading zero (so 0 reads "0"), and denotes exactly the number |
| Api.IntToString | src/api.ts:42 | the text is an optional minus sign, present exactly for negative numbers, followed by decimal digits without a leading zero, and denotes exactly the number |
| Api.StatusText | src/api.ts:41-42 | an absent status reads "unknown"; a present one reads as its decimal text: a minus sign exactly for a negative status (so 0 reads "0"), then digits without a leading zero, denoting exactly that status |
| Api.ValidateResponse | src/api.ts:37-51 | the checks on the resolved response pass exactly when it is an object with `ok === true` whose `json()` gives an array, and then the result is that array's elements; a falsy response or a non-boolean `ok` gives "Invalid response" |
| Api.FetchResult | src/api.ts:8-51 | a missing key fails with "API key missing"; the call succeeds exactly when the key is present, `fetch` exists, `fetch` resolves and the response checks pass, and once both guards pass with a resolved `fetch` the verdict is that of the response checks |
| JsValues.Member | src/config.ts:22 | a property read throws exactly on `null` and `undefined`; on an object it gives the stored property when there is one; every other defined result is a stored property |
| Api.FetchSubscriptions | src/api.ts:7-55 | the result is the validation chain's verdict; with a missing key or no `fetch` nothing happens; otherwise exactly: an 8000 ms timer starts, one POST goes to `https://www.88code.org/api/subscription` with `Authorization: Bearer <key>` and a JSON content type, and the timer is cleared on every exit path, success included |
| Api.MissingKeyFailsFirst | src/api.ts:8-10 | an absent or empty key fails with "API key missing", whatever `fetch` and the network would do |
| Api.NoFetchFails | src/api.ts:12-15 | without `fetch` the call fails with "fetch is not available in this environment", whatever the network would do |
| Api.InvalidResponse | src/api.ts:37-39 | a falsy response, or one whose `ok` is not a boolean, fails with "Invalid response" |
| Api.HttpFailureBeforeBody | src/api.ts:40-45 | `ok == false` fails with "HTTP " + the decimal text of the status, or "HTTP unknown" when status is absent, whatever the body holds |
| Api.HttpStatusExample | src/api.ts:40-43 | status 404 with `ok == false` fails with "HTTP 404" |
| Api.BodyNotArray | src/api.ts:45-49 | a parsed body that is not an array fails with "Invalid response body" |
| Api.RejectionPropagates | src/api.ts:27-51 | a rejected `fetch` or `json()` fails with its own error |
| Api.SuccessIff | src/api.ts:37-51 | the call succeeds iff the key is non-empty, `fetch` exists, the response has `ok === true` and the body is an array; it then returns that array's elements unchanged: same length, same elements, same order |
| Config.Is88Key | src/config.ts:13-15 | holds iff the value is a string whose first three characters are `8`, `8`, `_` |
| Config.Truthy | src/config.ts:58 | a string value is truthy exactly when it is present and not empty |
| Config.CodexKey | src/config.ts:19-28 | a key from the Codex file is an 88 key, and it is the string stored under `OPENAI_API_KEY` in the object the file parsed to |
| Config.ClaudeKey | src/config.ts:30-40 | a key from the Claude file is an 88 key, and it is the string stored under `env.ANTHROPIC_AUTH_TOKEN` in the object the file parsed to |
| Config.KeyFromConfigFiles | src/config.ts:17-43 | a key found in the files is an 88 key; it is the Codex key, or the Claude key when the Codex file yields nothing |
| Config.GetFromEnv | src/config.ts:45-52 | a key taken from the environment is an 88 key |
| Config.ReadApiKey | src/config.ts:54-71 | the result is null or an 88 key, for every input: the lookup never fails |
| Config.FirstNonEmpty | src/config.ts:47 | the first present, non-empty value: every earlier one is absent or empty; nothing only when no value is non-empty (where the `||` chain then gives its last operand, `""` or `undefined`, which `is88Key` rejects alike) |
| Config.CodexKeyIff | src/config.ts:19-28 | the Codex file yields `k` iff it parsed to an object whose `OPENAI_API_KEY` is the string `k` starting with `88_` |
| Config.ClaudeKeyIff | src/config.ts:30-40 | the Claude file yields `k` iff it parsed to an object with an `env` object whose `ANTHROPIC_AUTH_TOKEN` is the string `k` starting with `88_` |
| Config.CodexWins | src/config.ts:17-25 | a key in the Codex file wins over the Claude file and the environment |
| Config.CodexFallsThrough | src/config.ts:19-31 | when the Codex file yields nothing, the lookup goes on as if that file were absent |
| Config.CodexNothingCases | src/config.ts:19-28 | an unreadable or unparsable file, `null` content, a missing property or a non-88 value all yield nothing from the Codex file |
| Config.ClaudeNothingCases | src/config.ts:30-40 | an unreadable file, a missing or `null` `env` object, or a non-88 token all yield nothing from the Claude file |
| Config.FilesBeforeEnv | src/config.ts:54-66 | a config-file key is returned whatever the environment holds; the environment decides only when both files yield nothing |
| Config.GetFromEnvFirstNonEmpty | src/config.ts:45-52 | the environment lookup takes the first non-empty of `key88`, `ANTHROPIC_AUTH_TOKEN`, `OPENAI_API_KEY`, and returns it iff it starts with `88_` |
| Config.EnvMasking | src/config.ts:47-51 | a non-empty `key88` that is not an 88 key hides any valid later variable, and the result is null |
| Config.EnvFallsThroughEmpty | src/config.ts:47-49 | an empty `key88` is skipped, so a valid `ANTHROPIC_AUTH_TOKEN` is used |

## Left out

- IEEE-754 arithmetic: rounding, overflow of `times * limit` to Infinity, NaN propagation and `-0`. The model adds and multiplies exact reals, and every non-finite input is one tag.
- The record's other fields (`id`, dates, billing metadata and so on) are left out, because the engine never reads them. `src/types.ts` is only a record shape.
- The unchecked cast `as Subscription[]` (src/api.ts:45): `FetchResult` returns the parsed array's elements as JSON values, and `Calc` takes typed records. Converting from one to the other is not modelled, because the source does no conversion.
- The `AbortController` and the `setTimeout` race that aborts the request. An abort that wins the race is modelled only by its outcome: a rejection of `fetch` (a `Rejected` outcome) or, when `fetch` has already resolved, a rejection of `res.json()` (`BodyRejected`).
- FetchSubscriptions: a call that never settles is not modelled. When `AbortController` is not a function (src/api.ts:17-20) the timer's `ctrl?.abort()` does nothing, so a `fetch` that never settles leaves the call pending forever and the `finally` never runs; every `FetchOutcome` settles, so the method always ends by clearing the timer.
- The status text: `status` is modelled as an absent value or an integer. Any status that is not absent or an integer (NaN, 404.5, a string, an object) would be stringified by JavaScript's rules, and that is not modelled; neither is an integer status of magnitude 10^21 or more, which JavaScript writes in exponent form (`1e+21`) where the model writes all its digits.
- Property reads are modelled only for the three keys read here, `OPENAI_API_KEY`, `env` and `ANTHROPIC_AUTH_TOKEN`, which no value has as an inherited or built-in property (unlike, say, a string's `length`).
- File paths (`os.homedir`, `path.join`), `fs.readFile`, `JSON.parse` and `console` logging are I/O. Each file is the outcome of reading and parsing it.
- The outer `try/catch` of `readApiKey` (src/config.ts:67-70): nothing inside it can throw once the I/O is abstracted, so every input gives a result.
- The unused constant `USAGE_ENDPOINT` (src/api.ts:5).
- `src/extension.ts` and `src/statusMenu.ts`: status-bar text, menus, the fixed display value 208.2 and two-decimal formatting are UI code.
