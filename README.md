# yeetcode request path, modelled in Dafny

yeetcode is a Discord bot behind a webhook. Discord POSTs a signed
interaction to `/`. The bot checks the signature and decodes the body.
A ping gets a Pong back. An application command gets one random LeetCode
question at the requested difficulty, sent back through Discord's API as
a link `https://leetcode.com/problems/<slug>`.

The model covers the logic of that path:

- `results.dfy` (`Results`): Option and Result.
- `ascii.dfy` (`Ascii`): `strings.ToUpper` restricted to ASCII, and the
  "same word in any mix of cases" relation used to state what the
  upper-casing buys.
- `leetcode.dfy` (`LeetCode`), for `internal/leetcode/leetcode.go`: the
  `Difficulty` enumeration and its string constants; `RandomDifficulty`,
  with the value of `rand.IntN(3)` passed in; the GraphQL request records;
  the HTTP request with its fixed URL and headers; and `RandomQuestion` as
  a function from a difficulty and the outcomes of the encode, build,
  transport and decode steps to Go's `(response, error)` pair and the
  request that went out.
- `http.dfy` (`Http`): a `ResponseWriter` class. The first `WriteHeader`
  fixes the status. Later calls are ignored and counted as superfluous.
  A body write commits 200 when no status is set yet.
- `bot.dfy` (`Bot`), for `main.go`:
  - the startup checks on `DISCORD_TOKEN` and `DISCORD_PUBLIC_KEY`;
  - the loop over the command options, as a method with a loop, proved
    against a specification function;
  - the difficulty `switch` and the fallback to the random draw;
  - `fetchLeetCodeQuestion`;
  - the reply URL;
  - the `POST /` handler, as a method over a `ResponseWriter`. It
    returns the outbound calls it made, in order.

The handler takes a `World` record. It holds the outcome of each external
step: whether the Ed25519 signature verifies, what JSON decoding yields,
whether the Pong body is written, the random draw, what LeetCode's side
does, and whether Discord's respond call succeeds.

Two details of the handler are modelled as written:

- Ping path. One would expect a failed Pong encode to give status 500.
  The code writes 200 before encoding the Pong (main.go:144). The 500 it
  writes after a failed encode (main.go:152) is therefore a second, ignored
  `WriteHeader`. `HandleInteraction` proves that this path ends with status
  200, no body and one superfluous header write.
- Command path. The reply travels through Discord's respond call. The
  webhook response itself carries only a status and no body
  (main.go:182-193).

## Model

| member | source | states |
|---|---|---|
| `Ascii.Upper` | main.go:238 | upper-casing keeps the length and maps each character on its own: a..z to A..Z, everything else unchanged |
| `Ascii.UpperHasNoLower` | main.go:238 | the upper-cased text contains no lower-case letter |
| `Ascii.UpperIdempotent` | main.go:238 | upper-casing an already upper-cased value changes nothing |
| `Ascii.UpperMatchesCaseVariants` | main.go:238 | for an all-capitals word w, `Upper(s) == w` holds exactly when s is w in some mix of ASCII cases (both directions) |
| `LeetCode.Label` | internal/leetcode/leetcode.go:30-34 | every difficulty constant is written in capital letters only |
| `LeetCode.LabelInjective` | internal/leetcode/leetcode.go:30-34 | the constants "EASY", "MEDIUM" and "HARD" are pairwise distinct: equal strings mean equal difficulties |
| `LeetCode.DrawFor` | internal/leetcode/leetcode.go:38-44 | each difficulty has a draw in 0..2 of `rand.IntN(3)`, and `RandomDifficulty` of that draw gives the difficulty back |
| `LeetCode.RandomDifficulty` | internal/leetcode/leetcode.go:37-48 | a draw n in 0..2 yields the n-th constant in declaration order (EASY, MEDIUM, HARD); every other integer yields EASY through the default arm, so the function is total |
| `LeetCode.RandomDifficultyUniform` | internal/leetcode/leetcode.go:37-48 | exactly one of the draws 0, 1, 2 yields each difficulty, so the random choice is uniform over the three |
| `LeetCode.FilterKeys` | internal/leetcode/leetcode.go:74-77 | the encoded filters always carry `difficulty`; `tags` appears exactly when the tag list is non-empty (omitempty) |
| `LeetCode.RequestBody` | internal/leetcode/leetcode.go:91-98 | the request body carries the fixed GraphQL query and the given difficulty as its filter; `categorySlug` is empty and `tags` is left out of the JSON |
| `LeetCode.QuestionRequest` | internal/leetcode/leetcode.go:105-111 | the request is a POST to `https://leetcode.com/graphql` with exactly the headers Content-Type `application/json`, Origin and Referer `https://leetcode.com`; the URL lies on that origin; the body filters on the given difficulty |
| `LeetCode.QuestionRequestInjective` | internal/leetcode/leetcode.go:91-111 | requests for different difficulties differ, so the request determines the difficulty asked for |
| `LeetCode.RandomQuestion` | internal/leetcode/leetcode.go:100-124 | a request goes out exactly when encoding and building succeed, and it is the fixed request for the difficulty; the call succeeds exactly when every step does; on error the response is the zero value; on success it is the decoded response unchanged |
| `LeetCode.RandomQuestionFirstFailure` | internal/leetcode/leetcode.go:101-122 | the error reported names the first step that failed: encode, build, transport or decode |
| `LeetCode.RandomQuestionKeepsSlug` | internal/leetcode/leetcode.go:119-124 | any decoded title slug, the empty one included, comes back as it is, with no validation |
| `Http.ResponseWriter.constructor` | main.go:113 | a handler starts with no status, an empty body and no superfluous writes |
| `Http.ResponseWriter.WriteHeader` | main.go:144-152 | the first call fixes the status; a later call leaves status and body alone and counts as superfluous |
| `Http.ResponseWriter.Encode` | main.go:149 | encoding commits status 200 when none is set and keeps an existing one; the value is appended to the body exactly when the write goes through; failure is reported |
| `Bot.Getenv` | main.go:84-90 | a non-empty reading comes from a variable that is set to that value; a set variable reads as its value |
| `Bot.LoadConfig` | main.go:84-97 | the checks at main.go:84-97 pass exactly when the token and the public key are set and the key decodes; a missing token is reported before a missing key; the client authorization is `"Bot " + token` |
| `Bot.FirstNamed` | main.go:236-241 | the result is the index of the first option with the given name: that option has the name and none before it has; None means no option has it |
| `Bot.DifficultyOption` | main.go:234-241 | with no `difficulty` option the value is the empty string; otherwise it is the upper-cased value of the first option named `difficulty` |
| `Bot.ScanDifficultyOption` | main.go:234-241 | the loop yields the upper-cased value of the first `difficulty` option, or the empty string when there is none |
| `Bot.MatchDifficulty` | main.go:245-251 | the switch yields difficulty d exactly when the value equals d's constant, and no match when it equals none of them |
| `Bot.ResolveDifficulty` | main.go:245-254 | a value equal to a constant resolves to that difficulty; a value equal to none resolves to `RandomDifficulty` of the draw |
| `Bot.MatchIsCaseInsensitive` | main.go:238-251 | an option value matches difficulty d exactly when it spells d's constant in some mix of ASCII cases, and then it resolves to d |
| `Bot.UnrecognisedIsRandom` | main.go:245-254 | a value that is no ASCII case variant of a constant resolves to `RandomDifficulty` of the draw |
| `Bot.DifficultyOptionSkipsHead` | main.go:236-241 | a leading option with another name does not change what the scan finds |
| `Bot.FirstDifficultyOptionDecides` | main.go:236-241 | after any prefix without a `difficulty` option, the first `difficulty` option decides the value; everything after it is ignored |
| `Bot.OtherOptionsIgnored` | main.go:236-241 | inserting or removing an option with another name anywhere leaves the scanned value unchanged |
| `Bot.CaseVariantOptionResolves` | main.go:236-251 | after any prefix without a `difficulty` option, a `difficulty` option spelling a constant in some mix of ASCII cases fixes the command's difficulty to that constant, whatever follows |
| `Bot.CommandDifficulty` | main.go:234-254 | a command without a `difficulty` option is fetched at `RandomDifficulty` of the draw |
| `Bot.FetchLeetCodeQuestion` | main.go:230-259 | the question is fetched once, at the difficulty resolved from the command's options and the draw |
| `Bot.ReplyContent` | main.go:175-180 | the reply is the problems URL prefix followed by the slug, unchanged and unchecked, even when empty |
| `Bot.ReplyContentInjective` | main.go:178 | the slug can be read back from the reply, so two replies are equal exactly when their slugs are |
| `Bot.HandleInteraction` | main.go:113-195 | a failed signature check gives 400 with no decode use, no body and no outbound call; an undecodable body or an unsupported type gives 400 with no call; a ping gives status 200 and no call, with the Pong body written, and when the write fails the later 500 is superfluous and ignored; for a command, a fetch error gives 500, no respond call, and a LeetCode request only if one was built; on fetch success there is exactly one LeetCode request, at the resolved difficulty, then one respond call carrying `https://leetcode.com/problems/` + slug, and the status is 200, or 500 if the respond call fails; only the failed Pong write writes the status twice |

## Left out

- OpenTelemetry: the tracer provider, spans and attributes. They do not affect how a request is handled.
- Bot.LoadConfig: does not model the exporter set-up that runs before it. When `stdouttrace.New` or `otlptracehttp.New` fails (main.go:49-68), `run` returns that error before the token is checked and the process exits 1.
- Process exit status: `main` exits 1 whenever `run` returns an error. That covers failed startup checks, a listener error (main.go:222-223) and a failed forced close (main.go:218-220). Only the startup checks are modelled, as `LoadConfig`.
- The request identifier from `uuid.NewRandom` and its zero fallback. It is only a span attribute.
- The signal-driven server lifecycle: listening, graceful shutdown with a 15-second deadline, forced close. Its point is concurrency.
- Ed25519 signature verification. It enters as the boolean `World.signatureValid`.
- JSON encoding and decoding, `http.NewRequest`, `http.Client.Do` with its 15-second timeout, and Discord's `InteractionRespond`. Each enters as a success or failure outcome.
- The randomness of `rand.IntN(3)`. The drawn integer is a parameter.
- Ascii.Upper: models ASCII only, not full Unicode. Go's `strings.ToUpper` also maps, for instance, U+017F (long s) to `S` and U+0131 (dotless i) to `I`. So in Go a value such as "eaſy" also resolves to EASY; the model does not show this.
- Ascii.UpperMatchesCaseVariants: the "only when" direction holds for the ASCII model only. In Go, "eaſy" also upper-cases to "EASY" although it is no ASCII case variant of it.
- Bot.MatchIsCaseInsensitive: the "only when" direction holds for the ASCII model only. In Go, "eaſy" and "medıum" also match EASY and MEDIUM.
- Bot.UnrecognisedIsRandom: holds for the ASCII model only. In Go, a value such as "eaſy" meets its requires and still resolves to EASY, not to the random draw.
- Hex decoding of the public key and construction of the Discord client. The key's decodability is the parameter `keyDecodes`. `discordgo.New` is taken to succeed.
- The key's length: `LoadConfig` accepts a hex key of any length. Ed25519 verification, which `discordgo.VerifyInteraction` performs, panics on a key that is not 32 bytes. So the 400 on a failed check assumes the configured key is 32 bytes.
- Command option values are strings. `StringValue` on an option of another type is not modelled.
- Http.ResponseWriter.WriteHeader: accepts only codes 200-999. Informational 1xx headers and the panic on invalid codes are not modelled; the handler uses only 200, 400 and 500.
- Http.ResponseWriter.Encode: a failed write adds nothing to the body. Partly written bytes are not modelled.
- Discord's interaction type numbers (1 for a ping, 2 for an application command) are discordgo's constants. That library is not part of this model.
