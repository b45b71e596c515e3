# truenas-ntfy relay, modelled in Dafny

The relay accepts TrueNAS alert webhooks on `POST /message/{topic}` and
forwards each alert to an ntfy server under that topic. This project models
the deterministic core of that script as pure Dafny functions, with one
imperative method where the script builds a dictionary step by step:

- **Alert splitting** (`Handler.SplitAlert`): the alert text is stripped,
  partitioned at its first newline, and both parts are stripped again, giving
  the notification title and body.
- **Console banner** (`Handler.Banner`): the opening line
  `========== <title> (topic: <topic>) ==========`, the body, and a closing
  line of `=` as long as the header plus 22. `(no title)` stands in for an
  empty title.
- **Outbound request** (`Forwarding.Headers`, `Forwarding.BuildHeaders`,
  `Forwarding.TargetUrl`, `Forwarding.SendRequest`): the `Authorization`,
  `Title` and `Priority` headers, each present only when its argument is
  truthy. The URL is the base URL with its trailing slashes removed, then
  `/`, then the topic.
- **Status handling** (`Handler.Classify`, `Handler.OutcomeLine`): 200 is
  logged as success; 400, 401 and 403 as a bad token; anything else as an
  unknown error with its code. The caller always gets the gateway's status
  back unchanged.
- **Certificate verification switch** (`Settings.VerifyCert`): verification
  is off only when the lower-cased `VERIFY_CERT` setting is `false`, `no` or
  `n`. An unset variable counts as `"true"`.
- **The handler as a whole** (`Handler.OnMessage`): it maps the
  configuration, the topic, the alert text and the gateway's status to three
  things: the request sent, the console lines, and the status returned.

The Python string operations these rely on are modelled in `PyStr`:
`strip()`, `partition()`, `rstrip('/')`, `lower()` and `str(int)`.
Whitespace is Python's `str.isspace` set, listed code point by code point: the ASCII whitespace and separator controls, U+0085, U+00A0,
U+1680, U+2000 to U+200A, U+2028, U+2029, U+202F, U+205F and U+3000.
`lower()` folds ASCII letters only. That gives the same verdict as Python's
full Unicode `lower()` in the one place it is used. The only non-ASCII
characters whose lower case is ASCII are U+212A (to `k`) and U+0130 (to
`i` plus a combining dot). Neither can make a string equal to `false`, `no`
or `n`.

The configuration (`Settings.Config`: base URL, token, verification flag)
is an explicit value. The source reads it from the environment when the
module loads. The gateway's HTTP status is an input to the model.

## Model

| member | source | states |
|---|---|---|
| `PyStr.LeadingSpaces` | truenas-ntfy.py:44 | the count covers only whitespace, and the character after it (if any) is not whitespace: exactly what `strip()` removes at the front |
| `PyStr.TrailingSpaces` | truenas-ntfy.py:44 | the same for the whitespace `strip()` removes at the back |
| `PyStr.Strip` | truenas-ntfy.py:44-48 | `strip()` leaves no whitespace at either end |
| `PyStr.StripPads` | truenas-ntfy.py:44-48 | `strip()` removes nothing but whitespace, and only from the two ends |
| `PyStr.StripUnique` | truenas-ntfy.py:44-48 | a trimmed string with whitespace added on both sides strips back to exactly itself, so `strip()` is fully determined by its two properties |
| `PyStr.StripTrimmed` | truenas-ntfy.py:44-48 | stripping a string with no surrounding whitespace changes nothing |
| `PyStr.StripIdempotent` | truenas-ntfy.py:44-48 | stripping twice is the same as stripping once, which the second `strip()` on lines 47-48 relies on |
| `PyStr.StripKeepsOut` | truenas-ntfy.py:44-47 | a character absent from the input is absent from the stripped result |
| `PyStr.StripEmptyIff` | truenas-ntfy.py:44-51 | `strip()` returns `""` exactly when the input is all whitespace |
| `PyStr.Partition` | truenas-ntfy.py:44 | `partition("\n")`: the head, separator and tail concatenate back to the input; the head has no newline; the separator is `"\n"` iff the input has one, otherwise the result is `(s, "", "")` |
| `PyStr.PartitionAtFirst` | truenas-ntfy.py:44 | the split is at the FIRST newline, and later newlines stay in the tail |
| `PyStr.RStripChar` | truenas-ntfy.py:88 | `rstrip('/')`: the input is the result followed by slashes only, and the result does not end in `/` |
| `PyStr.RStripCharIgnoresPadding` | truenas-ntfy.py:88 | appending any number of slashes does not change `rstrip('/')` |
| `PyStr.RStripCharUnique` | truenas-ntfy.py:88 | `rstrip('/')` is fully determined by its contract |
| `Settings.LowerIsWordIff` | truenas-ntfy.py:29 | `lower()` of a string equals a lower-case ASCII word iff the string spells that word in any mix of case |
| `PyStr.DecimalText` | truenas-ntfy.py:68 | `str(n)` for a natural number is a non-empty string of digits with no leading zero |
| `PyStr.DecimalRoundTrip` | truenas-ntfy.py:68 | the printed digits read back as the same number |
| `PyStr.IntTextRoundTrip` | truenas-ntfy.py:68 | `str(i)` for any integer, negative ones included, is an optional minus sign followed by digits, and reads back as `i` |
| `Settings.VerifyCertOffExactly` | truenas-ntfy.py:29 | verification is off iff the setting spells `false`, `no` or `n` in any mix of case; every other value keeps it on |
| `Settings.VerifyCertExamples` | truenas-ntfy.py:29 | an unset variable (default `"true"`), `"0"`, `"off"` and `""` keep verification on; `"FALSE"`, `"No"` and `"N"` turn it off |
| `Forwarding.Headers` | truenas-ntfy.py:77-85 | the header names are among `Authorization`, `Title` and `Priority`; each is present iff its argument is not `None` and not empty, and then holds that argument |
| `Forwarding.BuildHeaders` | truenas-ntfy.py:77-85 | the step-by-step build from `{}`, with one conditional insert per header, yields exactly the map `Headers` specifies |
| `Forwarding.TargetUrlIgnoresTrailingSlashes` | truenas-ntfy.py:88 | adding any number of trailing slashes to the base URL gives the same target URL |
| `Forwarding.SendRequest` | truenas-ntfy.py:76-92 | the message is the raw body, untouched. The URL is the base with its trailing slashes removed, then `/`, then the topic. Only `Authorization`, `Title` and `Priority` can be set; each is present iff its argument is truthy, and then holds it. The `ssl=` flag is the configured one |
| `Forwarding.TargetUrlJoin` | truenas-ntfy.py:88 | the URL is the base without trailing slashes, one `/`, then the topic. When that stem is non-empty, the character before the joining slash is not `/` |
| `Handler.SplitAlert` | truenas-ntfy.py:44-48 | the title has no newline, and neither title nor body has leading or trailing whitespace |
| `Handler.SplitSingleLine` | truenas-ntfy.py:44-48 | when the stripped text has no newline, the title is the stripped text and the body is `""` |
| `Handler.SplitMultiLine` | truenas-ntfy.py:44-48 | when the stripped text is `P + "\n" + R` with `P` newline-free, the title is `strip(P)` and the body is `strip(R)`, later newlines included |
| `Handler.TitleEmptyIff` | truenas-ntfy.py:44-51 | the title is empty exactly when the whole text is whitespace, and the body is then empty too |
| `Handler.SplitJoinRoundTrip` | truenas-ntfy.py:44-48 | splitting a non-empty, newline-free, trimmed title joined by `"\n"` to a trimmed body gives back that title and that body |
| `Handler.LogTitle` | truenas-ntfy.py:51 | the logged title is never empty: it is the title itself when that is non-empty, and `(no title)` when it is empty |
| `Handler.Banner` | truenas-ntfy.py:51-56 | three lines are printed. The first is `========== <logged title> (topic: <topic>) ==========`. The second is the body. The third is all `=` and exactly as long as the first |
| `Handler.Classify` | truenas-ntfy.py:62-69 | exactly one outcome: success iff the status is 200, a token problem iff it is 400, 401 or 403, otherwise an unknown error carrying the status |
| `Handler.OutcomeLine` | truenas-ntfy.py:62-69 | each outcome line starts with `>> ` and ends with a newline, so `print` leaves a blank line. The three kinds differ in their opening words: the fourth character is `F` only on success, and the sixth is `a` only for a token problem |
| `Handler.UnauthorizedLineNamesToken` | truenas-ntfy.py:64-65 | the token-problem line names the configured token between `NTFY_TOKEN='` and `' is incorrect`, and an unset token appears as `None` |
| `Handler.UnknownErrorLineCarriesCode` | truenas-ntfy.py:67-69 | the unknown-error line ends with the status code in decimal, and that code can be read back from it |
| `Handler.OnMessage` | truenas-ntfy.py:37-72 | Missing text fails, with nothing sent. Otherwise: the caller gets the gateway's status unchanged; the body sent is the split body; the URL is the joined base and topic; the TLS flag is the configured one; the headers are exactly `Headers(token, title, None)`: `Priority` is never set; `Title` is set iff the split title is non-empty, and holds it; `Authorization` is set iff the token is truthy, and holds it; no other header is sent. The console shows the three banner lines for the split title, topic and body, then the outcome line for that status |
| `Handler.OnMessageForwardsTitleAndBody` | truenas-ntfy.py:44-72 | for an alert written as a trimmed title line plus a trimmed body, the `Title` header and the body sent are exactly those, and the status is passed back |
| `Handler.ScenarioTitleAndBody` | truenas-ntfy.py:44-63 | `"Disk failure\nPool tank degraded"` answered with 200 is sent with `Title: Disk failure` and body `Pool tank degraded`, returns 200, and logs success |
| `Handler.ScenarioSingleLine` | truenas-ntfy.py:44-72 | `"Just one line"` answered with 401 is sent with `Title: Just one line` and an empty body, returns 401, and logs a token problem |

## Left out

- Routing, JSON parsing and path matching (lines 32-41) belong to aiohttp. The model takes the topic and the alert text as inputs. A JSON body without a `text` string is `Failure(MissingText)`, and nothing is sent. The script raises at that point and lets the framework answer. The model invents no status of its own for it. A cleaner design would answer 400 here; the model follows the script.
- The HTTP POST and its TLS handshake (lines 90-94) are network I/O. `Forwarding.SendRequest` builds everything the POST is given: URL, headers, raw body and the `ssl=` flag. The gateway's status is an input. A failed connection raises in the script and has no counterpart in the model; the model gives it no 5xx answer, because the script has none.
- `async`/`await` and per-request concurrency are left out. Each request is sequential and shares no mutable state.
- Reading the environment and starting up (lines 10-20, 97-115) are left out: the required `NTFY_URL`, the optional token, the listen host, port parsing, `sys.exit`, the startup warnings and `web.run_app`. The string test on `VERIFY_CERT` (line 29) is modelled, and the configuration is an explicit `Settings.Config` value.
- `print` is not executed. Console output is modelled as the list of strings handed to `print`, one per call.
- `Settings.VerifyCert`: `lower()` is modelled as ASCII case folding. As explained above, this gives the same verdict as Python for this test.
- `PyStr.Partition`: only a one-character separator is modelled, because `"\n"` is the only separator the script uses.
