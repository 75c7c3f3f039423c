# BlockAgent Toolkit client: prompt router and request rules

This project models the client side of the BlockAgent Toolkit: the Streamlit
page through which a user drives a blockchain-agent backend. Two source
files are modelled.

- `streamlit_app/intent_router.py`: the prompt router `parse_prompt`. It
  turns free text into an `Intent`. It lower-cases and trims the text, then
  picks a chain (`celo`, `aurora` or `harmony`), one of six actions, and, for
  two of the actions, an address token or a number.
- `streamlit_app/app.py`: the rules the page applies around its backend
  calls. It completes the configured backend URL with a scheme, builds the
  planning request from the chain selector, builds the execute request key
  by key from the plan's tool, and decides when a reply overwrites the
  remembered contract address (`storage_addr`).

Modules:

- `Wrappers`: `Option` and `Result`.
- `Text`: the parts of Python's `str` the router uses, on ASCII text:
  `lower()`, `strip()`, `split()`, `in`, the leftmost-longest digit run that
  `re.search(r'(\d+)', t)` finds, and `int()` on digits, including its
  default limit of 4300 digits.
- `Json`: JSON values and Python's truth test on them.
- `IntentRouter`: `Parse` is a reference definition built from "first match"
  searches over fixed tables (chain names, action rules, tokens). It gives
  the intent the router builds. `Route` adds the one error path: `int()`
  raises on a number of more than 4300 digits. `ParsePrompt` follows the
  source step by step and is proved equal to `Route`. It has two search loops with `break` (`FindChain`,
  `FindAddress`) and a chain of guarded returns. The lemmas state what the
  router promises.
- `App`: `NormalizeBackend` is a pure function. `PlanPayload` and
  `BuildExecutePayload` build the request bodies; the latter fills a map key
  by key. `Session` is a class whose field `storageAddr` is updated in place
  by `CaptureDeployedAddress`.

## Model

| member | source | states |
|---|---|---|
| `IntentRouter.ParsePrompt` | streamlit_app/intent_router.py:12-48 | the router's outcome equals the reference `Route` for every text: the intent `Parse` describes, or the `ValueError` that `int()` raises at line 42 |
| `IntentRouter.Route` | streamlit_app/intent_router.py:38-43 | the router returns the intent of `Parse` unless the prompt is a storage write whose first digit run has more than 4300 digits; exactly then it raises, reporting the run's length |
| `IntentRouter.FindChain` | streamlit_app/intent_router.py:16-20 | the chain loop returns the first of celo, aurora, harmony that occurs in the text, or none |
| `IntentRouter.ReadValue` | streamlit_app/intent_router.py:41-42 | reading the number of a storage write fails exactly when the first digit run is longer than 4300 digits; otherwise it gives the run's decimal value, or 0 when the text has no digit |
| `IntentRouter.FindAddress` | streamlit_app/intent_router.py:28-32 | the token loop returns the first whitespace-separated token that starts with "0x" and is longer than 20 characters, or none |
| `IntentRouter.ParseIgnoresCaseAndEdges` | streamlit_app/intent_router.py:13 | the router's whole outcome depends only on the lower-cased, trimmed text: `Parse(Normalize(s)) == Parse(s)`, and `Route(Normalize(s)) == Route(s)`, including the `ValueError` of `int()` |
| `IntentRouter.ParseChain` | streamlit_app/intent_router.py:16-20 | every intent, whatever its action, carries celo if "celo" occurs; else aurora if "aurora" occurs; else harmony if "harmony" occurs; else no chain. Each case is stated as an if-and-only-if |
| `IntentRouter.ChainOrder` | streamlit_app/intent_router.py:16-20 | the same priority, stated for the chain search on a normalised text |
| `IntentRouter.ParseAction` | streamlit_app/intent_router.py:23-48 | the action follows a fixed priority: new/create wallet, then balance, then deploy+storage, then set value/storage, then read/get value, then UNKNOWN; an earlier match wins even when later keywords also occur |
| `IntentRouter.KeywordPriority` | streamlit_app/intent_router.py:23-48 | the rule table (first rule that fires) means exactly that chain of keyword tests |
| `IntentRouter.ParseFieldsByAction` | streamlit_app/intent_router.py:23-48 | `args` is never set; only a balance query can carry an address; a value is present exactly for a storage write and is never negative |
| `IntentRouter.ParseAddress` | streamlit_app/intent_router.py:26-33 | for a balance query, the address is absent exactly when no token qualifies. Otherwise it is the first qualifying token: it starts with "0x", is longer than 20, has no whitespace and occurs in the normalised text |
| `IntentRouter.AddressIsFirstToken` | streamlit_app/intent_router.py:28-32 | the same first-token property, stated for the address search on a normalised text |
| `IntentRouter.FirstDigitRun` | streamlit_app/intent_router.py:41 | there is no match exactly when the text has no digit; a match is non-empty, all digits, and is the leftmost maximal run: no digit before it and none right after it |
| `IntentRouter.StorageValueIsFirstRun` | streamlit_app/intent_router.py:41-42 | the value is 0 when the text has no digit. Otherwise it is the base-10 value of the leftmost maximal run of digits: no digit before it, only digits in it, no digit right after it |
| `IntentRouter.ParseValue` | streamlit_app/intent_router.py:38-43 | a storage write carries 0 when the normalised text has no digit; otherwise it carries the decimal value of the leftmost maximal digit run: no digit before it, only digits in it, no digit right after it |
| `IntentRouter.SetValuePrompt` | streamlit_app/intent_router.py:12-43 | the prompt "set value N" yields a storage write of N, with no chain, no address and no args, when N has at most 4300 digits; otherwise the router raises |
| `IntentRouter.SetValueDigitsPrompt` | streamlit_app/intent_router.py:12-43 | "set value " followed by any digit string yields a storage write of that string's decimal value, or raises when the string is longer than 4300 digits |
| `IntentRouter.StorageWritePrompt` | streamlit_app/intent_router.py:16-43 | a normal-form prompt with no wallet or balance keyword, not both "deploy" and "storage", and "set value" or "set storage" is a storage write of its first number on the chain it names; the router raises instead when that number is too long |
| `Text.NormalizeIdempotent` | streamlit_app/intent_router.py:13 | lower-casing and trimming a second time changes nothing |
| `Text.StripIdempotent` | streamlit_app/intent_router.py:13 | `strip()` applied twice equals `strip()` applied once |
| `Text.StripSlice` | streamlit_app/intent_router.py:13 | `strip()` returns a slice of its input with no whitespace at either end, and everything cut away before and after it is whitespace |
| `Text.Words` | streamlit_app/intent_router.py:29 | `split()` yields non-empty tokens without whitespace, each occurring in the text |
| `Text.WordsSplit` | streamlit_app/intent_router.py:29 | `split()` yields no token exactly when the text is all whitespace; otherwise the first token is the non-whitespace run after the leading whitespace and the rest are the tokens of the text after it |
| `Text.Lower` | streamlit_app/intent_router.py:13 | `lower()` keeps the length and maps each character on its own, A-Z to a-z |
| `Text.ContainsIffOccurs` | streamlit_app/intent_router.py:18 | the `in` test holds exactly when the keyword occurs at some index of the text |
| `Text.DecimalValue` | streamlit_app/intent_router.py:42 | the value of a digit string is below 10 to the power of its length |
| `Text.IntOfDigits` | streamlit_app/intent_router.py:42 | `int()` on a digit string succeeds exactly when it has at most 4300 digits, with the string's decimal value; otherwise it raises, reporting the length |
| `Text.DecimalStringLength` | streamlit_app/intent_router.py:42 | `str(n)` has at most k digits exactly when n is below 10 to the power k, so `int()` accepts `str(n)` exactly for n below 10^4300 |
| `Text.DigitRunUnique` | streamlit_app/intent_router.py:41 | the leftmost maximal digit run is the only run with no digit before it, only digits in it and no digit after it |
| `Text.DecimalRoundTrip` | streamlit_app/intent_router.py:42 | `int(str(n)) == n` for every natural number |
| `App.NormalizeBackend` | streamlit_app/app.py:8-14 | the completed URL starts with "http" and ends with the original text; a URL already starting with "http" is unchanged |
| `App.BackendScheme` | streamlit_app/app.py:11-14 | a URL not starting with "http" gets "https://" when it contains "." and not "localhost"; otherwise it gets "http://" |
| `App.NormalizeBackendIdempotent` | streamlit_app/app.py:8-14 | completing twice gives the same result as completing once |
| `App.HttpNamedHostKeepsNoScheme` | streamlit_app/app.py:8 | a host name that begins with the letters "http" but names no scheme is kept as it is, so the result has no scheme; the intended completion adds one |
| `App.HttpbinKeepsNoScheme` | streamlit_app/app.py:8 | "httpbin.org" is kept without a scheme; the intended completion gives "https://httpbin.org" |
| `App.NormalizeBackendWithScheme` | streamlit_app/app.py:8-14 | the intended completion always yields "http://" or "https://" in front, keeps the original as a suffix, and keeps a URL that already has a scheme |
| `App.NormalizeBackendWithSchemeAgrees` | streamlit_app/app.py:8-14 | the intended completion is idempotent, and it agrees with the page's wherever the URL has a scheme or does not start with "http" |
| `App.PlanPayload` | streamlit_app/app.py:145 | the planning request has exactly the keys prompt and chain. Its chain is null if and only if the selector says "default"; otherwise it is the selected name unchanged |
| `App.PlanPayloadRoundTrip` | streamlit_app/app.py:143-145 | the selector choice can be read back from the request, and each offered choice sends either null or one of the router's chain names |
| `App.BuildExecutePayload` | streamlit_app/app.py:153-176 | there is no request when the plan is falsy, and an error when it is not an object or has no "tool" key. Otherwise the request always has plan and approve. It has abi and bytecode (the shipped constants) if and only if the tool is DEPLOY_CONTRACT. It has address if and only if the tool is CONTRACT_CALL and the entered address is non-empty. It has no other key, and abi and address never both |
| `Json.FalsyValues` | streamlit_app/app.py:174-176 | the falsy values of Python's truth test are exactly null, false, 0, the empty string, the empty list and the empty object |
| `App.CaptureRule` | streamlit_app/app.py:183-184 | a reply stores an address exactly when it is an object whose "result" is an object with "address", and then stores that address; the page raises exactly on null, boolean and number replies, a list holding "result" and a string containing "result" |
| `App.CaptureReadsOnlyResult` | streamlit_app/app.py:183-184 | for an object reply, the capture depends only on its "result" entry and never fails. It stores an address exactly when "result" is an object with an "address" key |
| `App.Session.CaptureDeployedAddress` | streamlit_app/app.py:183-184 | the remembered address becomes `result.address` exactly when the reply is an object whose "result" is an object holding "address"; otherwise it is unchanged. The page fails, changing nothing, on replies where its membership test or lookup raises |
| `App.Session.constructor` | streamlit_app/app.py:34-35 | the remembered address starts as the empty string |

## Left out

- Streamlit widgets and rendering (`st.*`) are user interface. Which branch of the page runs is taken as given.
- `call_backend` is HTTP I/O with timeouts and error-to-text mapping. Backend replies enter the model as parameters.
- The legacy intent dispatch (app.py:54-138) only issues a backend call per intent and shows the result.
- The backend base URL is read from an environment variable, and `API_SECRET` too. The URL is a parameter of `NormalizeBackend`.
- The ABI lists and the bytecode string are represented by reduced constants: the three ABI entries by name and kind, the bytecode by its leading bytes. Only their presence in the request matters to the rules.
- Python's Unicode-aware `lower()`, `strip()`, `split()` and `\d` are restricted to ASCII. Letters A-Z are lower-cased, and characters 9-13 and 28-32 count as whitespace.
- JSON numbers are integers; floating-point values are not modelled.
- Storing the plan from the planning reply (app.py:150) and the default value of the address field (app.py:169) are not modelled. The execute request takes the plan and the entered address as parameters.
- The JavaScript backend (tool registry, simulate/approve/execute pipeline, policy gate, fee model, chain client, signer) is not part of this model.
- The limit on `int()` is CPython's default since 3.11; raising or lowering it (`sys.set_int_max_str_digits`, `PYTHONINTMAXSTRDIGITS`) and interpreters without a limit are not modelled.
- `Intent.args` is modelled as an optional sequence of integers. The record leaves its element type open, and the router never sets it.

## Findings

| source | as written | input that shows it | evidently intended | confidence | as-written member | corrected member |
|---|---|---|---|---|---|---|
| streamlit_app/app.py:8 | any base URL whose first four letters are "http" is taken to have a scheme and is left alone | `httpbin.org` stays `httpbin.org`, a base URL with no scheme | add a scheme unless the URL starts with "http://" or "https://"; `httpbin.org` would become `https://httpbin.org` per the dotted-domain rule | medium, not executed | `App.HttpbinKeepsNoScheme` | `App.NormalizeBackendWithScheme` |
