# Anime synopsis generator — verified model of its core

`anime.py` is a Streamlit page: the user types an anime title, the page asks
the Jikan search service for the best match and shows it, and a second
button asks an OpenAI chat model for a Japanese synopsis of that match. Under
the network calls and widgets there is a small deterministic core, and this
project models it:

- **Result selection** (`search_anime`, module `SearchClient`): the decoded
  response becomes a hit only when it carries a non-empty `data` array, and
  the hit is that array's first entry.
- **Synopsis generation** (`generate_synopsis`, module `SynopsisGenerator`):
  the short-circuit on a missing hit, the exact prompt (instruction, then the
  title, the genre names joined by `", "`, the aired string and a synopsis
  excerpt of at most 200 characters or `なし`, then the closing label), and
  the turning of the service's reply into display text (the candidate with
  surrounding whitespace stripped, or `あらすじの生成に失敗しました: ` and the
  error text).
- **Session state** (`main`, class `SessionState.Session`): the two keys
  `anime_data` and `synopsis`, changed by the search button and the generate
  button and only read by a run in which neither was pressed.
- **Python string built-ins** (module `Text`): `sep.join(parts)` and
  `str.strip()`, whose whitespace set is Python's `str.isspace()`.

The generation service is a parameter `service: string -> Reply`, the reply
it gives to a prompt; `GenerateSynopsis` returns the text together with the
prompt it sent, or no prompt when it sent none. The search service is the
decoded payload passed to `Session.Search`. The session keeps a ghost log of
the requests made and the hit its stored synopsis was generated from; its
invariant `Valid()` says a stored synopsis always belongs to the stored hit.

The source file has CRLF line endings; Python reads them as `\n`, so the
prompt's lines end in `\n`, and the four spaces that indent the
triple-quoted prompt in the program text are part of the prompt.

The placeholder for a missing synopsis is `なし`, and an empty synopsis
string gets it too, because Python treats it as false.

## Model

| member | source | states |
|---|---|---|
| SearchClient.SelectResult | anime.py:20-23 | A hit exactly when the payload is present and its `data` array is non-empty; the hit is then the first-ranked entry. |
| SynopsisGenerator.GenerateSynopsis | anime.py:25-53 | Without a hit: the fixed not-found message and no request at all. With a hit: exactly one request, whose prompt is the hit's prompt, and the formatted reply to that prompt. |
| SynopsisGenerator.BuildPrompt | anime.py:30-38 | The prompt carries the title, the genre field, the aired string and the excerpt verbatim, each at the offset the instruction, the labels and the fields before it leave. |
| SynopsisGenerator.PromptLayout | anime.py:30-38 | Around those fields the prompt holds the instruction, each field's label right before it and the closing label right after the excerpt; its length rules out any other text. |
| SynopsisGenerator.Excerpt | anime.py:35 | For a non-empty synopsis: a prefix of it of length min(200, its length). For a null or empty one: `なし`. |
| SynopsisGenerator.GenreNames | anime.py:33 | The list comprehension keeps one name per genre, the i-th name being the i-th genre's, so order and count are kept. |
| SynopsisGenerator.GenreField | anime.py:33 | An empty genre list gives an empty genre field. |
| SynopsisGenerator.GenreFieldInOrder | anime.py:33 | The i-th genre name appears verbatim at the offset of its rank, followed by `", "` unless it is the last, which ends the field. |
| SynopsisGenerator.FormatReply | anime.py:51-53 | A failure gives the fixed prefix followed by exactly the error text. A success gives the slice of the candidate that `StrippedAt` admits, so it neither starts nor ends with whitespace and only whitespace was removed. |
| Text.Join | anime.py:33 | `join` of no parts is empty; otherwise its length is that of the parts plus one separator between neighbours (where each part goes is `JoinPartAt` and `JoinSepAfter`). |
| Text.JoinPartAt | anime.py:33 | `join` keeps every part verbatim at the position given by the parts before it, and the last part ends the string. |
| Text.JoinSepAfter | anime.py:33 | `join` puts exactly one separator between neighbouring parts. |
| Text.IsSpace | anime.py:51 | The whitespace test `strip()` uses holds exactly for the 29 characters of Python's `str.isspace()`, listed one by one in `PythonWhitespace`. |
| Text.TrimStart | anime.py:51 | The leading-whitespace cut of `strip`: a suffix, everything removed is whitespace, and it is empty or starts with a non-space. |
| Text.TrimEnd | anime.py:51 | The trailing-whitespace cut of `strip`: a prefix, everything removed is whitespace, and it is empty or ends with a non-space. |
| Text.Lead | anime.py:51 | The number of leading characters `strip` removes is within the string. |
| Text.Strip | anime.py:51 | `strip` returns a slice of its input with only whitespace outside it, and a non-empty result starts and ends with a non-space. |
| Text.StripUnique | anime.py:51 | Any slice with only whitespace outside it and non-space ends is the result of `strip`, so the description above determines it. |
| Text.StripIdempotent | anime.py:51 | Stripping the stripped text changes nothing. |
| SessionState.Session.constructor | anime.py:65-68 | A new session has neither key set and has made no request. |
| SessionState.Session.Render | anime.py:65-89 | With no button pressed, the shown hit is the stored one, the stored synopsis is shown exactly when a hit is shown and it is a non-empty string, a shown synopsis was generated from the shown hit, and nothing changes. |
| SessionState.Session.Search | anime.py:61-64 | Whatever the prior state, one search request is logged, the stored hit becomes the selected result, the stored synopsis is cleared, and no synopsis is shown. |
| SessionState.Session.Generate | anime.py:77-81 | Only while a hit is stored: one generation request with that hit's prompt is logged, the stored synopsis becomes the generated text, the hit is unchanged, and the invariant is kept. |
| SessionState.SearchClearsSynopsis | anime.py:61-85 | A usage scenario of `Search` and `Generate`: after Search, Generate and another Search, the second search's result is shown and no synopsis is stored or shown; it follows from `Search`'s own contract, which holds from any prior state. |
| SessionState.GenerateTwice | anime.py:77-81 | Generating twice for the same hit stores the same synopsis both times. This is a consequence of modelling the service as a function of the prompt (a service that answers a prompt the same way each time), not a property the program enforces. |

## Left out

- The HTTP GET to Jikan and its JSON decoding (anime.py:19-20): network I/O; the decoded payload is a parameter of `Session.Search`. The query string is built without URL-encoding the title; that transport detail is not modelled.
- A payload that is a non-empty JSON object without a `data` key makes `data['data']` raise `KeyError`, and a failing HTTP call raises too; neither is caught in the program, so those paths end the run and are not modelled.
- The OpenAI call and its settings (model name, `max_tokens=400`, `n=1`, `stop=None`, `temperature=0.7`) (anime.py:41-50): a foreign service; it is the `service` parameter, whose reply is `Success(content)` or `Failure(errText)`.
- Every failure inside the `try` (authentication, quota, network, an empty `choices` list, a `None` content whose `.strip()` raises) is one `Failure(errText)`; the exception's `str(e)` text is taken as an opaque string.
- Loading `.env` and the API key (anime.py:8, anime.py:11): configuration.
- Streamlit rendering (title, text input, buttons, subheaders, spinner, the `...`-suffixed 200-character excerpt on the page) (anime.py:56-59, anime.py:71-75, anime.py:79, anime.py:87-89): UI; a run's output is the `View` value, and button presses are the `Search` and `Generate` calls.
- A hit is always a non-empty JSON object and so always true in Python; an empty object as the first entry of `data` is not modelled.
- Python slices by code point; Dafny's `char` is a Unicode scalar value, so lone surrogates in a synopsis are not modelled.
