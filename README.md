# Response normalisation of the Deepgram transcription client

`utils/asr_deepgram.py` sends an audio file to Deepgram's speech-recognition
endpoint and turns the reply into a list of `{word, start, end}` records. This
project models the part of `transcribe_audio` that decides what that list is:
the status check, the defaulting walk `results → channels[0] →
alternatives[0] → words` through the decoded JSON body, the per-entry mapping
with its defaults and `float(...)` conversions, and the catch-all that answers
`[]` to every exception. The network exchange is abstracted as its outcome:
the HTTP status and the decoded body, where `None` means `response.json()`
raised.

- `PyJson.dfy` — module `PyJson`: the JSON values Python's decoder yields
  (`Null | Bool | Num(real) | Str | Arr | Obj(map)`), `Option`/`Result`, the
  exceptions that can occur, and the Python operations the client uses
  (`dict.get` with a default, `[0]`, `for` iteration, `float(...)`) as
  partial functions that return the exception instead of raising it.
- `AsrDeepgram.dfy` — module `AsrDeepgram`: the client's own logic. `Navigate`
  is the chained lookup, `WordRecord` one entry, `MapWords` the loop as a
  function and `CollectWords` the loop itself (a method whose `while` loop
  extends a `seq` and whose invariant ties it to `MapWords` of the prefix seen
  so far). `Normalize` is the observable outcome, and `Transcribe` is the
  function body step by step, proved equal to it. Logging is modelled as the
  `errorLogged` flag of the `Reply`.
- `TranscriptionProperties.dfy` — module `TranscriptionProperties`: reference
  definitions (the documented response shape `WordsPath`, the record a
  well-formed entry should give `Expected`, the ways the path can be cut
  short) and the lemmas that connect the client to them.

`float(s)` on a string is a parameter `parse: string -> Option<real>` of every
operation. Its grammar is not modelled, and `None` stands for `ValueError`.

Three behaviours of the code are easy to miss, and the model keeps them:
- Missing data does not always fall back to defaults. A `channels` or `alternatives` list that is present but empty makes
  `[0]` raise `IndexError`. That is caught and logged, so it still gives `[]`,
  but with an error line (`EmptyListIndexedRaises`).
- The result has one record per entry only when every entry converts. One entry that is not an object,
  or whose `start`/`end` is `null`, a list, an object or an unparsable string,
  empties the whole result (`AllOrNothing`, `UnconvertibleTime`).
- `word` is not forced to be a string. The code passes the stored value
  through unchanged, so `WordRec.word` is a `Json`.

## Model

| member | source | states |
|---|---|---|
| `PyJson.Get` | utils/asr_deepgram.py:47-50 | `.get(key, default)` succeeds exactly on a dict, giving the stored value or the default; raises `AttributeError` on anything else |
| `PyJson.Index0` | utils/asr_deepgram.py:48-49 | `[0]` succeeds exactly on a non-empty list or string; an empty one raises `IndexError`, a dict `KeyError` |
| `PyJson.Iterate` | utils/asr_deepgram.py:53 | a list is visited element by element in order, a string as its characters; an empty dict visits nothing; numbers, bools and `None` raise `TypeError` |
| `PyJson.ToFloat` | utils/asr_deepgram.py:56-57 | `float(v)`: a number is kept, a bool becomes 1.0 or 0.0, a string goes through the parser (`ValueError` when it fails), `None`/list/dict raise `TypeError` |
| `AsrDeepgram.Navigate` | utils/asr_deepgram.py:46-51 | the lookup chain fails with `AttributeError` unless the body is a JSON object |
| `AsrDeepgram.WordRecord` | utils/asr_deepgram.py:54-58 | an entry that is not an object raises `AttributeError` at its first `.get` |
| `AsrDeepgram.MapWords` | utils/asr_deepgram.py:53-58 | when the loop completes it has produced exactly one record per entry |
| `AsrDeepgram.MapWordsAppend` | utils/asr_deepgram.py:53-58 | processing a concatenation of entries is running the loop on the first part and then on the second: the first part's exception wins, then the second's, and otherwise the records concatenate |
| `AsrDeepgram.CollectWords` | utils/asr_deepgram.py:43-58 | the `append` loop returns exactly what `MapWords` specifies, including the exception of the first failing entry |
| `AsrDeepgram.Extract` | utils/asr_deepgram.py:42-60 | a body that is not a JSON object raises `AttributeError` |
| `AsrDeepgram.Normalize` | utils/asr_deepgram.py:38-64 | a status other than 200 gives `[]` plus an error log whatever the body; so does an undecodable body; a logged error always comes with `[]`; nothing is logged exactly when the status is 200 and the whole extraction succeeds, and then the records are its result |
| `AsrDeepgram.Transcribe` | utils/asr_deepgram.py:38-64 | the step-by-step body with its early returns gives exactly `Normalize` |
| `TranscriptionProperties.WordRecordFields` | utils/asr_deepgram.py:55-57 | an object entry converts exactly when both times convert; `word` is the stored value unchanged or `""`; an absent time is 0.0 before conversion; the first failing time decides the exception |
| `TranscriptionProperties.WellFormedEntryRecord` | utils/asr_deepgram.py:54-58 | an object entry whose times are absent or numeric gives its expected record: absent times are 0.0, bools are 0 or 1 |
| `TranscriptionProperties.UnconvertibleTime` | utils/asr_deepgram.py:56-57 | a `start` or `end` holding `null`, a list or an object raises `TypeError` |
| `TranscriptionProperties.MapWordsAllOrNothing` | utils/asr_deepgram.py:53-58 | the loop succeeds if and only if every entry converts; it then holds entry i's record at position i; otherwise its exception is that of the first failing entry |
| `TranscriptionProperties.MapWordsWellFormed` | utils/asr_deepgram.py:53-58 | N well-formed entries give exactly N records, in order, each the expected one |
| `TranscriptionProperties.NavigateFollowsPath` | utils/asr_deepgram.py:46-51 | on a body with every level present, the defaulting lookup finds the same `words` value as the strict path |
| `TranscriptionProperties.WellFormedResponse` | utils/asr_deepgram.py:42-60 | a 200 reply of the documented shape with N well-formed entries gives exactly N records, in order, each the expected one, with nothing logged |
| `TranscriptionProperties.AllOrNothing` | utils/asr_deepgram.py:53-64 | once `words` is reached, either every entry converts and the reply has one record per entry in order, or some entry fails and the reply is `[]` with an error logged, never a partial list |
| `TranscriptionProperties.AbsentLevelYieldsEmpty` | utils/asr_deepgram.py:46-51 | a missing `results`, `channels`, `alternatives` or `words` gives `[]` with nothing logged |
| `TranscriptionProperties.EmptyListIndexedRaises` | utils/asr_deepgram.py:48-49 | a present but empty `channels` or `alternatives` list raises `IndexError`, giving `[]` with an error logged |
| `TranscriptionProperties.OneWordExample` | utils/asr_deepgram.py:42-60 | the one-word reply for `hi` from 0.1 to 0.3 gives exactly that record |
| `TranscriptionProperties.EmptyObjectExample` | utils/asr_deepgram.py:46-51 | the body `{}` gives `[]` with nothing logged |

## Left out

- The `aiohttp` session, the POST of the file, the `Authorization` header,
  the API key and the fixed URL (utils/asr_deepgram.py:15-16, 26-37): network
  I/O and configuration. Their outcome is the (status, body) input.
- `open(file_path, "rb")` and transport failures (utils/asr_deepgram.py:31-33):
  they happen before a response exists. In the code they end in the same
  catch-all, as `[]` plus an error log, which is the outcome `Normalize` gives
  every caught exception; the model's input starts at a received response.
- `transcribe_audio_sync` (utils/asr_deepgram.py:68-72): only `asyncio.run`
  scheduling, with no logic of its own.
- The logging configuration and the text of the log lines
  (utils/asr_deepgram.py:9-13, 39, 63): side-effect sinks, reduced to the
  `errorLogged` flag.
- `tts_engine.py`: a wrapper over the gTTS library, random `uuid4` names and
  the filesystem.
- IEEE floating point: numbers are exact reals. So the model has no NaN or
  infinity, no rounding of large integers, and no `OverflowError` from
  `float()` on a huge JSON integer.
- Python's string-to-float grammar: it is a caller-supplied parameter.
- `aiohttp`'s content-type check in `response.json()`: it is one of the ways
  that call can fail, all of which are `body == None`.
- PyJson.Iterate: iterating a non-empty dict visits its keys, which are
  strings, and the loop body's first `.get` on one raises `AttributeError`. A
  `map` has no key order, so the model raises that error at the iteration
  itself. The outcome is the same.
- Exceptions that `except Exception` does not catch (`BaseException`
  subclasses such as task cancellation): concurrency is outside the model.
