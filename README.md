# Alignment simulator — a Dafny model of its core

The alignment simulator is a single-page React app. It pits two
conversations with a Gemini model against each other. An *agent* is
instructed with the robot prompt and starts from the user turn "BEGIN". A
*world* is instructed with the world prompt, followed by the robot prompt in a
delimited block. Each round asks the agent for its next move and gives that
move to the world as a user turn. It then asks the world for the outcome and
gives the outcome back to the agent, and records `{iteration, agent, world}`.
The first error ends the run. Its message is shown as `Error: <message>`,
and every record already made is kept. The records and both prompts can be
exported as a standalone HTML page.

This project models that core, which lives in `App.js`:

- `wrappers.dfy` (`Wrappers`): `Option` and `Result`.
- `decimal.dfy` (`Decimal`): how JavaScript prints a non-negative integer
  in a template string (`${status}`, `${result.iteration}`). It includes the
  parse-back round trip and a proof that the printed form is injective.
- `gemini.dfy` (`Gemini`): the shapes of requests and replies of the
  `generateContent` endpoint. It also covers the error contract of
  `generateContent`, the reads `candidates[0].content.parts[0].text` and the
  errors they throw, and the mutable request object (`class Request`), whose
  `contents` the loop pushes onto.
- `simulation.dfy` (`Simulation`): `runSimulation`.
  - The world's system instruction and its inverse.
  - A pure specification of one round (`Step`) and of the run (`Iterate`),
    with lemmas about it.
  - The component state as `class App`. Its methods `Round`, `RunRounds` and
    `RunSimulation` perform the loop imperatively on the two `Request`
    objects. `Round` and `RunRounds` are proved to leave both histories, the
    records, the requests sent and the failure as `Iterate` describes them;
    `RunSimulation` is proved to leave the records, the requests sent, the
    error and the running flag as `Iterate` describes them.
- `transcript.dfy` (`Transcript`): the records and the `downloadResults`
  template. The text of the template is `Page`. The lemmas are stated for
  any template text (`Layout`), so they hold for `Page` in particular.

The completion service is a parameter. `service(n, call)` is the HTTP
outcome of the n-th request of a run: `Rejected` when `fetch` or reading the
body rejects, otherwise the status, the body text and the parsed body. The
methods return the requests sent, in order, so that contracts can speak
about them.

Four things the code does that are easy to miss:

- The agent history stores the reply's `content` object exactly as the
  service returned it. This covers its role and all its parts, not a
  normalised model turn.
- A reply whose first part has no `text` does not throw. The text is
  `undefined`: it is sent on as a user turn, recorded, and printed as
  "undefined" by the export.
- The export does not escape anything. The prompts and texts appear in the
  HTML verbatim (`Transcript.PromptsVerbatim`,
  `Transcript.RecordTextsVerbatim`).
- The iteration count is whatever `parseInt` left in the field, so it can be
  NaN or negative. The loop then runs zero times, because every comparison
  with NaN is false.

## Model

| member | source | states |
|---|---|---|
| `Decimal.Digits` | App.js:29 | The printed form of a number is non-empty, made of decimal digits only, and has no leading zero. |
| `Decimal.ValueOfDigits` | App.js:29 | Reading the printed digits back gives the number: the status and the iteration number are printed without loss. |
| `Decimal.DigitsInjective` | App.js:157 | Different numbers print differently. |
| `Gemini.GenerateContent` | App.js:14-39 | Success exactly when a reply came back with status 200-299, and the result is the parsed body. A reply with any other status fails with an API error carrying that status and the body text. A rejection of `fetch` or of the body read is rethrown unchanged. |
| `Gemini.ApiErrorMessageDetermines` | App.js:29 | The message `API error: <status> - <body>` determines both the status and the body. |
| `Gemini.ReadReply` | App.js:94-96 | Succeeds exactly when `candidates` is present and non-empty, its first entry has a `content`, and that content has a first part. It then yields that content and the first part's text, which may be `undefined`. A missing `candidates` throws on reading '0', an empty one on reading 'content'. Every failure is a TypeError from reading a property of `undefined`. |
| `Gemini.Request.constructor` | App.js:50-89 | A request holds the given system instruction, history and safety settings. |
| `Gemini.Request.Push` | App.js:97-110 | `contents.push(c)` appends c to the history and changes nothing else. |
| `Simulation.WorldInstruction` | App.js:81-85 | Definition: the world prompt, the fixed header, the robot prompt and the fixed footer, concatenated. Its properties are the two lemmas below. |
| `Simulation.Rounds` | App.js:91 | `i < iterations` holds for exactly the first max(0, n) values of i, and for none when the count is NaN. |
| `Simulation.WorldInstructionEmbedsRobotPrompt` | App.js:79-85 | The world instruction is the world prompt, the fixed header, the robot prompt verbatim and the fixed footer, each at its own offset. |
| `Simulation.PlayerInstructionRoundTrip` | App.js:81-85 | The robot prompt is recovered exactly from the world instruction built on it. |
| `Simulation.Complete` | App.js:94-96 | Definition: one completion is `generateContent` followed by the reads of `candidates[0].content` and `parts[0].text`; the first error of either ends it. |
| `Simulation.Step` | App.js:94-116 | Definition of one round: the agent call, the agent's content pushed to the agent history and its text as a user turn to the world history, the world call, the world's text as a user turn to the agent history and its content to the world history, then the record; a failure stops it where it happens. Its properties are the lemmas below. |
| `Simulation.Iterate` | App.js:91-118 | Definition of the run: k applications of `Step` from the initial state, stopping at the first failure. Its properties are the lemmas below. |
| `Simulation.Prepare` | App.js:50-89 | Both requests use the component's model and key. The agent is instructed with the robot prompt. The world's instruction holds the robot prompt recoverably. Both share the four-entry safety-settings list. |
| `Simulation.StepAppends` | App.js:94-116 | A round only appends. After a complete round each history has two more turns, there is one more record and there are two more requests. A failed round adds no record and one or two requests. |
| `Simulation.IterateCounts` | App.js:91-118 | After k complete rounds the agent history has 1 + 2k turns, the world history 2k, the transcript k records, and 2k requests were sent. |
| `Simulation.IterateExtends` | App.js:91-118 | Later states extend earlier ones: histories, records and requests sent are never rewritten. |
| `Simulation.FailureIsFinal` | App.js:91-124 | After a failure no further round runs, and nothing more is sent or recorded. |
| `Simulation.FailedRound` | App.js:91-124 | A failed run failed in round n + 1, where n is the number of records kept. Those records are exactly the records of the n complete rounds. The failing round sent one or two requests. |
| `Simulation.IterateRecords` | App.js:91-118 | The agent history starts with "BEGIN". For every complete round j + 1: the record is numbered j + 1; the agent's request carried the agent history up to that round, and its reply is stored whole in the agent history and as a user turn with its text in the world history; the same holds for the world's request and reply, the other way round. |
| `Simulation.CompletedRun` | App.js:112-116 | A run of n rounds with no failure leaves n records numbered 1 to n in order. |
| `Simulation.RolesAlternate` | App.js:97-110 | Whenever the service answers in the model role, both histories alternate user and model turns at every point of the run. |
| `Gemini.Message` | App.js:29 | Definition of `err.message` for each kind of error: the rethrown message, `API error: <status> - <body>`, or the engine's TypeError text. Its property is `Gemini.ApiErrorMessageDetermines`. |
| `Simulation.ErrorText` | App.js:119-121 | An error text is shown exactly when the run failed, and it starts with "Error: ". |
| `Simulation.ApiErrorTextDetermines` | App.js:121 | The error shown for a reply that was not ok determines its status and body. |
| `Simulation.App.constructor` | App.js:5-12 | Initial state: empty key, the default prompts, model `gemini-1.5-pro`, 20 iterations, no results, not running, no error. |
| `Simulation.App.Round` | App.js:92-117 | One pass of the loop body on the two request objects and the records takes the state after i rounds to the state after i + 1 rounds, and returns the error where the source throws. |
| `Simulation.App.RunRounds` | App.js:91-118 | Started while the run is in progress with no error, from the agent history "BEGIN", an empty world history and no records: the loop ends with both request histories, the records, the requests sent and the failure of `Iterate` after max(0, iterations) rounds, stopping at the first failure. |
| `Simulation.App.RunSimulation` | App.js:41-125 | With an empty key only the error "Please enter a Gemini API key" is set, and nothing is sent or cleared. Otherwise the records and the requests sent are those of the specified run; the run is no longer in progress afterwards; the error is cleared, or is `Error: <message>` of the failure that ended the run. |
| `Transcript.RecordHtml` | App.js:155-166 | Definition of one record's markup: the fixed text around the iteration number, the agent text and the world text, interpolated raw. |
| `Transcript.RecordsHtml` | App.js:155-167 | Definition of `results.map(...).join('')`: the records' markup in order with no separator. |
| `Transcript.Document` | App.js:128-171 | Definition of the exported page: the fixed head, the robot prompt, the text between the prompts, the world prompt, the text before the results, the records' markup and the closing tags. Its properties are the lemmas below. |
| `Simulation.App.DownloadResults` | App.js:127-171 | Definition: the exported page for the current prompts and records, using the template `Page`. |
| `Transcript.RecordsHtmlConcat` | App.js:155-167 | Mapping and joining is compositional over concatenation of record lists. |
| `Transcript.PromptsVerbatim` | App.js:128-152 | The document starts with the fixed head. The robot prompt follows it verbatim, and the world prompt appears verbatim after the text between the prompts. Nothing is escaped. |
| `Transcript.RecordTextsVerbatim` | App.js:156-166 | A record's markup contains its iteration number, agent text and world text verbatim, in that order. |
| `Transcript.RecordInPlace` | App.js:153-168 | Record j's markup appears in the document right after the markup of the j records before it. |
| `Transcript.RecordsInOrder` | App.js:155-167 | Records appear in the document in list order. |
| `Transcript.DocumentGrows` | App.js:128-171 | Exporting after one more record inserts exactly that record's markup before the closing tags. |

## Left out

- Building the URL, `fetch`, `JSON.stringify`/`JSON.parse` and the console logging are left out. The HTTP exchange is the `service` parameter, and a request is modelled as the value `JSON.stringify` would serialise.
- Asynchrony and React's state updates are not modelled. `setResults(prev => ...)`, `setError` and `setIsRunning` are modelled as direct field updates in program order; render batching and interleaved user edits during a run are not.
- The JSX view, its input handlers and the `disabled` state of the start button are left out. `Simulation.App.RunSimulation` instead requires that no run is in progress.
- The `Blob`/anchor download in `downloadResults` is left out. `Simulation.App.DownloadResults` is the document text only.
- `constants.js` (the default prompts) is left out. The constructor takes the default prompts as parameters.
- The wording of a TypeError depends on the JavaScript engine. `Gemini.Message` uses V8's ("Cannot read properties of undefined (reading 'x')").
- Only a missing `candidates`, `content` or first part is modelled among malformed replies. A reply whose `content` has no `parts` array at all, or no `role`, is not modelled: `Content` always has both.
- The two requests share one safety-settings array in the source. The model holds it as a value, which is equal in both requests, and nothing mutates it.
- `Simulation.App.RunSimulation` returns the requests it sent. The source returns nothing; the returned trace exists only so that the contracts can state what was asked.
