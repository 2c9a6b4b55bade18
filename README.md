# TutorGPT prompt dispatcher, modelled in Dafny

`start_gpt.py` samples 150 algebra word problems from a JSON dataset and sends them to a chat-completion
service. It uses three prompt templates: *generate* (`g`), *explain* (`e`) and *analyze* (`a`). It keeps
each question and answer in one growing conversation, and it collects the tagged prompts and the replies.
This project models the core of that script and proves what it guarantees.

- **Conversation client** (`MESSAGES`, `call_gpt`). `Transcript.Client` holds the message list. `Send`
  appends a user message, asks the service, appends the assistant reply and returns it. The service is an
  oracle `Model` from the whole transcript to the reply text.
- **Validation, filtering and partitioning** (`use_prompt_templates`, lines 89-103). `Sampling.Prepare`
  rejects a dataset with fewer than 150 records. It keeps the `sQuestion` values of the records that have
  one (`Problems`), and rejects fewer than 150 of those. It shuffles them and cuts three windows of 50
  (`Partition`).
- **Dispatch loop** (lines 109-124). `Dispatch.SendWindows` and `Dispatch.SendWindow` are the two nested
  loops. They strip each problem, skip blanks, fill the category's template (`Templates`), send the prompt
  and record `"(tag) prompt"` with the reply. `Dispatch.UsePromptTemplates` is the whole function once the
  dataset is loaded.

Each method is proved against the specification function `Dispatch.Converse`. That function folds
`Dispatch.Turn` over the list of requests (`Dispatch.Jobs`). The lemmas about `Converse` state the promised
properties:
- one record and two messages per non-blank problem;
- the system message is kept, and user and assistant messages alternate;
- records come in order g, then e, then a;
- each record holds the reply to its own prompt.

Modules, one per file:
- `Wrappers`: `Option` and `Result`.
- `Text`: Python's `str.strip()`.
- `Filter`: index lists and counts of the elements that satisfy a predicate.
- `Transcript`: the conversation client.
- `Templates`: `PROMPTS` and the category tag.
- `Sampling`: validation, the filter and the partition.
- `Dispatch`: the loops and their specification.

## Model

| member | source | states |
|---|---|---|
| Text.TrimLeft | start_gpt.py:111 | the result is the longest suffix of the input that does not start with whitespace; everything dropped is whitespace |
| Text.TrimRight | start_gpt.py:111 | the result is the longest prefix of the input that does not end with whitespace; everything dropped is whitespace |
| Text.TrimLeftEmpty | start_gpt.py:111 | dropping leading whitespace leaves nothing exactly when the whole text is whitespace |
| Text.Strip | start_gpt.py:111-112 | `data.strip()` is empty exactly when every character is whitespace (the `if not data` skip); otherwise it starts and ends with a non-whitespace character |
| Text.StripSlice | start_gpt.py:111 | `data.strip()` is a contiguous slice of `data`, with only whitespace before it and after it |
| Text.StripIdempotent | start_gpt.py:111 | stripping an already stripped text changes nothing |
| Filter.Where | start_gpt.py:93 | the positions of the elements satisfying the filter, increasing, each satisfying it, none missing |
| Filter.CountSnoc | start_gpt.py:93 | one more element adds one to the count exactly when it satisfies the filter |
| Filter.WhereCount | start_gpt.py:93 | the number of kept positions is the number of elements that satisfy the filter |
| Filter.WhereAll | start_gpt.py:112-113 | when every element satisfies the filter, none is dropped |
| Transcript.CallAppendsTurn | start_gpt.py:41-53 | a call grows the transcript by exactly two messages: the user prompt, then an assistant message whose content is the service's answer to the transcript up to that prompt; all earlier messages are unchanged |
| Transcript.CallKeepsWellFormed | start_gpt.py:20-30 | a call keeps the system message at index 0, an odd length and user/assistant alternation from index 1 |
| Transcript.Client.constructor | start_gpt.py:20-30 | `MESSAGES` starts as the single system message, and the alternation invariant holds |
| Transcript.Client.Send | start_gpt.py:41-53 | `call_gpt` appends the user message and the reply, returns the reply the service gave for the transcript ending in the user message, and keeps the invariant |
| Templates.KeyRoundTrip | start_gpt.py:58-62 | each category has a one-character key, and the key maps back to the category |
| Templates.KeyInjective | start_gpt.py:58-62 | different categories have different keys |
| Templates.FillRoundTrip | start_gpt.py:115 | the problem substituted into a template can be recovered from the prompt |
| Templates.UnfillRoundTrip | start_gpt.py:115 | a text with the template's shape is the template filled with the recovered problem |
| Templates.TaggedRoundTrip | start_gpt.py:122 | the stored prompt `"(" + tag + ") " + prompt` determines both the category and the prompt |
| Templates.UntagRoundTrip | start_gpt.py:122 | every text read back as a tagged prompt is exactly that tagged prompt |
| Sampling.Problems | start_gpt.py:93 | `problems` holds the `sQuestion` values of exactly the records that have the key, in dataset order |
| Sampling.ProblemsCount | start_gpt.py:93 | the number of problems is the number of records with an `sQuestion` key |
| Sampling.Partition | start_gpt.py:99-103 | three windows tagged g, e and a, each of 50 items; window k item i is shuffled item 50k + i; together they are the first 150 shuffled items, and nothing beyond them is used |
| Sampling.Prepare | start_gpt.py:89-103 | fails with too-few-entries exactly when there are fewer than 150 records, and with too-few-valid exactly when there are enough records but fewer than 150 problems; otherwise it returns the partition of the shuffled problems |
| Sampling.PartitionDrawsOnce | start_gpt.py:99-103 | the three windows use no position of the shuffled list twice |
| Sampling.SampleWithoutReplacement | start_gpt.py:93-103 | for every permutation the shuffle might pick, the windows together are a sub-multiset of `problems` |
| Dispatch.JobsOfCount | start_gpt.py:110-118 | a window makes one request per item that is not blank once stripped |
| Dispatch.JobsOfCategory | start_gpt.py:109-115 | every request a window makes uses that window's category |
| Dispatch.JobsOfAt | start_gpt.py:110-115 | request k of a window is the k-th non-blank item of the window, stripped |
| Dispatch.JobsInCategoryOrder | start_gpt.py:99-110 | the requests of the three windows are those of g, then those of e, then those of a |
| Dispatch.TurnAppends | start_gpt.py:115-124 | one request appends its prompt and reply to the transcript and one record to `responses`; the record is the tagged prompt with the reply to the transcript up to that prompt; nothing earlier changes |
| Dispatch.ConverseGrows | start_gpt.py:109-124 | after n requests the transcript has grown by 2n messages and `responses` by n records, and both old lists are prefixes of the new ones |
| Dispatch.ConversePrefix | start_gpt.py:109-124 | the state after the first m requests is a prefix of the state after all of them |
| Dispatch.ConverseAt | start_gpt.py:111-124 | request k's prompt and reply sit at transcript positions 2k+1 and 2k+2 after the start, and record k pairs its tagged prompt with exactly the reply `call_gpt` returned for it |
| Dispatch.ConverseUpTo | start_gpt.py:109-124 | the state after the first k+1 requests is the state after the first k, plus request k's turn |
| Dispatch.TurnWithin | start_gpt.py:115-124 | a request's messages and record are kept in every later state |
| Dispatch.ConverseKeepsWellFormed | start_gpt.py:20-30 | the dispatch loop keeps the system message first and the user/assistant alternation |
| Dispatch.ConverseAppend | start_gpt.py:109-110 | making one list of requests and then another is the same as making the two lists joined |
| Dispatch.RunShape | start_gpt.py:109-124 | from a fresh client, `responses` has one record per non-blank sampled item, the transcript has 1 + 2·len(responses) messages, and it is well formed |
| Dispatch.WindowsJobCount | start_gpt.py:109-113 | the three windows make as many requests as they have non-blank items |
| Dispatch.RecordBlocks | start_gpt.py:109-122 | the records form three blocks: the first tagged g (one per non-blank g item), then e, then a |
| Dispatch.JobCategoryAt | start_gpt.py:109-110 | in the joined requests of g, e and a, request k has the category of the block it falls in |
| Dispatch.BlocksOfFifty | start_gpt.py:99-110 | with 50 requests per window, request j belongs to the window at position j / 50 of g, e, a |
| Dispatch.FullWindows | start_gpt.py:99-113 | three full windows with no blank item make 150 requests: 50 g, then 50 e, then 50 a |
| Dispatch.FullSample | start_gpt.py:98-113 | when none of the first 150 shuffled problems is blank, exactly 150 calls are made, 50 per category in order g, e, a |
| Dispatch.JobsOfStep | start_gpt.py:110-113 | one more item adds one request with its stripped text, or none when that text is empty |
| Dispatch.JobsStep | start_gpt.py:109-110 | one more window adds that window's requests |
| Dispatch.ConverseStep | start_gpt.py:115-124 | one more request adds exactly one turn |
| Dispatch.ConverseNextItem | start_gpt.py:110-124 | one more item leaves the state unchanged when it is blank once stripped, and adds its turn otherwise |
| Dispatch.ConverseNextWindow | start_gpt.py:109-110 | the next window's requests continue the state left by the windows before it |
| Dispatch.SendWindow | start_gpt.py:110-124 | the inner loop leaves the transcript and `responses` exactly as the specification says for that window's requests |
| Dispatch.SendWindows | start_gpt.py:105-124 | the outer loop, starting from an empty `responses`, leaves the transcript and `responses` exactly as the specification says for all requests in order g, e, a |
| Dispatch.UsePromptTemplates | start_gpt.py:89-124 | with too few entries or too few valid entries, it fails with that error and sends nothing; otherwise it returns the specified `responses` and leaves the specified transcript |

## Left out

- The OpenAI client construction and `.env` loading (start_gpt.py:7, 13-15) are configuration outside the model.
- The completion request (start_gpt.py:45-48, model `gpt-4o-mini`) is the oracle `Transcript.Model`, a total function of the transcript. Network failures, exceptions and retries are not modelled. In the script an exception aborts the run with no output file.
- `random.shuffle` (start_gpt.py:98) is a function parameter `shuffle`. It only has to preserve the multiset of its input, so every property holds for every permutation the random source might pick. Given the same shuffle, the partition is the same, because `Prepare` is a function.
- File I/O is not modelled. This covers the existence check and `FileNotFoundError` (start_gpt.py:84-85), `json.load` (start_gpt.py:86-87) and writing `output.json` (start_gpt.py:128-129). `UsePromptTemplates` takes the loaded dataset and returns `responses`.
- `Sampling.Prepare`: a `ValueError` becomes a `Failure` value instead of an exception.
- `Sampling.Problems`: dataset records are string-to-string maps. Non-dictionary items and non-string `sQuestion` values are not modelled.
- The text of the system prompt (start_gpt.py:23-28) is an arbitrary string parameter of the client.
- The `print` calls and `main` (start_gpt.py:108, 127, 131, 135-141) are not modelled.
- Prompts are not required to be non-empty. The code never checks this, so the model follows the code. Every prompt the loop sends is non-empty anyway, since every template text is non-empty.
- The function's docstring speaks of a "random chance to choose 1 of the 3" templates. The code instead gives each category a fixed window of the shuffled list, and the model follows the code.
- The dictionary `prompts_by_type` is the sequence of its three entries in insertion order (`Sampling.Batch`). Python iterates a dictionary in that order.
