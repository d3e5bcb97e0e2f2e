# gpt-dir in Dafny

gpt-dir is a command-line chat client. It can load a file, or every selected file of a
directory tree, as the first user message. It then runs an interactive loop:
- It reads a line from the operator.
- It estimates the prompt cost and asks for confirmation when that cost is high.
- It sends the whole conversation to a chat-completion service.
- It appends the streamed answer.

This project models that loop and the loader in Dafny and proves properties of both.
The model has five modules:

- `Paths`: the parts of POSIX path handling the loader uses:
  - the hidden-name test;
  - `os.path.splitext`, with its rule that leading dots do not start an extension;
  - `os.path.join`.
- `ContextLoader`: `GptClient._concatenate_files`.
  - The filesystem is an abstract snapshot. Each directory lists its files and its
    subdirectories in the order the operating system gives them.
  - `Walk` is a recursive specification of the pruned top-down walk.
  - `Listing` and `Keep` give an independent reference: the full, unpruned listing, filtered
    afterwards.
  - `ConcatenateFiles` is the imperative loader. It keeps `os.walk`'s pending-directory stack
    explicitly and, like the source, appends to a string accumulator. It is proved equal
    to the rendering of `Walk`.
- `WalkPaths`: for a well-formed directory, no two "File:" headers of the result name the
  same path. A well-formed directory has non-empty names without separators, and no name
  listed twice.
- `Pricing`: the two price tables, `GptClient.costs`, the confirmation thresholds and the
  reply test of `_confirm`.
- `Chat`: `run_chat` and `_user_prompt`.
  - `Conversation` is the list the loop grows in place.
  - `GptClient` holds the configuration.
  - `UserPrompt`, `Confirm`, `CollectAnswer`, `Exchange`, `AskUser` and `Turn` are the
    pieces of one loop pass.
  - `Step` is one pass as a function, and `Run` is the whole loop as a function.
  - `RunChat` is the whole loop as the program runs it. It is proved to return exactly
    what `Run` gives: the reason it stopped, the conversation, and the input left unread.

Everything the program gets from outside becomes an input value:
- the filesystem snapshot;
- the lines on standard input, one sequence shared by both `input()` calls;
- the fragment stream returned for each request.

Three functions are given to `GptClient` when it is constructed: the tokenizer, Python's
`str()` of the conversation, and `json.dumps`. The loop ends with a `Stop` value:
- `Declined`: `sys.exit()` after a refused prompt;
- `EndOfInput`: the `EOFError` of `input()`;
- `UnknownModel`: the `KeyError` of an unpriced model;
- `RemoteFailure`: no stream is left for a request.

The tokenizer is total in the model, so these four are the only ways the modelled loop
ends (see `Pricing.Costs` under "## Left out").

Three behaviours of the code are worth stating:
- A path that is neither a regular file nor a directory yields the empty text: `os.walk`
  reports nothing for it and no error is raised.
- Files and subdirectories are visited in listing order, not sorted.
- The request carries no token cap, because `max_tokens` is stored but never sent.

## Model

| member | source | states |
|---|---|---|
| Paths.IsHidden | gpt_dir.py:106-109 | a name is hidden exactly when it starts with a dot |
| Paths.SplitExt | gpt_dir.py:111 | the root and the extension concatenate back to the name |
| Paths.ExtensionShape | gpt_dir.py:111 | the extension is either empty or a dot followed by neither a dot nor a separator |
| Paths.VisibleExtension | gpt_dir.py:109-113 | for a name that is not hidden, the extension is empty exactly when the name has no dot |
| Paths.Join | gpt_dir.py:114 | an absolute name replaces the directory; otherwise the path starts with the directory and ends with the name, with at most one added character between them, a separator |
| Paths.JoinProperName | gpt_dir.py:114 | joining a directory and an entry name puts the name after the directory and a separator, unless the directory already ends in one; the joined path's own prefix ends in the name and a separator |
| Paths.FirstComponentOf | gpt_dir.py:114 | the first component of a joined path below a directory is the entry's name |
| ContextLoader.VisibleSubdirs | gpt_dir.py:106 | the pruned subdirectory list holds exactly the listed subdirectories whose names do not start with a dot |
| ContextLoader.WalkIsKeptListing | gpt_dir.py:104-113 | the pruned walk is, in order, the full listing without files under hidden directories, hidden files and files with other extensions |
| ContextLoader.IncludedIffVisibleAndSelected | gpt_dir.py:104-113 | a file is in the walk iff it is listed outside every hidden directory, its name is not hidden and its extension is allowed |
| ContextLoader.ConcealedKeepsNothing | gpt_dir.py:106 | nothing below a hidden directory is kept, however deep |
| ContextLoader.EmptyEndingsYieldNothing | gpt_dir.py:102-113 | with no allowed extensions a directory yields the empty text |
| ContextLoader.SingleFileVerbatim | gpt_dir.py:99-100 | a regular file yields its contents, with no header and no extension filter |
| ContextLoader.WalkStep | gpt_dir.py:104-106 | one walk step emits the top directory's files, replaces the directory with its visible subdirectories in listing order, and strictly shrinks the pending stack |
| ContextLoader.AppendFiles | gpt_dir.py:107-116 | the inner loop appends, in listing order, "File: " + joined path + newline, then contents + two newlines, for each visible file with an allowed extension |
| ContextLoader.ConcatenateFiles | gpt_dir.py:92-117 | the loader's result equals the file's contents, the rendering of the pruned walk, or "" when nothing is at the path |
| WalkPaths.FilesInPaths | gpt_dir.py:107-114 | the kept files of one directory sit directly under it, under distinct listed names and distinct paths |
| WalkPaths.WalkPathsDistinct | gpt_dir.py:104-116 | in a well-formed tree no file appears twice in the concatenation: all header paths are distinct and lie under the walked path |
| Pricing.Costs | gpt_dir.py:87-90 | the token count is the encoding's length; the cost times 1000 is tokens times the model's price; an unpriced model fails |
| Pricing.PriceTablesAgree | gpt_dir.py:73-84 | both tables price the same four models, every price is positive and output is dearer than input |
| Pricing.CostsMonotone | gpt_dir.py:87-90 | a longer encoding never costs less |
| Pricing.ConfirmationAboveAllowance | gpt_dir.py:119-121 | for each priced model, the prompt is shown iff the token count exceeds one allowance: 8000 tokens for 3.5-turbo-1106, then 1666, 833 and 5000 where the cost limit binds first |
| Pricing.Lower | gpt_dir.py:126 | lower-casing keeps the length and lower-cases each character |
| Pricing.AcceptedReplies | gpt_dir.py:126 | a reply lets the loop go on iff it is "", "y" or "Y" |
| Chat.AwaitsUserOnOddLength | gpt_dir.py:145 | in an alternating conversation the last message is from the assistant or the system iff the length is odd |
| Chat.Fragments | gpt_dir.py:161-166 | the kept fragments are non-empty and no more numerous than the chunks |
| Chat.FragmentsJoinToDelivered | gpt_dir.py:159-170 | joining the non-empty fragments gives all delivered content, in arrival order |
| Chat.TwoFragmentAnswer | gpt_dir.py:159-170 | the fragments "Hel" and "lo!" make the answer "Hello!" |
| Chat.CollectAnswer | gpt_dir.py:159-170 | the stream loop's answer is the in-order concatenation of every delivered content |
| Chat.Conversation.constructor | gpt_dir.py:137 | the conversation starts as the one system message |
| Chat.GptClient.constructor | gpt_dir.py:58-72 | the client keeps the given configuration |
| Chat.GptClient.UserPrompt | gpt_dir.py:129-133 | a typed line is appended JSON-encoded as a user message and consumed; at end of input nothing changes |
| Chat.GptClient.AskUser | gpt_dir.py:144-147 | after an answered turn a line is read iff input remains; it is appended JSON-encoded as the next user message and consumed; at end of input nothing changes; the run's invariant is kept |
| Chat.GptClient.Confirm | gpt_dir.py:119-127 | an unpriced model fails; below both limits the gate passes without reading; above either it reads one reply and passes iff the reply is "", "y" or "Y", otherwise the run is declined |
| Chat.GptClient.ReportedCost | gpt_dir.py:172-176 | the reported cost times 1000 is the conversation's tokens at the input price plus the answer's tokens at the output price |
| Chat.GptClient.AnswerRecorded | gpt_dir.py:151-176 | sending the conversation and appending its answer records one more answered turn and keeps every earlier one |
| Chat.GptClient.Exchange | gpt_dir.py:150-176 | the request carries the whole conversation; exactly one assistant message, holding what the stream delivered, is appended |
| Chat.GptClient.Step | gpt_dir.py:143-170 | one pass only extends the conversation and reads a prefix of the input; it stops at end of input only when nothing is left; when it does not stop, a stream was left and the last message is the assistant message holding what that stream delivered |
| Chat.GptClient.StepTypedLines | gpt_dir.py:144-147 | every user message one pass adds is the JSON encoding of an input line |
| Chat.GptClient.StepDeclined | gpt_dir.py:119-127 | a pass is declined only for a priced model whose prompt is over a limit, after a reply line that is neither "", "y" nor "Y" |
| Chat.GptClient.Run | gpt_dir.py:142-176 | a run only extends the conversation and leaves a suffix of the input unread, nothing when it stopped at end of input; every user message it adds is the JSON encoding of an input line |
| Chat.GptClient.FirstLineTyped | gpt_dir.py:143-147 | without a path the conversation gets a user message iff input is not empty, and the first one is the JSON encoding of the first line |
| Chat.GptClient.Turn | gpt_dir.py:143-176 | one loop pass does what Step says: the same stop, conversation and unread input; it keeps the conversation alternating and every earlier turn answered, adds exactly one request unless it stops, and declines only when a prompt was due |
| Chat.GptClient.Advance | gpt_dir.py:142-176 | after one pass the rest of the run is Run from the new state, or the run ended where the pass stopped |
| Chat.GptClient.Converse | gpt_dir.py:142-176 | the main loop returns exactly Run of the conversation it started from, and keeps the run's invariant |
| Chat.GptClient.RunChat | gpt_dir.py:135-176 | the stop, the conversation and the unread input are exactly Run from the system message and, iff a path was given, the raw loaded text; end of input leaves nothing unread; typed user messages are JSON-encoded input lines, the first one being the first line when no path was given; the conversation alternates; request k is the conversation so far, and answer k is what stream k delivered |

## Left out

- Command-line parsing and `main` (gpt_dir.py:16-54, 179-182) are not modelled. They only fill the client's configuration.
- The remote service call is not modelled. Each request's fragment stream is an input, and running out of streams stands for a failing call.
- Network, authentication and malformed-response failures are not modelled separately. They all become `RemoteFailure`.
- The tokenizer, `str()` of the conversation and `json.dumps` are given functions. Only the length of the token encoding is used.
- Pricing.Costs: the tokenizer is total here. tiktoken's encode raises ValueError on text that contains a special-token string such as `<|endoftext|>`. In the program this ends the run at a cost estimate: at the gate (gpt_dir.py:120) before the request, or at the cost report (gpt_dir.py:173-174) after the answer was appended. No `Stop` value stands for it.
- Costs are exact reals, not binary floating point. The "{:.5f}" formatting of the printed costs is not modelled.
- Printing (the "Assistant: " prefix, echoing fragments, "Total Costs") is not modelled. The reported total is returned as a value instead.
- Reading a file's bytes and decoding errors are not modelled. A regular file's snapshot is its text.
- Symbolic links, special files and permission errors are not modelled. `os.walk`'s default of not following links and of swallowing errors is assumed.
- The `OPENAI_API_KEY` lookup (gpt_dir.py:85) is not modelled. It is a process environment read.
- setup.py is not part of this model. It holds packaging metadata only.
- Pricing.Lower: folds only ASCII letters, unlike Python's full Unicode `str.lower`. No other character lower-cases to "y", so the accepted replies are the same.
- Chat.GptClient.RunChat: the model answers only as many requests as streams are supplied; a further request counts as a failed call (`RemoteFailure`).
- WalkPaths.WalkPathsDistinct: assumes every directory lists proper, distinct names, as a POSIX filesystem does. Without that assumption only the multiplicity-preserving `ContextLoader.WalkIsKeptListing` holds.
