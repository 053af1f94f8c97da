# Agent-builder chat: verified model of the router and the link splitter

This project models two parts of a small chat application in Dafny.

**The workflow router.** `runWorkflow` in `src/lib/workflow.ts` handles every chat message the same way:

- It appends the user's text to `conversationHistory`. This array is module-level, so it is shared by every run.
- It runs the classifier agent "Orchestrateur " over the history and appends the items that agent produced.
- It aborts with "Agent result is undefined" when the classifier's final output is falsy.
- Otherwise it matches the output's `category` against `linkedin`, `scrapping`, `images`, `podcast` and `general`. A match runs exactly one specialist agent over the updated history, appends that agent's items, aborts when its output is falsy, and returns `{response: finalOutput}`.
- Any other output returns the JSON text of the classifier output.

`workflow.dfy` represents it as follows:

- The six agents and four hosted MCP tool bindings are datatype values (`Roster`, built by `AgentsFor`).
- The module-level state is a class, `WorkflowModule`. Its `conversationHistory: seq<Item>` field is what the methods reassign.
- The agent runtime `Runner.run` is an oracle: a function parameter from (trace tags, agent, items) to (new items, optional final output).
- `JSON.stringify` is a function parameter.
- The methods `RunWorkflow`, `RunAgents` and `RunAgent` mirror the source statement by statement. `RunWorkflow` and `RunAgents` are proved to produce exactly what the specification function `Run` computes from the old history. `RunAgent`, one agent step, is proved against a single runtime call: the history grows by that call's items. A thrown error becomes the outcome `Failed(message)`.
- Lemmas about `Run` and `RunAll` state the routing rules and how the history grows.

**The message link splitter.** `renderMessageContent` in `src/components/ChatInterface.tsx` cuts a message into text parts and link parts:

- It repeatedly applies the global regular expression `\(?(https?:\/\/[^\s)]+)\)?`.
- It emits the text between matches as text parts, and each capture group as a link.
- It gives each link a title taken from the URL's path or host name.

`message_content.dfy` represents it as follows:

- The regular expression is written out as a scanner: `UrlCharsEnd`, `UrlEndAt`, `MatchAt`, and `Exec`, the leftmost match from a position on.
- `RenderMessageContent` is the source's `while` loop over `exec`, with `lastIndex` and the `parts` array. It is proved against three specification functions:
  - `Matches`: the successive matches;
  - `Reassemble`: putting the text back together;
  - `LinkParts`: the expected links.
- The browser's URL parser is a function parameter that yields `(hostname, pathname)` or nothing.

`wrappers.dfy` holds the `Option` type both modules use.

Giving every run a log of its own would keep concurrent requests apart. The code does not do this: the history is module-level and outlives each run. The model follows the code. `RunAllExtends` and `LaterRunSeesEarlierRuns` state what that sharing means for sequential runs.

## Model

| member | source | states |
|---|---|---|
| Workflow.UserItemRecordsText | src/lib/workflow.ts:154-162 | the user item records the user's text: reading the text of a one-part `user` message back from it gives that text, and it is the only item that reads back to that text |
| Workflow.SpecialistFor | src/lib/workflow.ts:193-280 | a specialist is selected exactly when the category is one of the five strings |
| Workflow.SpecialistBindings | src/lib/workflow.ts:14-152 | every configured specialist is plain-text with the shared settings; all but `generaliste` bind exactly one hosted tool; every binding has approval "never"; only the LinkedIn binding carries an authorization, and it is the caller's Zapier token |
| Workflow.ClassifierConfiguration | src/lib/workflow.ts:77-95 | the classifier binds no tool, answers with a category object, and that object's schema admits a category if and only if dispatch selects a specialist for it |
| Workflow.DispatchOneToOne | src/lib/workflow.ts:193-277 | two of the five categories select specialists with the same name if and only if they are the same category |
| Workflow.Run | src/lib/workflow.ts:154-283 | the history before a run is a prefix of the history after it, even on failure; the user item sits right after the old history; a run makes one or two runtime calls; the first is the classifier over the old history plus the user item; every call carries the run's trace tags (`orchestrateur 4`, `agent-builder`, the caller's `workflowId`) and sees a prefix of the final history; a failure carries "Agent result is undefined" |
| Workflow.ClassifierFailure | src/lib/workflow.ts:174-184 | a falsy classifier output makes the run fail after one call, with the classifier's items already appended |
| Workflow.DispatchesOneSpecialist | src/lib/workflow.ts:193-277 | for each of the five categories, exactly the selected specialist runs, as the second and last call, over the history that already holds the classifier's items; its items are appended; the run completes exactly when its output is truthy, and the response is that output |
| Workflow.FallsBackToClassifierText | src/lib/workflow.ts:186-282 | any other truthy classifier output runs no specialist, leaves the history as the classifier step left it, and answers with the stringified classifier output |
| Workflow.FailsExactlyOnFalsyOutput | src/lib/workflow.ts:182-277 | a run fails if and only if the classifier's output is falsy or the dispatched specialist's output is falsy |
| Workflow.RunAllExtends | src/lib/workflow.ts:10-162 | over any series of sequential runs, each with the agents built from its own Zapier token, the shared history only grows: the starting history is a prefix of the final one, which is longer by at least one item per run |
| Workflow.LaterRunSeesEarlierRuns | src/lib/workflow.ts:10-179 | after any series of sequential runs, each with its own token's agents, a later run's classifier receives everything the earlier runs appended, followed by its own user item |
| Workflow.WorkflowModule.constructor | src/lib/workflow.ts:10 | the shared history starts empty |
| Workflow.WorkflowModule.RunAgent | src/lib/workflow.ts:174-180 | one runtime call over a copy of the current history; its new items are appended; its final output is returned |
| Workflow.WorkflowModule.RunWorkflow | src/lib/workflow.ts:13-284 | the new history, the runtime calls made and the outcome are exactly those of `Run` over the configured agents and the old history |
| Workflow.WorkflowModule.RunAgents | src/lib/workflow.ts:154-283 | the same correspondence with `Run` for any roster of agents: the push of the user item, the classification, the five-way dispatch with its error checks, and the fallback |
| MessageContent.UrlCharsEnd | src/components/ChatInterface.tsx:19 | `[^\s)]+` is greedy: every character up to the returned end continues a URL, and the next one does not |
| MessageContent.UrlEndAtMeaning | src/components/ChatInterface.tsx:19 | when a URL starts at a position, the capture found there is a URL and cannot be extended; when none is found, no URL starts there |
| MessageContent.MatchAtMeaning | src/components/ChatInterface.tsx:19 | a match has an opening parenthesis exactly when one precedes the URL; the URL is as long as possible; the closing parenthesis is consumed exactly when it follows; without a match, no URL starts there, bare or after `(` |
| MessageContent.ExecFindsLeftmost | src/components/ChatInterface.tsx:19-24 | `exec` returns the match at the first position from `lastIndex` on where the pattern matches, and nothing when it matches nowhere |
| MessageContent.MatchesFrom | src/components/ChatInterface.tsx:24-60 | the successive matches lie within the text, start at or after the scan position, and do not overlap |
| MessageContent.MatchesFromAreUrls | src/components/ChatInterface.tsx:19-31 | each match's capture is a URL of at least eight characters, preceded in the match by nothing or by exactly one `(` |
| MessageContent.NoMatchesIffNoUrl | src/components/ChatInterface.tsx:19-24 | the pattern finds nothing if and only if no URL starts anywhere in the text |
| MessageContent.IndexOf | src/components/ChatInterface.tsx:37 | the index found is an occurrence of the pattern, and no earlier index is one |
| MessageContent.RemoveFirst | src/components/ChatInterface.tsx:37 | `replace('www.', '')` removes exactly the first occurrence, wherever it is, and leaves the text unchanged when there is none |
| MessageContent.Split | src/components/ChatInterface.tsx:43 | `split('/')` gives at least one piece; no piece contains the separator; joining the pieces with it gives back the path |
| MessageContent.MeaningfulSegments | src/components/ChatInterface.tsx:43 | the filter keeps only segments that are neither empty nor all digits, and drops none of them |
| MessageContent.MeaningfulSegmentsAppend | src/components/ChatInterface.tsx:43 | the filter keeps order and repetitions: filtering a concatenation concatenates the filtered parts, and one segment is kept exactly when it is meaningful |
| MessageContent.LastMeaningfulSegment | src/components/ChatInterface.tsx:43-45 | the last segment the filter keeps is the last meaningful segment of the path |
| MessageContent.DashesToSpaces | src/components/ChatInterface.tsx:46 | every `-` and `_` becomes a space, and every other character is kept |
| MessageContent.StripPageExtension | src/components/ChatInterface.tsx:47 | the result is a prefix of the segment; a suffix is removed only when it is `.html`, `.php`, `.asp` or `.aspx` in any letter case, and the segment is kept whole only when it ends in none of them |
| MessageContent.UpperFirst | src/components/ChatInterface.tsx:48 | the length is kept; the first character of the result is no lower-case ASCII letter and is the original letter up to case; the rest is unchanged |
| MessageContent.LinkTitleFromPath | src/components/ChatInterface.tsx:41-48 | for a path other than empty or `/` that has a meaningful segment, the title is the last such segment, transformed by the three rules above |
| MessageContent.LinkTitleFromHost | src/components/ChatInterface.tsx:34-57 | for an unparsable URL the title is `Lien`; otherwise, when the path has no meaningful segment, it is the host name with its first `www.` removed |
| MessageContent.DeriveLinkTitle | src/components/ChatInterface.tsx:34-57 | the imperative title code computes `LinkTitle` of what the parser returns |
| MessageContent.LinkPartsAt | src/components/ChatInterface.tsx:31-59 | the k-th expected link part holds the k-th match's capture and its title |
| MessageContent.ScanStep | src/components/ChatInterface.tsx:24-61 | one loop iteration moves `lastIndex` strictly forward to the end of the match. It keeps all of the following: the matches handled are a prefix of all matches; the parts reassemble to the text up to `lastIndex`; the links are the expected ones; text parts are non-empty and never adjacent |
| MessageContent.ScanEnd | src/components/ChatInterface.tsx:63-66 | when `exec` finds nothing more, pushing the remaining text, if any, completes a part list with every property below |
| MessageContent.RenderMessageContent | src/components/ChatInterface.tsx:17-66 | the part list has one link per match. Putting the text parts and the matched substrings (parentheses included) back in order gives the message exactly. The links are the expected title and URL pairs. Text parts are non-empty and never adjacent. A message without a match gives one text part holding the whole message. The list is empty only for the empty message |
| MessageContent.RenderedLinks | src/components/ChatInterface.tsx:31-59 | every link part's URL is the capture of its match, without the wrapping parentheses; it starts with `http://` or `https://` and contains no whitespace or `)`; its text is the title derived from that URL |

## Left out

- The agent runtime (`Runner`, `Agent`, `hostedMcpTool`) and the model and MCP calls behind it are a function parameter. The model does not capture a call that throws (for example a network error); every call returns.
- `withTrace` and the runner's `traceMetadata` are only tags on each runtime call (`TraceContext`). No tracing behaviour is modelled.
- The Zod schema of the classifier output is not enforced. The category is an arbitrary string, so the fallback branch stays reachable. An object output without a `category` field is not represented; it would take the same fallback branch as a string output, which is represented.
- `JSON.stringify` is a function parameter from an output to its text.
- `async`/`await`, and concurrent requests that share `conversationHistory`, are not modelled. Runs are sequential calls on one `WorkflowModule`.
- The HTTP route's presence checks on the message, `workflowId` and `zapierToken` are outside `runWorkflow`. They are not preconditions here, because `runWorkflow` accepts any input.
- The WHATWG `URL` constructor is a parameter that yields `(hostname, pathname)` or failure. Host-name normalisation, percent-encoding and the like are not modelled.
- The JSX that `renderMessageContent` returns (lines 68-92), the React component, and the page and its configuration modal are UI and are not modelled.
- UpperFirst: only ASCII letters are upper-cased. JavaScript's `toUpperCase` also maps other letters, some of them to several characters.
- Strings are sequences of Unicode scalar values, while JavaScript indexes UTF-16 code units. For text outside the Basic Multilingual Plane, the model's indices (and `charAt(0)`) count differently than the source's.
