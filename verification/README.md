# Chat session model

A Dafny model of the `Chat` component of the chatbot widget
(`chatbot-ia/components/Chat.tsx`). It covers the session state and the code-block helpers.

- **Session state.** The message log, the input box and the in-flight flag `isTyping` are fields of the class
  `ChatSession.Chat`. They change step by step, as the React state does.
- **Sending.** `sendMessage` is modelled in two halves, split at its `await axios.post(...)`:
  - `BeginSend` applies the blank/in-flight guard, appends the user message, clears the input and raises the flag;
  - `AwaitReply` runs only while a send is in flight. It takes the backend's outcome as a parameter and runs
    the character-by-character reveal loop (`RevealReply`), or appends the error message. Either way it lowers
    the flag.

  `SendMessage` runs both halves in sequence. Calling `SendMessage` between the two halves is a no-op, which shows
  the in-flight gate.
- **Persistence.** `localStorage` is the class `ChatSession.Store`, a map from key to message log.
  - The restore effect is `Restore`, run by the constructor.
  - The save effect is `SaveEffect`. It is called after every assignment to `messages`, as React runs it after
    every change of `messages`.
  - `Persisted()` says the stored history under `"chatHistory"` is the current log; an empty log may instead be
    absent. Every operation keeps it, so `Reload` (a fresh component over the same store) gives back the same
    conversation.
- **Code-block helpers.** The two pure computations of the markdown `code` renderer are functions in `CodeBlock`:
  - the language captured by `/language-(\w+)/` from the class name;
  - the block text with one trailing `"\n"` removed.
- **Blank test.** `!input.trim()` is `Text.IsBlank`, built on an explicit `trim`.

A response without a `reply` field does not give a single error message. Line 45 first appends an empty
assistant message, reading `reply.length` at line 47 then throws, and the catch at lines 60-64 appends the error
message after it. The model follows the code, with the outcome `MissingReply`.

## Model

| member | source | states |
|---|---|---|
| Text.SkipWhitespace | chatbot-ia/components/Chat.tsx:33 | the scan from the left stops at the first non-whitespace character (or the end), and everything it passes is whitespace |
| Text.SkipWhitespaceBack | chatbot-ia/components/Chat.tsx:33 | the scan from the right stops just after the last non-whitespace character (or at its lower bound), and everything it passes is whitespace |
| Text.Trim | chatbot-ia/components/Chat.tsx:33 | `trim()` is the slice of the input that starts at its first non-whitespace character: only whitespace is dropped before and after it, and it is empty or neither starts nor ends with whitespace |
| Text.IsBlank | chatbot-ia/components/Chat.tsx:33 | `!input.trim()` holds exactly when every character of the input is whitespace (both directions) |
| Text.TrimKeepsInnerText | chatbot-ia/components/Chat.tsx:33 | `trim()` leaves a string with non-whitespace at both ends unchanged |
| CodeBlock.WordRun | chatbot-ia/components/Chat.tsx:76 | the greedy `\w+`: every character in the run is a word character and the run stops at the end or at a non-word character |
| CodeBlock.FirstMatch | chatbot-ia/components/Chat.tsx:76 | `exec` finds the leftmost position where `language-\w` matches, and None means there is no match at all |
| CodeBlock.CodeLanguage | chatbot-ia/components/Chat.tsx:76-77 | the language consists of word characters, and it is `""` exactly when the class (absent reads as `""`) has no match |
| CodeBlock.NoClassNoLanguage | chatbot-ia/components/Chat.tsx:76-77 | an absent class reads as `""`, and both it and an empty class give the language `""` |
| CodeBlock.LanguageAtLeftmostMatch | chatbot-ia/components/Chat.tsx:76-77 | at the leftmost match the language is the whole non-empty run of word characters right after `language-` |
| CodeBlock.LanguageOfTaggedClass | chatbot-ia/components/Chat.tsx:76-77 | a class `language-<name>` followed by a non-word character or nothing yields exactly `<name>` |
| CodeBlock.StripTrailingNewline | chatbot-ia/components/Chat.tsx:88 | at most one final `"\n"` is removed, and one is removed exactly when the text ends with `"\n"` |
| CodeBlock.StripUndoesOneNewline | chatbot-ia/components/Chat.tsx:88 | stripping undoes appending one newline, and only one: of two trailing newlines one remains |
| ChatSession.Answer | chatbot-ia/components/Chat.tsx:45-64 | a finished call appends only assistant messages: one for a reply or a failure, two when `reply` is missing; the last one holds the reply on success and the fixed error text otherwise |
| ChatSession.BlankInputs | chatbot-ia/components/Chat.tsx:33 | `"Hello"` passes the blank test and a run of space, newline and tab does not |
| ChatSession.Typing | chatbot-ia/components/Chat.tsx:44-59 | the reveal starts at `""`, each step extends the previous content by exactly the next reply character, and the last write is the full reply |
| ChatSession.Store.Get | chatbot-ia/components/Chat.tsx:22 | `getItem` returns the stored log when the key is present and None otherwise |
| ChatSession.Store.Set | chatbot-ia/components/Chat.tsx:28 | `setItem` replaces the entry under the key and leaves every other key alone |
| ChatSession.Store.Remove | chatbot-ia/components/Chat.tsx:117 | `removeItem` deletes the key and leaves every other key alone |
| ChatSession.Chat.constructor | chatbot-ia/components/Chat.tsx:16-28 | on mount the log is the stored history if present and empty otherwise; the input is empty, the flag is down, the store is unchanged, and `Persisted()` holds |
| ChatSession.Chat.Restore | chatbot-ia/components/Chat.tsx:21-24 | the log becomes the stored history when one is present and is untouched otherwise; `Persisted()` holds afterwards when it held before or an entry was loaded |
| ChatSession.Chat.SaveEffect | chatbot-ia/components/Chat.tsx:26-28 | the log is written under `"chatHistory"` only when it is non-empty; otherwise the store is unchanged; `Persisted()` holds afterwards when it held before or the log is non-empty |
| ChatSession.Chat.SetInput | chatbot-ia/components/Chat.tsx:155 | the input box holds the typed text, and `Persisted()` is kept |
| ChatSession.Chat.BeginSend | chatbot-ia/components/Chat.tsx:32-38 | blank input or a send in flight changes nothing; otherwise exactly one user message with the untrimmed input is appended, the input is cleared, the flag is raised and the store holds the new log |
| ChatSession.Chat.RevealReply | chatbot-ia/components/Chat.tsx:44-59 | the log gains exactly `assistant(reply)`; the loop invariant is that the last message is the prefix typed so far and the earlier ones are unchanged; the contents the log shows for that message are exactly `Typing(reply)`, and the store holds the final log |
| ChatSession.Chat.AwaitReply | chatbot-ia/components/Chat.tsx:40-67 | called only with a send in flight: success appends `assistant(reply)` through `RevealReply`; failure appends the one fixed error message; a missing `reply` leaves an empty assistant message and then the error; the flag ends down, the input is untouched and the store holds the final log |
| ChatSession.Chat.SendMessage | chatbot-ia/components/Chat.tsx:32-68 | guarded no-op (log, input, flag and store unchanged), or the log ends as the prior log followed by `user(input)` and the outcome's assistant messages, with empty input, the flag down, and the stored history equal to the log |
| ChatSession.Chat.Reset | chatbot-ia/components/Chat.tsx:115-118 | the log is empty, the `"chatHistory"` entry is removed and not written back by the save effect, and other keys are untouched |
| ChatSession.Chat.Reload | chatbot-ia/components/Chat.tsx:21-28 | a fresh component over the same store restores the same log, with an empty input and no send in flight |

## Left out

- The `axios.post("/api/chat", ...)` request is network I/O. Its result is the `Outcome` parameter of `AwaitReply` and `SendMessage`.
- The 15 ms `setTimeout` between reveal steps and `scrollIntoView` are timing and DOM effects. They have no state to model.
- The model runs `sendMessage` as one sequential run, except for the split at the backend call. It does not model
  a reset, or another state update, that interleaves with a reveal in progress. React's batching of state updates is left out too.
- `JSON.stringify` and `JSON.parse` are left out: the store holds message logs directly. A stored text that is not valid JSON (which would make `JSON.parse` throw) is not modelled.
- Trimming covers the ECMAScript whitespace and line-terminator code points over `seq<char>` (Unicode scalar values).
  JavaScript strings are UTF-16 code units, so `reply[i]` in the reveal loop would split a character outside the
  Basic Multilingual Plane into two steps. The model reveals one Unicode scalar value per step.
- A response whose `reply` is present but not a string (such as a number) is not modelled.
- `String(children)` in the code renderer, and whether a block is `inline`, are left out. They come from the
  markdown library, which is not part of this model.
- JSX rendering, ReactMarkdown, remark-gfm and the syntax highlighter are UI built on libraries outside this model.
  So are `src/app/page.tsx` (a layout shell) and `tailwind.config.js` (styling configuration).
- Failures of the store itself, such as an exceeded quota, are not handled by the component and are not modelled.
