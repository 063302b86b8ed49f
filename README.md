# Chat input panel of a conversational search assistant

This project models the logic inside the chat input panel (`ChatPanel`, in
`components/chat-panel.tsx`) of a conversational search front end, and proves
properties of it. The panel does four things:

- **Query dispatch guard.** An externally supplied `query` (a seed query, for
  example from navigation) goes into the conversation only when it is
  non-blank after `trim()` and differs from the `lastQuery` ref. The ref is set
  before the message is appended and before the video fetch starts.
- **Video selection.** The admitted query starts one call to a video-search
  provider. When the call settles, `videoResults` becomes the first five
  provider entries if the response has a `videos` array of at least five.
  Otherwise, or on any exception, it becomes a fixed list of five fallback
  entries.
- **Enter-key gate.** Enter without Shift asks the form to submit, but only
  when no IME composition is open, Enter is not locked, and the input is not
  blank. Blank input only has the key's default action suppressed.
- **Composition lock.** Ending a composition locks Enter and schedules a
  300 ms one-shot timer that unlocks it. The timer is never re-armed.

Layout of the project:

- `wrappers.dfy`: `Option`.
- `text_input.dfy` (module `TextInput`): JavaScript `trim` over the ECMAScript
  WhiteSpace and LineTerminator code points, the key handler's effect, and the
  submit button's `disabled` flag. All of these are pure functions.
- `video_search.dfy` (module `VideoSearch`): the provider response as a
  datatype (`Failed`, `NullBody`, `Body(Missing | NotArray | Array(items))`),
  the fallback list, and `SelectVideos`.
- `panel_state.dfy` (module `PanelState`): the panel's state as a value and the
  events it reacts to. `Step(s, e)` is the state after one event, and
  `Run(s, t)` is the state after a sequence of events. `Inv` is the invariant
  every reachable state keeps:
  - the ref holds the query of the latest outbound call;
  - no two consecutive calls carry the same query;
  - every call carries a non-blank query and the region `"in"`;
  - `videoResults` is empty until the first fetch settles, then has exactly
    five entries.
- `panel_traces.dfy` (module `PanelTraces`): lemmas over single events and
  over event sequences.
- `chat_panel.dfy` (module `ChatPanel`): class `Panel` with the panel's state
  as fields and one method per event handler. Each method is proved to change
  the fields exactly as `Step` says for its event, and to keep `Inv`.

Inputs that come from outside the panel are parameters:

- the provider's response (`FetchSettled(response)`);
- a timer firing (`TimerFired`);
- the key event's `key` and `shiftKey`;
- the new textarea value;
- the parent's `isLoading`.

The asynchronous fetch is split in two steps. Admission issues the call: it is
recorded in `fetches` and `inFlight` goes up by one. A later `FetchSettled`
event, carrying any response, settles one in-flight call.

On these points the model follows the code:

- The new-chat handler calls `setMessages([])` and `router.push('/')`. The
  handler itself resets neither the `lastQuery` ref nor `videoResults`. So while
  the same panel stays mounted, the same seed query is not admitted again after
  a new chat (`PanelTraces.NewChatKeepsLastQuery`). Whether navigating to `/`
  remounts the panel, which would reset both, is outside this model.
- A typed submission goes through `form.requestSubmit()` to the parent's
  `handleSubmit`. It does not pass through the `lastQuery` guard. The model
  counts requested submits (`submitRequests`) and nothing more.
- The code does not tag a result as live or fallback. `videoResults` is a plain
  list, and `VideoSearch.Sufficient` says which path was taken.
- The submit button is enabled for whitespace-only input, while Enter refuses
  such input (`TextInput.BlankInputButtonEnabledEnterRefused`). The model
  records this as the code's behaviour and does not claim it as a defect.

## Model

| member | source | states |
|---|---|---|
| TextInput.Trim | components/chat-panel.tsx:235 | `trim()` returns the contiguous middle of the input. Everything outside it is whitespace or a line terminator, and it neither starts nor ends with one. It is empty exactly when the input is all such characters. |
| TextInput.IsBlank | components/chat-panel.tsx:108 | `trim().length === 0` holds exactly when every character can be trimmed. |
| TextInput.TrimIdempotent | components/chat-panel.tsx:235 | Trimming an already-trimmed string changes nothing. |
| TextInput.EnterKeyEffect | components/chat-panel.tsx:228-243 | A submit is requested iff the key is Enter, Shift is not held, no composition is open, Enter is not locked, and the input is not blank. The default action is suppressed iff the first four hold, so blank input is suppressed but not submitted. |
| TextInput.SubmitDisabled | components/chat-panel.tsx:283 | The button is disabled iff the input is empty and nothing is loading. A disabled button implies blank input and no loading. |
| TextInput.BlankInputButtonEnabledEnterRefused | components/chat-panel.tsx:283 | For input `" "`, the button is enabled, while Enter only suppresses the default action and does not submit. |
| VideoSearch.FallbackVideos | components/chat-panel.tsx:151-183 | The fallback list has five entries. |
| VideoSearch.FallbackShape | components/chat-panel.tsx:151-182 | Entry n (1 to 5) has title "Video n", link `https://videon.example.com` and a placeholder thumbnail ending in `Video+n`. The durations are 3:45, 2:30, 4:15, 5:00, 1:30, in that order. |
| VideoSearch.FallbackEntry | components/chat-panel.tsx:151-182 | Entry i of the fallback list follows the numbered pattern for i + 1. |
| VideoSearch.SelectVideos | components/chat-panel.tsx:138-183 | After settlement there are always exactly five results. With an array of at least five entries, result i is provider entry i. In every other case (failure, null body, missing `videos`, a non-array `videos` that line 139 replaces by `[]`, or fewer than five entries), the result is the fallback list. |
| VideoSearch.LiveResultIsPrefix | components/chat-panel.tsx:144-146 | On the live path the result is a prefix of the provider's list: its first five entries, in provider order. |
| VideoSearch.SelectVideosFixpoint | components/chat-panel.tsx:139-146 | Feeding a settled list back as a provider response returns it unchanged. |
| VideoSearch.EightResultsTruncated | components/chat-panel.tsx:146 | Eight provider entries settle to the first five. |
| VideoSearch.FourResultsFallBack | components/chat-panel.tsx:142-143 | Four provider entries settle to the fallback list. |
| PanelState.Initial | components/chat-panel.tsx:49-56 | The first-render state has no last query, no calls and no video results, and it satisfies the invariant. |
| PanelState.Step | components/chat-panel.tsx:58-243 | The state after one event. `QueryObserved` is the effect at lines 107-188 up to issuing the call. `FetchSettled` is the settlement of `fetchVideos` (lines 116-185). `CompositionStart` and `CompositionEnd` are the handlers at lines 58-66. `TimerFired` is the timer callback at lines 63-65. `KeyDown` is the key handler at lines 228-243. `Change` is the change handler at lines 224-227. `NewChat` is the new-chat handler at lines 68-71. The contract is the frame: each part of the state changes only under the events whose handlers write it. |
| PanelState.StepPreservesInv | components/chat-panel.tsx:105-188 | Every event keeps the invariant (ref = latest call's query, no repeated consecutive call, well-formed calls, five results once any call has settled). |
| PanelState.RunPreservesInv | components/chat-panel.tsx:105-188 | Every feasible sequence of events keeps the invariant. |
| PanelTraces.QueryAdmission | components/chat-panel.tsx:108-114 | The query effect changes the state iff the query is non-blank and differs from the ref. Then it sets the ref, appends one user message with the query, issues one call `{q, gl: "in"}` and leaves `videoResults` alone. Otherwise it changes nothing. |
| PanelTraces.BlankQueryIgnored | components/chat-panel.tsx:108 | An absent, empty or whitespace-only query changes nothing: no append, no call, the ref is unchanged. |
| PanelTraces.AdmitTwice | components/chat-panel.tsx:108-114 | The same query observed twice in a row gives one message and one call, then a complete no-op. |
| PanelTraces.StepDispatch | components/chat-panel.tsx:105-114 | Only an admitted query changes the ref or the list of calls. |
| PanelTraces.SameQueryAdmittedAtMostOnce | components/chat-panel.tsx:105-114 | Across any sequence of events whose queries are all `q` or absent (new chats included), at most one call for `q` is issued. None is issued if `q` is already the ref. Exactly one is issued if `q` is observed, is non-blank and is not the ref. |
| PanelTraces.LockHoldsUntilTimer | components/chat-panel.tsx:60-66 | While Enter is locked and no timer fires, the lock stays on and no submit is requested, whatever else happens. |
| PanelTraces.CompositionEndSuppressesEnter | components/chat-panel.tsx:60-66 | After a composition ends, no key press requests a submit until a timer fires. |
| PanelTraces.TimerClearsLockRegardless | components/chat-panel.tsx:63-65 | A timer unlocks Enter even while a new composition is open. |
| PanelTraces.KeyDownOnlyRequestsSubmit | components/chat-panel.tsx:228-243 | A key press changes nothing but the count of requested submits. That count goes up by one exactly under the Enter-key gate. |
| PanelTraces.CompositionTimingScenario | components/chat-panel.tsx:60-66 | From any state with non-blank input: Enter pressed after a composition ends and before its timer fires is suppressed; pressed after the timer fires, it submits. |
| PanelTraces.FirstTimerReleasesSecondWindow | components/chat-panel.tsx:60-66 | After end, start, end, the first timer already unlocks Enter while the second timer is still pending, so Enter submits inside the second window. |
| PanelTraces.SeedQueryScenario | components/chat-panel.tsx:107-186 | Seed query "cats" on a fresh panel gives one user message "cats" and one call `{q: "cats", gl: "in"}`. A failed call then leaves the five fallback entries. |
| PanelTraces.NewChatKeepsLastQuery | components/chat-panel.tsx:68-71 | While the panel stays mounted, a new chat empties the message log but keeps the ref, so the same query observed again is not re-appended and no second call is issued. |
| PanelTraces.SettledShowsFive | components/chat-panel.tsx:142-183 | In any reachable state where some call has settled, there are exactly five video results. |
| ChatPanel.Panel.constructor | components/chat-panel.tsx:49-56 | The fields start in the first-render state. |
| ChatPanel.Panel.OnQuery | components/chat-panel.tsx:107-115 | Reports admission iff the query is non-blank and differs from the ref. Updates the fields as the query effect does (ref, message, call) and keeps the invariant. |
| ChatPanel.Panel.OnFetchSettled | components/chat-panel.tsx:116-186 | One in-flight call settles. `videoResults` becomes the selection for the response, so it has five entries. |
| ChatPanel.Panel.OnCompositionStart | components/chat-panel.tsx:58 | Sets `isComposing`. |
| ChatPanel.Panel.OnCompositionEnd | components/chat-panel.tsx:60-66 | Clears `isComposing`, locks Enter and schedules one more timer. |
| ChatPanel.Panel.OnTimerFire | components/chat-panel.tsx:63-65 | Unlocks Enter, leaves `isComposing` as it is, and consumes one pending timer. |
| ChatPanel.Panel.OnKeyDown | components/chat-panel.tsx:228-243 | Returns the gate's effect and counts a requested submit. Nothing else changes. |
| ChatPanel.Panel.OnChange | components/chat-panel.tsx:224-227 | Stores the new value and sets `showEmptyScreen` iff the value is empty. |
| ChatPanel.Panel.OnNewChat | components/chat-panel.tsx:68-71 | Empties the message log and leaves the ref and the video results unchanged. |

## Left out

- The HTTP call itself is not modelled: the endpoint, the `X-API-KEY` header read from `SERPER_API_KEY`, the `Content-Type` header, `JSON.stringify` and `response.json()`. These are I/O. The response is an input datatype, and a call is recorded only as its `{q, gl}` body.
- Provider entries are taken to be `{title, link, thumbnail, duration}` records, because the code does not validate them either.
- Fetches may settle in any order, each with any response. The model does not track which query a settlement belongs to. So the stale-overwrite race, where an older call settles last, is allowed but not singled out.
- Real time is not modelled. The 300 ms delay is a `TimerFired` event that may occur while a timer is pending.
- `console.error` logging, React rendering and the `videoResults.length > 0` display condition are not modelled.
- A remount of the panel, for example after the new chat's navigation to `/`, is not modelled. A remount would reset the `lastQuery` ref and `videoResults`.
- A new chat is always possible in the model. In the code the new-chat button is rendered only while there are messages (line 266) and is disabled while loading (line 273). No proved property depends on this.
- The focus and blur handlers (which also set `showEmptyScreen`), the `responseType` select, and `router.push('/')` in the new-chat handler are outside this model.
- The unused helper `fetchSerperVideos` is never called, so it is not modelled.
- The parent chat hook is not modelled: its `handleSubmit`, its clearing of the input, the assistant's streamed replies, `isLoading` and `stop` are not part of this model. `messages` holds only what the panel appends or clears.
- `value.length` counts UTF-16 code units in JavaScript, while a Dafny string counts code points. The panel only compares lengths with zero, so this does not change any result.
