# CodePet typing accumulator — a Dafny model

CodePet is an editor extension that shows a small pet in a side panel. Every text
change adds the inserted characters to a pending count; each full 100 characters
become 5 experience points (xp), and the level is `xp / 100 + 1`. After each
non-empty change the extension posts an `updateState` message to the panel's webview:
`Level-Up` when the level rose, `Coding` otherwise. A 30-second inactivity timer posts
`Idle`, and a 3-second timer after a level-up posts `Coding` again. The webview view
provider forwards messages only while a view is attached. When the host attaches a
view, the provider shows it the initial totals stored at activation.

The model has four modules:

- `Messages` (`messages.dfy`): the `PetMessage` schema, with its optional fields.
- `Progress` (`progress.dfy`): the pure arithmetic. It holds the level function, the
  sum of inserted lengths, the effect of one event on the totals (`Accumulate`), and
  the message the handler posts (`HandlerPost`). It also holds lemmas over whole event
  sequences (`Replay`).
- `Provider` (`provider.dfy`): the class `PetViewProvider`. `attached` stands for the
  `_view` field, and the ghost field `posted` logs every message posted to the attached
  webview.
- `Extension` (`extension.dfy`): the class `Activation`, holding the module-level
  state that `activate` sets up. Its constructor is `activate`, and
  `OnDidChangeTextDocument` is the change handler. Two Fire methods model the timer
  callbacks.

Timers carry no time in the model. The handler arms the idle timer, and only one
idle timer is outstanding at a time. Every level-up schedules a revert, and reverts
are never cancelled, so several can be pending. The host fires a timer by calling
the matching Fire method. The stored totals that activation reads from host storage
are constructor parameters. `None` stands for "nothing stored".

Behaviour of the code worth knowing, which the model keeps:

- A view attached after typing is shown the activation-time totals
  (src/extension.ts:118, 164-169), not the running ones: `_initialXP`/`_initialLevel`
  are set only by `setInitialState` at activation. `Extension.LateAttach` exhibits
  this: after 3000 typed characters, an attach shows 0 xp at level 1.
- The stored pending count is not range-checked on load (src/extension.ts:31). A
  non-empty event brings any non-negative pending count below 100, but an empty event
  leaves an out-of-range stored value untouched, so the range property is stated for
  non-empty events or for a pending count already in range.
- The states are `Idle`, `Coding` and `Level-Up`, modelled as `Idle`, `Coding` and
  `LevelUp`.

## Model

| member | source | states |
|---|---|---|
| `Progress.GetLevel` | src/extension.ts:11-13 | the level is the unique `level` with `100*(level-1) <= xp < 100*level` |
| `Progress.GetLevelExamples` | src/extension.ts:11-13 | level 1 at 0 and 99 xp, level 2 at 100 and 150 xp |
| `Progress.GetLevelMonotone` | src/extension.ts:11-13 | the level is non-decreasing in xp |
| `Progress.InsertedChars` | src/extension.ts:55-57 | the event's character count is 0 exactly when every change inserts nothing, and it is at least each change's length |
| `Progress.InsertedCharsAppend` | src/extension.ts:55-57 | the count of a concatenation of changes is the sum of the counts |
| `Progress.Accumulate` | src/extension.ts:58-64 | an empty event changes nothing; `20*xp + pending` grows by exactly the inserted characters; a non-empty event leaves a non-negative pending count in [0,100), and a pending count in range stays there; xp never decreases and grows by multiples of 5, and grows exactly when pending plus new characters reach 100 |
| `Progress.AccumulateInRange` | src/extension.ts:59-64 | with pending in [0,100), the new xp adds 5 per completed 100 characters and the new pending count is the remainder |
| `Progress.HandlerPost` | src/extension.ts:58-98 | no message for an empty event; otherwise one message, `Level-Up` exactly when the new level exceeds the old, `Coding` otherwise, carrying the new xp and its level; a level-up implies xp was earned |
| `Progress.ReplayInRange` | src/extension.ts:58-64 | from pending in [0,100), any sequence of events gives the totals of typing all its characters in one go |
| `Progress.ReplayFromZero` | src/extension.ts:58-64 | from 0/0, N typed characters give `(N/100)*5` xp and `N%100` pending, however they are split into events |
| `Progress.ReplayMonotone` | src/extension.ts:59-64 | over any events xp never decreases, grows by multiples of 5, and a pending count in [0,100) stays in range |
| `Progress.Scenarios` | src/extension.ts:58-98 | 250 characters from 0 give 10 xp, 50 pending and a `Coding` message at level 1; 100 characters at 95 xp give 100 xp and a `Level-Up` message at level 2 |
| `Provider.PetViewProvider.constructor` | src/extension.ts:131-136 | no view attached, initial xp 0 and level 1, nothing posted |
| `Provider.PetViewProvider.SetInitialState` | src/extension.ts:138-147 | stores xp and level, and posts `Idle` with them only if a view is attached |
| `Provider.PetViewProvider.PostMessageToWebview` | src/extension.ts:149-153 | appends the message to the posted log when a view is attached; with no view nothing changes, and the call never fails |
| `Provider.PetViewProvider.ResolveWebviewView` | src/extension.ts:155-170 | the view is attached and exactly one `Idle` message is posted with the stored initial xp and level |
| `Extension.Activation.constructor` | src/extension.ts:28-118 | totals are the stored ones (0 when absent), no timer pending, a fresh provider with no view, holding the loaded xp and its level as initial state, has posted nothing |
| `Extension.Activation.OnDidChangeTextDocument` | src/extension.ts:54-115 | the new totals are `Accumulate` of the old ones and the event's count, the posted log grows by the `HandlerPost` message when a view is attached, xp does not decrease, pending stays in range, the idle timer is armed by any non-empty event, and a revert is scheduled exactly when the level rose |
| `Extension.Activation.FireLevelUpRevert` | src/extension.ts:75-82 | one pending revert fires and posts `Coding` with the current xp and level |
| `Extension.Activation.FireIdleTimer` | src/extension.ts:102-113 | the armed idle timer fires once, only after every pending revert has fired, and posts `Idle` with the current xp and level |
| `Extension.LateAttach` | src/extension.ts:155-170 | after activation from nothing stored and 3000 typed characters (150 xp), attaching a view shows `Idle` with 0 xp at level 1 |

## Left out

- Timing: the 30 s, 3 s and 1 s delays are not modelled. Only whether a timer is outstanding is modelled, and the host fires timers through the Fire methods. The one ordering the delays force is kept: the idle timer fires only when no level-up revert is pending. Reverts may fire before or after later typing events.
- Delivery: the posted log records calls to the webview's `postMessage`; whether the host shows a post to a hidden webview is not modelled.
- Persistence: the debounced `saveState` (src/extension.ts:42-50), `deactivate` (src/extension.ts:121-129) and `globalState` writes are host storage I/O. Stored values enter only as constructor parameters.
- Host API objects: `ExtensionContext`, `registerWebviewViewProvider`, `Uri` and `asWebviewUri`. A change event is the sequence of its inserted text lengths, and an attached view is a flag; which view object is attached is not tracked.
- `getNonce` (src/extension.ts:15-22) depends on floating-point randomness.
- The generated HTML, CSS and webview script (src/extension.ts:172-304), including the `xp % 100` progress bar, are rendered by the host.
- JavaScript number semantics: totals are unbounded integers. Non-integer stored values and precision loss above 2^53 are not modelled.
