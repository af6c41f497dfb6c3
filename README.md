# Editor session of the transition editor

A Dafny model of the edit session behind the transition editor screen and of
the button widget that triggers its save and publish actions.

The editor screen holds two copies of the edited transition. `rawTransition`
is the declared, persistable one. `transition` is the same transition with its
uniforms resolved for the preview. Two snapshots decide whether there is
anything to save:

- `lastSaving` is the copy last sent to the server, cleared when that save fails;
- `lastSaved` is the copy last confirmed saved.

A save either saves directly or, for the template (root) transition, creates a
new transition, saves it under the new id and routes to that id's page.
Publishing checks the name typed at the prompt, renames, saves and reloads.
Detailed validation runs, debounced, on the last transition handed to it and
replaces the displayed errors only when they differ. Each re-render installs
the leave-page warning exactly when there are unsaving changes at that moment.
The preview
configuration (duration, delay, easing) is loaded from the browser store with
fallbacks.

The button counts only plain left clicks. It runs its action as a job and
ignores every click while that job is pending, so one button has at most one
job in flight.

Files:

- `wrappers.dfy`: `Option`.
- `editor_values.dfy`: store values with JavaScript's truthiness and `isNaN`; uniform values; `Transition`.
- `custom_uniforms.dfy`: `keepCustomUniforms`.
- `preview_config.dfy`: the store, the configuration fallbacks, reset.
- `editor_screen.dfy`: the publish-name pattern, the validation merge and the `EditorSession` class.
- `button.dfy`: click validity, the click gate, the props defaults and the rendered class list.

How it is modelled:

- Every asynchronous chain is a method that starts it and a method that
  completes it with the outcome of the external call, for example `BeginSave`
  and `CompleteSave(job, ok)`. Other events may run in between.
- The model assumes that a state update on an unmounted screen changes
  nothing and that the chain goes on. Plain field writes
  (`lastSavingTransition`, `lastSavedTransition`) still happen. See
  "## Left out" for what this assumption does not capture.
- `componentDidUpdate` runs after every state update while mounted (`DidUpdate`).
  A write to the saving snapshot outside a state update leaves the guard as
  it was until the next re-render. The ghost flag `guardCurrent` records
  whether such a write is pending. So `Valid()` keeps
  `mounted && guardCurrent ==> guardInstalled == HasUnsavingChanges()`, and
  every method that re-renders ensures that the guard is current and equals
  the unsaving flag afterwards.
- The previewed transition is always the raw one with its uniforms replaced
  by the resolved ones (`Lifecycle()`), so both have the same id, name and
  source.
- The create chain has three steps:
  - `BeginCreate` takes the snapshot;
  - `CreateReturned` gives the copy its new id in place, once the server has created it;
  - `CompleteCreate` commits the copy, once it is saved under that id and its uniforms are resolved.

  `FailCreate` is the failure handler for any step. The copy is also the
  saving snapshot. Its object identity is kept as a number (`SaveJob.ref`,
  `lastSavingRef`). The new id shows in `lastSaving` only while `lastSaving`
  is still that copy.
- Between `CreateReturned` and `CompleteCreate`, the saving snapshot has the
  new id while the raw transition keeps the root id. So there are unsaving
  changes, and another save starts a second create (`SaveAgainWhileCreating`).
- Collaborators whose source is not part of this model are constants of the
  session: `uniformValuesForUniforms` (`uniformValuesFor`), `validateTransition`
  with the session's validator (`validate`) and the easing library's
  acceptance of four numbers (`easingAccepts`). Results of the texture
  resolver and of the server are arguments of the completing methods. The
  prompt's answer is an argument. The browser store is a map.

Guarantees a careful design would want but that the code does not have. The
model follows the code, so it does not state them:

- A commit of resolved uniforms carries no staleness check: a late
  resolution overwrites a newer edit (`LateResolutionWins`).
- `onSave` has no in-flight guard. Only the button's click gate keeps save
  clicks to one job at a time.
- The configuration handlers store and set whatever they are given. A bad
  value is rejected only at the next load, by the fallbacks.
- Debounced validation checks the last transition handed to it. It does not
  re-read the session's current transition when the timer fires.
- A completed create does not update the saved snapshot, so
  `HasUnsavedChanges` stays true after it (`CreateUninterrupted`).

## Model

| member | source | states |
|---|---|---|
| CustomUniforms.KeepCustomUniforms | client/src/screens/editor/EditorScreen/index.js:31-39 | a uniform is kept exactly when its name is none of progress, resolution, from, to and its type is not samplerCube; kept entries keep their type |
| CustomUniforms.KeepCustomUniformsIsSubMap | client/src/screens/editor/EditorScreen/index.js:35-39 | the filtered map is a sub-map of its input |
| CustomUniforms.KeepCustomUniformsIdempotent | client/src/screens/editor/EditorScreen/index.js:35-39 | filtering twice gives the same map as filtering once |
| PreviewConfig.LoadDuration | client/src/screens/editor/EditorScreen/index.js:106-107 | duration falls back to 1500 for undefined, null, false, 0, NaN and arrays of two or more numbers; every other stored value is kept |
| PreviewConfig.LoadDelay | client/src/screens/editor/EditorScreen/index.js:108-109 | delay falls back to 200 only for undefined, NaN and arrays of two or more numbers; null, booleans and every number, 0 included, are kept |
| PreviewConfig.LoadEasing | client/src/screens/editor/EditorScreen/index.js:99-105 | the stored easing is kept exactly when it is an array the easing library accepts; otherwise it is [0,0,1,1] |
| PreviewConfig.LoadConfig | client/src/screens/editor/EditorScreen/index.js:99-109 | a missing key loads as its default (1500, 200, [0,0,1,1]); a stored delay of 0 is kept and a stored duration of 0 is replaced |
| PreviewConfig.ClearConfig | client/src/screens/editor/EditorScreen/index.js:293-295 | the three configuration keys are removed and every other entry of the store is kept |
| PreviewConfig.ClearedStoreLoadsDefaults | client/src/screens/editor/EditorScreen/index.js:292-301 | after the reset, loading yields duration 1500, delay 200 and easing [0,0,1,1] |
| PreviewConfig.StoredDurationOnReload | client/src/screens/editor/EditorScreen/index.js:106-107 | a stored non-zero duration survives a reload and a stored 0 does not |
| PreviewConfig.StoredDelayOnReload | client/src/screens/editor/EditorScreen/index.js:108-109 | any stored numeric delay, 0 included, survives a reload |
| EditorScreen.AllNameChars | client/src/screens/editor/EditorScreen/index.js:323 | the scan accepts exactly the strings whose every character is in [a-zA-Z0-9_ ] |
| EditorScreen.MatchesPublishName | client/src/screens/editor/EditorScreen/index.js:323 | a name matches exactly when it is non-empty and every character is in [a-zA-Z0-9_ ] |
| EditorScreen.PublishNameExamples | client/src/screens/editor/EditorScreen/index.js:323 | "My Transition_1" matches; "bad name!" and the empty string do not |
| EditorScreen.ValidationUpdate | client/src/screens/editor/EditorScreen/index.js:153-161 | new errors are set exactly when mounted and they differ by value from the displayed ones, and then they are the new reasons |
| EditorScreen.ValidationUpdateSettles | client/src/screens/editor/EditorScreen/index.js:156-160 | repeating the check with the same reasons sets nothing |
| EditorScreen.EditorSession.constructor | client/src/screens/editor/EditorScreen/index.js:94-137 | both snapshots equal the raw transition, so there are neither unsaving nor unsaved changes; types are the filtered compile result, or empty when it does not compile; the configuration is loaded from the store; the previewed transition is queued for validation |
| EditorScreen.EditorSession.HasUnsavingChanges | client/src/screens/editor/EditorScreen/index.js:367-369 | true exactly when nothing is being saved or the saving snapshot differs by value from the raw transition |
| EditorScreen.EditorSession.HasUnsavedChanges | client/src/screens/editor/EditorScreen/index.js:370-372 | true exactly when nothing is saved or the saved snapshot differs by value from the raw transition |
| EditorScreen.EditorSession.DidUpdate | client/src/screens/editor/EditorScreen/index.js:147-151 | the leave-page guard is installed exactly when there are unsaving changes |
| EditorScreen.EditorSession.SetSaveStatus | client/src/screens/editor/EditorScreen/index.js:231-236 | status and message are set together while mounted and the guard is refreshed; nothing changes once unmounted |
| EditorScreen.EditorSession.TakeSavingSnapshot | client/src/screens/editor/EditorScreen/index.js:238-239 | the saving snapshot becomes a copy of the raw transition, with a fresh identity |
| EditorScreen.EditorSession.BeginSave | client/src/screens/editor/EditorScreen/index.js:237-240 | the saving snapshot is the raw transition before the status becomes info "Saving..."; nothing is left unsaving; while mounted the re-render removes the guard |
| EditorScreen.EditorSession.CompleteSave | client/src/screens/editor/EditorScreen/index.js:241-250 | on success the snapshot becomes the saved one and the status success "Saved."; on failure the saving snapshot is none, the status error "Save failed." and the failure is passed on |
| EditorScreen.EditorSession.BeginCreate | client/src/screens/editor/EditorScreen/index.js:252-255 | the saving snapshot is the raw transition before the status becomes info "Creating..."; nothing is left unsaving and, while mounted, the re-render removes the guard |
| EditorScreen.EditorSession.CommitWithUniforms | client/src/screens/editor/EditorScreen/index.js:224-230 | the captured transition becomes the raw one and, with the resolved uniforms, the previewed one, whatever was committed meanwhile; types are replaced only when the capture carries them; while mounted the re-render sets the guard to the unsaving flag |
| EditorScreen.EditorSession.CreateReturned | client/src/screens/editor/EditorScreen/index.js:256-260 | the copy takes the created id in place; the saving snapshot takes it only if it is still that copy, which then leaves unsaving changes; the guard is not refreshed |
| EditorScreen.EditorSession.CompleteCreate | client/src/screens/editor/EditorScreen/index.js:261-268 | the saved copy becomes the raw transition and, with resolved uniforms, the previewed one; the status is success "Created." and the route is /transition/ followed by the id; nothing is unsaving when the saving snapshot is still that copy; while mounted the guard equals the unsaving flag |
| EditorScreen.EditorSession.FailCreate | client/src/screens/editor/EditorScreen/index.js:269-272 | the saving snapshot is none and the status error "Create failed.", leaving unsaving changes and the guard installed |
| EditorScreen.EditorSession.Rerender | client/src/screens/editor/EditorScreen/index.js:147-151 | any other state update refreshes the guard to the current unsaving flag |
| EditorScreen.EditorSession.OnSave | client/src/screens/editor/EditorScreen/index.js:309-319 | nothing happens without unsaving changes; otherwise create exactly when the root id equals the previewed transition's id, and plain save in every other case, each taking a fresh snapshot with status info; the create test on the previewed id is the same test on the raw id; a started save removes the guard while mounted |
| EditorScreen.EditorSession.OnPublish | client/src/screens/editor/EditorScreen/index.js:320-333 | a rename of only the name starts exactly when the prompt gave a matching name; otherwise an alert or nothing, and no state changes |
| EditorScreen.EditorSession.OnUniformsChange | client/src/screens/editor/EditorScreen/index.js:356-360 | the commit it starts differs from the raw transition in its uniforms only |
| EditorScreen.EditorSession.OnGlslChangeFailure | client/src/screens/editor/EditorScreen/index.js:339-343 | only the debounced validation gets the attempted source; the raw transition is untouched |
| EditorScreen.EditorSession.OnGlslChangeSuccess | client/src/screens/editor/EditorScreen/index.js:344-355 | the raw transition with only its source and its uniforms changed, the uniforms being values for the filtered types, is queued for validation and returned for commit with those types |
| EditorScreen.EditorSession.FireValidation | client/src/screens/editor/EditorScreen/index.js:153-161 | the last queued transition is validated; nothing changes once unmounted; errors are replaced and the screen re-rendered only when they differ by value; a re-render sets the guard to the unsaving flag, otherwise the guard is untouched |
| EditorScreen.EditorSession.OnDurationChange | client/src/screens/editor/EditorScreen/index.js:274-279 | the duration is stored and set as given, with no validation; while mounted the re-render sets the guard to the unsaving flag |
| EditorScreen.EditorSession.OnDelayChange | client/src/screens/editor/EditorScreen/index.js:280-285 | the delay is stored and set as given, with no validation; while mounted the re-render sets the guard to the unsaving flag |
| EditorScreen.EditorSession.OnBezierEasingChange | client/src/screens/editor/EditorScreen/index.js:286-291 | the easing is stored and set as given, with no validation; while mounted the re-render sets the guard to the unsaving flag |
| EditorScreen.EditorSession.OnResetConfig | client/src/screens/editor/EditorScreen/index.js:292-302 | the keys are removed from the store and the configuration becomes the defaults; while mounted the re-render sets the guard to the unsaving flag |
| EditorScreen.EditorSession.Unmount | client/src/screens/editor/EditorScreen/index.js:138-146 | both snapshots are dropped, the guard removed and the validator released |
| EditorScreen.EditorSession.SaveUninterrupted | client/src/screens/editor/EditorScreen/index.js:237-251 | a plain save that completes with nothing in between leaves neither unsaving nor unsaved changes and no guard |
| EditorScreen.EditorSession.CreateUninterrupted | client/src/screens/editor/EditorScreen/index.js:252-273 | a create that completes with nothing in between commits the new id with nothing unsaving, but the saved snapshot is not updated, so unsaved changes remain |
| EditorScreen.EditorSession.SaveAgainWhileCreating | client/src/screens/editor/EditorScreen/index.js:252-263 | a save made after the create returned but before its commit starts a second create of the same content |
| EditorScreen.EditorSession.LateResolutionWins | client/src/screens/editor/EditorScreen/index.js:224-230 | when two uniform edits resolve in the opposite order, the earlier edit's commit overwrites the later one |
| Button.WithDefaults | client/src/ui/button/index.js:18-25 | each missing prop takes its default (disabled false, activeCls "active", debounceRate 200); each given one is kept |
| Button.IsValidClickEvent | client/src/ui/button/index.js:26-29 | a click counts exactly when it is button 0 with none of ctrl, shift, alt, meta |
| Button.SplitJoinRoundTrip | client/src/ui/button/index.js:51-55 | joining class names that hold no space with spaces and splitting again gives them back |
| Button.SplitJoinThen | client/src/ui/button/index.js:51-55 | words joined with spaces, followed by a space and more text, split back into the words and then the pieces of that text |
| Button.Button.constructor | client/src/ui/button/index.js:30-37 | a fresh button holds a resolved job, so it is not active |
| Button.Button.ReceiveProps | client/src/ui/button/index.js:12-25 | new props from the parent replace the old, with defaults for missing ones |
| Button.Button.OnClick | client/src/ui/button/index.js:38-49 | a valid click is prevented; a job starts exactly when the click is valid, no job is pending and the button is enabled; so at most one job is in flight |
| Button.Button.IsActive | client/src/ui/button/index.js:30-32 | active exactly when the last job is pending |
| Button.Button.Settle | client/src/ui/button/index.js:30-32 | once the pending job settles the button is no longer active |
| Button.Button.ClassList | client/src/ui/button/index.js:51-53 | "button", then "disabled" if disabled, then the active class if active, in that order |
| Button.Button.ClassName | client/src/ui/button/index.js:50-57 | the rendered class name starts with "button": the joined class list, then the parent's class name appended by transferPropsTo |
| Button.Button.ClassNameReadsBack | client/src/ui/button/index.js:50-57 | when the active class has no space, the rendered class name splits back into the class list followed by the pieces of the parent's class name |
| Button.FreshButtonTakesOneClick | client/src/ui/button/index.js:18-49 | a default button starts a job on the first plain left click and starts none on the next one while that job is pending |

## Left out

- Rendering, the tab table, the toolbar and child components, the cursor-token help panel, and the resize listeners (`onResize`, `computeWidth`, `computeHeight`): UI layout, not session logic.
- The fps computation: floating-point arithmetic with rounding.
- Floating-point numbers: numbers are `real`, so rounding, infinities and negative zero are not modelled.
- Store values other than undefined, null, booleans, numbers, NaN and arrays of numbers (strings, objects, nested arrays) are not modelled. The JSON serialisation of the browser store (a stored NaN reads back as null) is not modelled.
- PreviewConfig.LoadEasing: the easing library's validity check is a parameter (`easingAccepts`), so the model does not say which four numbers it accepts.
- The debounce timer's 100 ms quiet period: the model keeps only "validate the last argument passed" (`pendingValidation`), and the timer firing is the method `FireValidation`.
- The button's debounce delay (`debounceRate`) and the action `f` itself: the job is pending from the click until `Settle`.
- The Promises mixin is not part of this model. `setStateQ` is taken to apply like `setState`.
- EditorScreen.EditorSession.SetSaveStatus, EditorScreen.EditorSession.CommitWithUniforms, EditorScreen.EditorSession.CompleteCreate: on an unmounted screen a state update is modelled as a no-op and the chain as going on, so `CompleteCreate` still returns the route. The React version this code targets may instead throw there. The chain would then go to its failure handler and never route. The model does not capture that.
- Failures after a create's commit (a failing status update or route) are not modelled separately: `FailCreate` is the same handler whichever step failed.
- `uniformValuesForUniforms`, `validateTransition`, the validator's compile step and the texture resolver are not part of this model. Their results are parameters.
- The router's `route` and `reload`: `CompleteCreate` returns the route it would navigate to. The reload after publishing is the caller's next step and is not modelled.
- `window.alert`: its message is returned in `PublishOutcome.Alerted`.
- A cancelled prompt makes `name.match` throw: this is modelled as the outcome `PromptCancelled`, with no state change.
- `hasUnsavedChanges` is defined but not used elsewhere on the screen. The model keeps it as `HasUnsavedChanges`.
