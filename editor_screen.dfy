/**
 * The editor screen's edit session: the persisted ("raw") transition and its
 * resolved copy for the preview, the two save snapshots that decide whether
 * there is anything to save, the save and create chains, publishing, the
 * debounced detailed validation and the leave-page guard.
 *
 * Each asynchronous chain is split into a method that starts it and a method
 * that completes it with the outcome of the external call (transport, texture
 * resolution, validation); anything may happen between the two.
 */
module EditorScreen {
  import opened Wrappers
  import opened EditorValues
  import opened CustomUniforms
  import opened PreviewConfig

  datatype StatusKind = Info | Success | Error

  /** The state handed to `setStateWithUniforms`: committed once its uniforms are resolved. */
  datatype PendingState = PendingState(transition: Transition, uniformTypes: Option<map<string, string>>)

  /**
   * A save or create in flight: the deep copy of the raw transition it sends,
   * and `ref`, the identity of that copy as an object (the create chain
   * changes the copy's id in place, which the saving snapshot sees when it is
   * still the same object).
   */
  datatype SaveJob = SaveJob(snapshot: Transition, ref: nat)

  /** The branch `onSave` takes. */
  datatype SavePath = NothingToSave | PlainSave(job: SaveJob) | CreateThenSave(job: SaveJob)

  /**
   * What `onPublish` does with the name typed at the prompt: a cancelled
   * prompt gives null, on which `name.match` throws; a name that fails the
   * pattern raises an alert; an accepted one starts the rename.
   */
  datatype PublishOutcome = PromptCancelled | Alerted(message: string) | Renaming(pending: PendingState)

  const SavingMessage: string := "Saving..."
  const SavedMessage: string := "Saved."
  const SaveFailedMessage: string := "Save failed."
  const CreatingMessage: string := "Creating..."
  const CreatedMessage: string := "Created."
  const CreateFailedMessage: string := "Create failed."
  const BadNameMessage: string := "Title must be alphanumeric."

  /** The route of a transition's own page. */
  function TransitionRoute(id: string): string {
    "/transition/" + id
  }

  /** One character of the class `[a-zA-Z0-9_ ]`. */
  predicate IsNameChar(c: char) {
    ('a' <= c <= 'z') || ('A' <= c <= 'Z') || ('0' <= c <= '9') || c == '_' || c == ' '
  }

  /** Scans `s` left to right, as the regular expression's `[...]+` does. */
  function AllNameChars(s: string): (ok: bool)
    ensures ok <==> forall i :: 0 <= i < |s| ==> IsNameChar(s[i])
  {
    if s == [] then true else IsNameChar(s[0]) && AllNameChars(s[1..])
  }

  /** `name.match(/^[a-zA-Z0-9_ ]+$/)` succeeds. */
  function MatchesPublishName(name: string): (ok: bool)
    ensures ok <==> |name| > 0 && forall i :: 0 <= i < |name| ==> IsNameChar(name[i])
  {
    |name| > 0 && AllNameChars(name)
  }

  lemma PublishNameExamples()
    ensures MatchesPublishName("My Transition_1")
    ensures !MatchesPublishName("bad name!")
    ensures !MatchesPublishName("")
  {
    var good := "My Transition_1";
    forall i | 0 <= i < |good| ensures IsNameChar(good[i]) {
      assert good[i] in "MyTransiton_1 ";
    }
    assert !IsNameChar("bad name!"[8]);
  }

  /**
   * `_checkDetailedValidation`'s decision: the new validation errors to set,
   * or None when nothing is set because the screen is unmounted or the
   * reasons equal the displayed ones by value.
   */
  function ValidationUpdate(mounted: bool, displayed: seq<string>, reasons: seq<string>): (r: Option<seq<string>>)
    ensures r.Some? <==> mounted && displayed != reasons
    ensures r.Some? ==> r.value == reasons
  {
    if mounted && displayed != reasons then Some(reasons) else None
  }

  /** After one update with some reasons, a second one with the same reasons sets nothing. */
  lemma ValidationUpdateSettles(mounted: bool, displayed: seq<string>, reasons: seq<string>)
    ensures var shown := ValidationUpdate(mounted, displayed, reasons).GetOr(displayed);
            ValidationUpdate(mounted, shown, reasons) == None
  {
  }

  class EditorSession {
    /** `env.rootGist`: the id of the template transition, which is created before it is saved. */
    const rootGist: string
    /** Whether the easing library accepts four numbers as a curve. */
    const easingAccepts: seq<real> -> bool
    /** `uniformValuesForUniforms`: declared values for a new set of uniform types. */
    const uniformValuesFor: (map<string, string>, map<string, UniformValue>) -> map<string, UniformValue>
    /** `validateTransition` bound to the session's validator: the reasons a transition is invalid. */
    const validate: Transition -> seq<string>

    var rawTransition: Transition
    var transition: Transition
    var uniformTypes: map<string, string>
    var lastSaving: Option<Transition>
    /** The object identity of `lastSaving`, compared with `SaveJob.ref`. */
    var lastSavingRef: nat
    var nextRef: nat
    var lastSaved: Option<Transition>
    var saveStatus: Option<StatusKind>
    var saveStatusMessage: Option<string>
    var validationErrors: seq<string>
    /** The last argument given to the debounced validation, until its timer fires. */
    var pendingValidation: Option<Transition>
    var config: Config
    var store: Store
    var mounted: bool
    /** Whether `window.onbeforeunload` holds the leave-page warning. */
    var guardInstalled: bool
    /**
     * No write to the saving snapshot has happened outside a state update
     * since `componentDidUpdate` last ran, so the guard reflects it.
     */
    ghost var guardCurrent: bool
    var validatorLive: bool

    /**
     * The invariant of the session between events: the leave-page guard is
     * installed exactly when there are unsaving changes, as of the last
     * re-render.
     */
    ghost predicate Valid()
      reads this
    {
      && Lifecycle()
      && (mounted && guardCurrent ==> guardInstalled == HasUnsavingChanges())
    }

    /**
     * What holds even in the middle of a chain, before the next state update
     * refreshes the guard; the previewed transition is the raw one with its
     * uniforms resolved.
     */
    ghost predicate Lifecycle()
      reads this
    {
      && lastSavingRef < nextRef
      && transition == rawTransition.(uniforms := transition.uniforms)
      && (!mounted ==> !guardInstalled && !validatorLive)
    }

    /** The raw transition differs from the one last sent to be saved (or nothing is being saved). */
    predicate HasUnsavingChanges()
      reads this
      ensures HasUnsavingChanges() <==> lastSaving.None? || lastSaving.value != rawTransition
    {
      lastSaving != Some(rawTransition)
    }

    /** The raw transition differs from the one last confirmed saved. */
    predicate HasUnsavedChanges()
      reads this
      ensures HasUnsavedChanges() <==> lastSaved.None? || lastSaved.value != rawTransition
    {
      lastSaved != Some(rawTransition)
    }

    /**
     * `getInitialState`, `componentWillMount` and `componentDidMount`:
     * `compiled` is the uniform types when the initial source compiles,
     * `resolved` the synchronously resolved uniforms, `initialStore` the
     * browser store.
     */
    constructor (initial: Transition, compiled: Option<map<string, string>>,
                 resolved: map<string, UniformValue>, initialStore: Store, rootGist: string,
                 easingAccepts: seq<real> -> bool,
                 uniformValuesFor: (map<string, string>, map<string, UniformValue>) -> map<string, UniformValue>,
                 validate: Transition -> seq<string>)
      ensures Valid()
      ensures rawTransition == initial && transition == initial.(uniforms := resolved)
      ensures uniformTypes == KeepCustomUniforms(compiled.GetOr(map[]))
      ensures lastSaving == Some(initial) && lastSaved == Some(initial)
      ensures !HasUnsavingChanges() && !HasUnsavedChanges()
      ensures store == initialStore && config == LoadConfig(initialStore, easingAccepts)
      ensures pendingValidation == Some(transition)
      ensures validationErrors == [] && saveStatus == None && saveStatusMessage == None
      ensures mounted && !guardInstalled && guardCurrent && validatorLive
      ensures this.rootGist == rootGist && this.easingAccepts == easingAccepts
      ensures this.uniformValuesFor == uniformValuesFor && this.validate == validate
    {
      this.rootGist := rootGist;
      this.easingAccepts := easingAccepts;
      this.uniformValuesFor := uniformValuesFor;
      this.validate := validate;
      rawTransition := initial;
      transition := initial.(uniforms := resolved);
      uniformTypes := KeepCustomUniforms(compiled.GetOr(map[]));
      saveStatus, saveStatusMessage := None, None;
      validationErrors := [];
      store := initialStore;
      config := LoadConfig(initialStore, easingAccepts);
      lastSaving, lastSaved := Some(initial), Some(initial);
      lastSavingRef, nextRef := 0, 1;
      validatorLive := true;
      mounted := true;
      guardInstalled := false;
      guardCurrent := true;
      pendingValidation := Some(initial.(uniforms := resolved));
    }

    /** `componentDidUpdate`: install the leave-page guard exactly when there are unsaving changes. */
    method DidUpdate()
      requires mounted
      modifies this`guardInstalled, this`guardCurrent
      ensures guardInstalled == HasUnsavingChanges() && guardCurrent
    {
      guardInstalled := HasUnsavingChanges();
      guardCurrent := true;
    }

    /** `setSaveStatus`: a state update, so a no-op once unmounted. */
    method SetSaveStatus(kind: StatusKind, message: string)
      modifies this`saveStatus, this`saveStatusMessage, this`guardInstalled, this`guardCurrent
      ensures mounted ==> saveStatus == Some(kind) && saveStatusMessage == Some(message)
      ensures mounted ==> guardInstalled == HasUnsavingChanges() && guardCurrent
      ensures !mounted ==> saveStatus == old(saveStatus) && saveStatusMessage == old(saveStatusMessage)
      ensures !mounted ==> guardInstalled == old(guardInstalled) && guardCurrent == old(guardCurrent)
    {
      if mounted {
        saveStatus, saveStatusMessage := Some(kind), Some(message);
        DidUpdate();
      }
    }

    /** Takes the deep copy a save or create sends and makes it the saving snapshot. */
    method TakeSavingSnapshot() returns (job: SaveJob)
      modifies this`lastSaving, this`lastSavingRef, this`nextRef
      ensures job == SaveJob(rawTransition, old(nextRef))
      ensures lastSaving == Some(rawTransition) && lastSavingRef == job.ref && nextRef == job.ref + 1
    {
      job := SaveJob(rawTransition, nextRef);
      lastSaving, lastSavingRef := Some(job.snapshot), job.ref;
      nextRef := nextRef + 1;
    }

    /** The start of `saveTransition`: snapshot, then status "Saving...". */
    method BeginSave() returns (job: SaveJob)
      requires Valid()
      modifies this`lastSaving, this`lastSavingRef, this`nextRef, this`saveStatus, this`saveStatusMessage, this`guardInstalled, this`guardCurrent
      ensures Valid()
      ensures job.snapshot == rawTransition && job.ref == old(nextRef) && nextRef == job.ref + 1
      ensures lastSaving == Some(job.snapshot) && lastSavingRef == job.ref
      ensures !HasUnsavingChanges()
      ensures mounted ==> saveStatus == Some(Info) && saveStatusMessage == Some(SavingMessage)
      ensures mounted ==> guardCurrent && !guardInstalled
      ensures !mounted ==> saveStatus == old(saveStatus) && saveStatusMessage == old(saveStatusMessage)
    {
      job := TakeSavingSnapshot();
      SetSaveStatus(Info, SavingMessage);
    }

    /**
     * The rest of `saveTransition` once the transport answered: on success the
     * snapshot becomes the saved one; on failure the saving snapshot is
     * cleared, the status reports it and the failure is passed on.
     */
    method CompleteSave(job: SaveJob, ok: bool) returns (failed: bool)
      requires Valid()
      modifies this`lastSaving, this`lastSaved, this`saveStatus, this`saveStatusMessage, this`guardInstalled, this`guardCurrent
      ensures Valid()
      ensures failed == !ok
      ensures ok ==> lastSaved == Some(job.snapshot) && lastSaving == old(lastSaving)
      ensures !ok ==> lastSaving == None && lastSaved == old(lastSaved)
      ensures mounted ==> saveStatus == Some(if ok then Success else Error)
      ensures mounted ==> saveStatusMessage == Some(if ok then SavedMessage else SaveFailedMessage)
      ensures mounted ==> guardInstalled == HasUnsavingChanges()
      ensures !mounted ==> saveStatus == old(saveStatus) && saveStatusMessage == old(saveStatusMessage)
    {
      if ok {
        lastSaved := Some(job.snapshot);
        SetSaveStatus(Success, SavedMessage);
      } else {
        lastSaving := None;
        SetSaveStatus(Error, SaveFailedMessage);
      }
      failed := !ok;
    }

    /** The start of `createNewTransition`: snapshot, then status "Creating...". */
    method BeginCreate() returns (job: SaveJob)
      requires Valid()
      modifies this`lastSaving, this`lastSavingRef, this`nextRef, this`saveStatus, this`saveStatusMessage, this`guardInstalled, this`guardCurrent
      ensures Valid()
      ensures job.snapshot == rawTransition && job.ref == old(nextRef) && nextRef == job.ref + 1
      ensures lastSaving == Some(job.snapshot) && lastSavingRef == job.ref
      ensures !HasUnsavingChanges()
      ensures mounted ==> saveStatus == Some(Info) && saveStatusMessage == Some(CreatingMessage)
      ensures mounted ==> guardCurrent && !guardInstalled
      ensures !mounted ==> saveStatus == old(saveStatus) && saveStatusMessage == old(saveStatusMessage)
    {
      job := TakeSavingSnapshot();
      SetSaveStatus(Info, CreatingMessage);
    }

    /**
     * The completion of `setStateWithUniforms`: the captured transition
     * becomes the raw one and, with the resolved uniforms, the previewed one.
     * There is no check that the capture is still current.
     */
    method CommitWithUniforms(p: PendingState, resolved: map<string, UniformValue>)
      requires Lifecycle()
      modifies this`rawTransition, this`transition, this`uniformTypes, this`guardInstalled, this`guardCurrent
      ensures Valid()
      ensures mounted ==> rawTransition == p.transition && transition == p.transition.(uniforms := resolved)
      ensures mounted ==> uniformTypes == p.uniformTypes.GetOr(old(uniformTypes))
      ensures mounted ==> guardCurrent && guardInstalled == HasUnsavingChanges()
      ensures !mounted ==> rawTransition == old(rawTransition) && transition == old(transition)
      ensures !mounted ==> uniformTypes == old(uniformTypes)
    {
      if mounted {
        rawTransition := p.transition;
        transition := p.transition.(uniforms := resolved);
        if p.uniformTypes.Some? {
          uniformTypes := p.uniformTypes.value;
        }
        DidUpdate();
      }
    }

    /**
     * `createNewTransition` once the server has created the transition: the
     * copy takes the new id in place. When the saving snapshot is still that
     * copy it now carries the new id while the raw transition keeps the old
     * one until the commit. This is a plain field write, not a state update,
     * so the guard is not refreshed.
     */
    method CreateReturned(job: SaveJob, id: string) returns (created: SaveJob)
      requires Valid()
      modifies this`lastSaving, this`guardCurrent
      ensures Valid()
      ensures created == SaveJob(job.snapshot.(id := id), job.ref)
      ensures lastSaving == if old(lastSaving).Some? && lastSavingRef == job.ref
                            then Some(created.snapshot) else old(lastSaving)
      ensures old(lastSaving).Some? && lastSavingRef == job.ref && rawTransition != created.snapshot
              ==> HasUnsavingChanges()
    {
      created := SaveJob(job.snapshot.(id := id), job.ref);
      if lastSaving.Some? && lastSavingRef == job.ref {
        lastSaving := Some(created.snapshot);
        guardCurrent := false;
      }
    }

    /**
     * The rest of `createNewTransition` once the copy is saved under its new
     * id and its uniforms are resolved: it is committed as the raw
     * transition, the status becomes "Created." and the route of the new id
     * is returned.
     */
    method CompleteCreate(created: SaveJob, resolved: map<string, UniformValue>) returns (route: string)
      requires Valid()
      modifies this`rawTransition, this`transition, this`uniformTypes
      modifies this`saveStatus, this`saveStatusMessage, this`guardInstalled, this`guardCurrent
      ensures Valid()
      ensures route == TransitionRoute(created.snapshot.id)
      ensures mounted ==>
        && rawTransition == created.snapshot
        && transition == created.snapshot.(uniforms := resolved)
        && saveStatus == Some(Success) && saveStatusMessage == Some(CreatedMessage)
      ensures mounted ==> guardCurrent && guardInstalled == HasUnsavingChanges()
      ensures mounted && lastSaving == Some(created.snapshot) ==> !HasUnsavingChanges() && !guardInstalled
      ensures uniformTypes == old(uniformTypes)
      ensures !mounted ==> rawTransition == old(rawTransition) && transition == old(transition)
      ensures !mounted ==> saveStatus == old(saveStatus) && saveStatusMessage == old(saveStatusMessage)
    {
      CommitWithUniforms(PendingState(created.snapshot, None), resolved);
      SetSaveStatus(Success, CreatedMessage);
      route := TransitionRoute(created.snapshot.id);
    }

    /**
     * The failure handler of `createNewTransition`, whichever step failed:
     * the saving snapshot is cleared and the status reports the failure.
     */
    method FailCreate()
      requires Valid()
      modifies this`lastSaving, this`saveStatus, this`saveStatusMessage, this`guardInstalled, this`guardCurrent
      ensures Valid()
      ensures lastSaving == None
      ensures mounted ==> saveStatus == Some(Error) && saveStatusMessage == Some(CreateFailedMessage)
      ensures mounted ==> HasUnsavingChanges() && guardInstalled
      ensures !mounted ==> saveStatus == old(saveStatus) && saveStatusMessage == old(saveStatusMessage)
    {
      lastSaving := None;
      SetSaveStatus(Error, CreateFailedMessage);
    }

    /**
     * Any other state update (the fps counter, the tab, the cursor token, a
     * resize): `componentDidUpdate` runs and refreshes the guard.
     */
    method Rerender()
      requires Valid()
      modifies this`guardInstalled, this`guardCurrent
      ensures Valid()
      ensures mounted ==> guardInstalled == HasUnsavingChanges() && guardCurrent
      ensures !mounted ==> guardInstalled == old(guardInstalled) && guardCurrent == old(guardCurrent)
    {
      if mounted {
        DidUpdate();
      }
    }

    /**
     * `onSave`: nothing when there are no unsaving changes; otherwise create
     * when the previewed transition's id is the root id, plain save in every
     * other case. There is no check for a save already in flight.
     */
    method OnSave() returns (path: SavePath)
      requires Valid()
      modifies this`lastSaving, this`lastSavingRef, this`nextRef, this`saveStatus, this`saveStatusMessage, this`guardInstalled, this`guardCurrent
      ensures Valid()
      ensures path.NothingToSave? <==> !old(HasUnsavingChanges())
      ensures path.CreateThenSave? <==> old(HasUnsavingChanges()) && rootGist == transition.id
      ensures path.PlainSave? <==> old(HasUnsavingChanges()) && rootGist != transition.id
      ensures path.CreateThenSave? <==> old(HasUnsavingChanges()) && rootGist == rawTransition.id
      ensures path.NothingToSave? ==> unchanged(this)
      ensures !path.NothingToSave? ==>
        && path.job.snapshot == rawTransition && path.job.ref == old(nextRef)
        && lastSaving == Some(rawTransition) && lastSavingRef == path.job.ref
      ensures !path.NothingToSave? ==> nextRef == old(nextRef) + 1
      ensures !path.NothingToSave? && mounted ==> saveStatus == Some(Info)
      ensures !path.NothingToSave? && mounted ==> guardCurrent && !guardInstalled
      ensures path.PlainSave? && mounted ==> saveStatusMessage == Some(SavingMessage)
      ensures path.CreateThenSave? && mounted ==> saveStatusMessage == Some(CreatingMessage)
      ensures !mounted ==> saveStatus == old(saveStatus) && saveStatusMessage == old(saveStatusMessage)
    {
      if HasUnsavingChanges() {
        if rootGist == transition.id {
          var job := BeginCreate();
          path := CreateThenSave(job);
        } else {
          var job := BeginSave();
          path := PlainSave(job);
        }
      } else {
        path := NothingToSave;
      }
    }

    /**
     * `onPublish` up to the rename: `prompted` is what the prompt returned
     * (None when cancelled). An accepted name starts a commit of the raw
     * transition renamed, after which the chain saves and reloads; nothing
     * changes before that.
     */
    method OnPublish(prompted: Option<string>) returns (outcome: PublishOutcome)
      ensures outcome.PromptCancelled? <==> prompted.None?
      ensures outcome.Renaming? <==> prompted.Some? && MatchesPublishName(prompted.value)
      ensures outcome.Renaming? ==>
        outcome.pending == PendingState(rawTransition.(name := prompted.value), None)
      ensures outcome.Alerted? ==> outcome.message == BadNameMessage
    {
      match prompted
      case None =>
        outcome := PromptCancelled;
      case Some(name) =>
        if MatchesPublishName(name) {
          outcome := Renaming(PendingState(rawTransition.(name := name), None));
        } else {
          outcome := Alerted(BadNameMessage);
        }
    }

    /** `onUniformsChange`: the raw transition with only its uniforms replaced, to be committed. */
    method OnUniformsChange(uniforms: map<string, UniformValue>) returns (p: PendingState)
      ensures p.uniformTypes == None
      ensures p.transition.uniforms == uniforms
      ensures p.transition.(uniforms := rawTransition.uniforms) == rawTransition
    {
      p := PendingState(rawTransition.(uniforms := uniforms), None);
    }

    /**
     * `onGlslChangeFailure`: the attempted source, on the previewed transition,
     * is only handed to the debounced validation.
     */
    method OnGlslChangeFailure(glsl: string)
      requires Valid()
      modifies this`pendingValidation
      ensures Valid()
      ensures pendingValidation == Some(transition.(glsl := glsl))
    {
      pendingValidation := Some(transition.(glsl := glsl));
    }

    /**
     * `onGlslChangeSuccess`: the new source with declared values for the
     * filtered uniform types goes to the debounced validation and is returned
     * to be committed together with those types.
     */
    method OnGlslChangeSuccess(glsl: string, allUniformTypes: map<string, string>) returns (p: PendingState)
      requires Valid()
      modifies this`pendingValidation
      ensures Valid()
      ensures p.uniformTypes == Some(KeepCustomUniforms(allUniformTypes))
      ensures p.transition == rawTransition.(glsl := glsl,
                uniforms := uniformValuesFor(KeepCustomUniforms(allUniformTypes), rawTransition.uniforms))
      ensures pendingValidation == Some(p.transition)
    {
      var types := KeepCustomUniforms(allUniformTypes);
      var t := transition.(glsl := glsl, uniforms := uniformValuesFor(types, rawTransition.uniforms));
      pendingValidation := Some(t);
      p := PendingState(t, Some(types));
    }

    /**
     * The debounce timer fires: `_checkDetailedValidation` on the last
     * argument given. Nothing happens once unmounted; the errors are set
     * (and the screen re-rendered) only when they differ by value.
     */
    method FireValidation() returns (rerendered: bool)
      requires Valid()
      modifies this`pendingValidation, this`validationErrors, this`guardInstalled, this`guardCurrent
      ensures Valid()
      ensures pendingValidation == None
      ensures rerendered ==> guardCurrent && guardInstalled == HasUnsavingChanges()
      ensures !rerendered ==> guardInstalled == old(guardInstalled) && guardCurrent == old(guardCurrent)
      ensures rerendered <==> mounted && old(pendingValidation).Some?
                              && validate(old(pendingValidation).value) != old(validationErrors)
      ensures validationErrors == if mounted && old(pendingValidation).Some?
                                  then validate(old(pendingValidation).value) else old(validationErrors)
    {
      rerendered := false;
      if pendingValidation.Some? {
        var checked := pendingValidation.value;
        pendingValidation := None;
        if mounted {
          var update := ValidationUpdate(mounted, validationErrors, validate(checked));
          if update.Some? {
            validationErrors := update.value;
            rerendered := true;
            DidUpdate();
          }
        }
      }
    }

    /** `onDurationChange`: stored and set as given, without validation. */
    method OnDurationChange(duration: JsValue)
      requires Valid()
      modifies this`store, this`config, this`guardInstalled, this`guardCurrent
      ensures Valid()
      ensures store == old(store)[DurationKey := duration]
      ensures mounted ==> guardCurrent && guardInstalled == HasUnsavingChanges()
      ensures config == if mounted then old(config).(transitionDuration := duration) else old(config)
    {
      store := store[DurationKey := duration];
      if mounted {
        config := config.(transitionDuration := duration);
        DidUpdate();
      }
    }

    /** `onDelayChange`: stored and set as given, without validation. */
    method OnDelayChange(delay: JsValue)
      requires Valid()
      modifies this`store, this`config, this`guardInstalled, this`guardCurrent
      ensures Valid()
      ensures store == old(store)[DelayKey := delay]
      ensures mounted ==> guardCurrent && guardInstalled == HasUnsavingChanges()
      ensures config == if mounted then old(config).(transitionDelay := delay) else old(config)
    {
      store := store[DelayKey := delay];
      if mounted {
        config := config.(transitionDelay := delay);
        DidUpdate();
      }
    }

    /** `onBezierEasingChange`: stored and set as given, without validation. */
    method OnBezierEasingChange(easing: JsValue)
      requires Valid()
      modifies this`store, this`config, this`guardInstalled, this`guardCurrent
      ensures Valid()
      ensures store == old(store)[EasingKey := easing]
      ensures mounted ==> guardCurrent && guardInstalled == HasUnsavingChanges()
      ensures config == if mounted then old(config).(bezierEasing := easing) else old(config)
    {
      store := store[EasingKey := easing];
      if mounted {
        config := config.(bezierEasing := easing);
        DidUpdate();
      }
    }

    /** `onResetConfig`: the three keys are removed and the configuration reloaded, giving the defaults. */
    method OnResetConfig()
      requires Valid()
      modifies this`store, this`config, this`guardInstalled, this`guardCurrent
      ensures Valid()
      ensures store == ClearConfig(old(store))
      ensures mounted ==> guardCurrent && guardInstalled == HasUnsavingChanges()
      ensures mounted ==> config == DefaultConfig()
      ensures !mounted ==> config == old(config)
    {
      store := ClearConfig(store);
      if mounted {
        ClearedStoreLoadsDefaults(old(store), easingAccepts);
        config := LoadConfig(store, easingAccepts);
        DidUpdate();
      }
    }

    /** `componentWillUnmount`: snapshots dropped, guard removed, validator released. */
    method Unmount()
      requires Valid()
      modifies this`lastSaving, this`lastSaved, this`guardInstalled, this`guardCurrent, this`validatorLive, this`mounted
      ensures Valid()
      ensures lastSaving == None && lastSaved == None
      ensures !mounted && !guardInstalled && !validatorLive
    {
      lastSaving, lastSaved := None, None;
      guardInstalled := false;
      validatorLive := false;
      mounted := false;
    }

    /**
     * A plain save that completes before anything else happens leaves neither
     * unsaving nor unsaved changes, and removes the leave-page guard.
     */
    method SaveUninterrupted()
      requires Valid() && mounted && HasUnsavingChanges() && rootGist != transition.id
      modifies this`lastSaving, this`lastSavingRef, this`nextRef, this`lastSaved
      modifies this`saveStatus, this`saveStatusMessage, this`guardInstalled, this`guardCurrent
      ensures Valid()
      ensures rawTransition == old(rawTransition)
      ensures !HasUnsavingChanges() && !HasUnsavedChanges() && !guardInstalled
      ensures saveStatus == Some(Success) && saveStatusMessage == Some(SavedMessage)
    {
      var path := OnSave();
      var failed := CompleteSave(path.job, true);
    }

    /**
     * A create that completes before anything else happens commits the
     * transition under its new id with nothing left to save, yet the saved
     * snapshot is not updated, so unsaved changes remain.
     */
    method CreateUninterrupted(id: string, resolved: map<string, UniformValue>) returns (route: Option<string>)
      requires Valid() && mounted && HasUnsavingChanges() && rootGist == transition.id
      requires lastSaved != Some(rawTransition.(id := id))
      modifies this`lastSaving, this`lastSavingRef, this`nextRef, this`rawTransition, this`transition
      modifies this`uniformTypes, this`saveStatus, this`saveStatusMessage, this`guardInstalled, this`guardCurrent
      ensures Valid()
      ensures rawTransition == old(rawTransition).(id := id)
      ensures route == Some(TransitionRoute(id))
      ensures !HasUnsavingChanges() && !guardInstalled
      ensures HasUnsavedChanges()
      ensures saveStatus == Some(Success) && saveStatusMessage == Some(CreatedMessage)
    {
      var path := OnSave();
      var created := CreateReturned(path.job, id);
      var to := CompleteCreate(created, resolved);
      route := Some(to);
    }

    /**
     * A second save while a create waits for its save under the new id: the
     * saving snapshot already has the new id while the raw and previewed
     * transitions keep the root id, so there are unsaving changes and a
     * second create starts.
     */
    method SaveAgainWhileCreating(id: string) returns (first: SavePath, second: SavePath)
      requires Valid() && mounted && HasUnsavingChanges() && rootGist == transition.id
      requires id != rawTransition.id
      modifies this`lastSaving, this`lastSavingRef, this`nextRef
      modifies this`saveStatus, this`saveStatusMessage, this`guardInstalled, this`guardCurrent
      ensures Valid()
      ensures first.CreateThenSave? && second.CreateThenSave?
      ensures second.job.snapshot == first.job.snapshot && second.job.ref == first.job.ref + 1
    {
      first := OnSave();
      var created := CreateReturned(first.job, id);
      second := OnSave();
    }

    /**
     * Two uniform edits whose resolutions complete in the opposite order: the
     * earlier edit's late commit overwrites the later edit.
     */
    method LateResolutionWins(first: map<string, UniformValue>, second: map<string, UniformValue>,
                              firstResolved: map<string, UniformValue>, secondResolved: map<string, UniformValue>)
      requires Valid() && mounted
      modifies this`rawTransition, this`transition, this`uniformTypes, this`guardInstalled, this`guardCurrent
      ensures Valid()
      ensures rawTransition == old(rawTransition).(uniforms := first)
      ensures transition.uniforms == firstResolved
    {
      var p1 := OnUniformsChange(first);
      var p2 := OnUniformsChange(second);
      CommitWithUniforms(p2, secondResolved);
      CommitWithUniforms(p1, firstResolved);
    }
  }
}
