/**
 * The policy state machine of the two browser scripts. The document is
 * abstracted to the number of password containers in it, the value of the
 * password input and the status message; polls, mutation callbacks, timers,
 * page re-renders, typing and intercepted requests are discrete steps.
 */
module UploadPlugin {
  import opened Wrappers
  import opened Json
  import opened UploadClient

  /**
   * The state a script keeps: `isGuestUploadEnabled`, the guard flag
   * (`hasAddedPasswordField` / `hasAddedField`), the password containers in
   * the document, the input's value, the message shown, and the
   * mutation-observer timers scheduled but not yet run.
   */
  datatype PluginState = PluginState(
    guestUploadEnabled: bool,
    fieldAdded: bool,
    fields: nat,
    input: string,
    message: Option<Message>,
    pendingAdds: nat)

  /** The state right after the script has loaded. */
  const Initial := PluginState(true, false, 0, "", None, 0)

  /**
   * The invariant of every reachable state, page re-renders included: at most
   * one container, none while the flag is clear or guest upload is on; the
   * flag is set whenever guest upload is off; no observer timer is pending;
   * a message or a typed value lives only in a present container. In the
   * add-on the flag is moreover clear whenever guest upload is on.
   */
  ghost predicate Consistent(v: Variant, s: PluginState)
  {
    && s.fields <= 1
    && (!s.fieldAdded ==> s.fields == 0)
    && (!s.guestUploadEnabled ==> s.fieldAdded)
    && (s.guestUploadEnabled ==> s.fields == 0)
    && (v == Addon && s.guestUploadEnabled ==> !s.fieldAdded)
    && s.pendingAdds == 0
    && (s.message.Some? ==> s.fields > 0)
    && (s.fields == 0 ==> s.input == "")
  }

  /**
   * A settled state: the container is where the flag says, exactly one while
   * guest upload is off and none while it is on.
   */
  ghost predicate Settled(s: PluginState)
  {
    && s.fields == (if s.fieldAdded then 1 else 0)
    && s.fieldAdded == !s.guestUploadEnabled
    && s.pendingAdds == 0
    && (s.message.Some? ==> s.fields > 0)
    && (s.fields == 0 ==> s.input == "")
  }

  /** The password input's value, or None when the document has no password input. */
  function PasswordInput(s: PluginState): Option<string>
  {
    if s.fields > 0 then Some(s.input) else None
  }

  /**
   * `addPasswordFieldToUploadForm` / `addPasswordField`: a no-op once the
   * flag is set; otherwise one more container, with an empty input, and the
   * flag set, wherever it was inserted.
   */
  function AddStep(s: PluginState): (r: PluginState)
    ensures s.fieldAdded ==> r == s
    ensures r.fieldAdded
    ensures !s.fieldAdded ==> r.fields == s.fields + 1 && r.input == ""
    ensures r.guestUploadEnabled == s.guestUploadEnabled && r.message == s.message && r.pendingAdds == s.pendingAdds
  {
    if s.fieldAdded then s else s.(fieldAdded := true, fields := s.fields + 1, input := "")
  }

  /** Adding twice is adding once. */
  lemma AddIdempotent(s: PluginState)
    ensures AddStep(AddStep(s)) == AddStep(s)
  {
  }

  /**
   * `removePasswordField`: removes a present container (and the message and
   * input in it). The add-on always clears the flag; the console plugin clears
   * it only when a container was there.
   */
  function RemoveStep(v: Variant, s: PluginState): (r: PluginState)
    ensures r.fields == if s.fields > 0 then s.fields - 1 else 0
    ensures v == Addon ==> !r.fieldAdded
    ensures v == ConsolePlugin ==> r.fieldAdded == (s.fieldAdded && s.fields == 0)
    ensures s.fields == 0 ==> r.message == s.message && r.input == s.input
    ensures s.fields > 0 ==> r.message == None && r.input == ""
    ensures r.guestUploadEnabled == s.guestUploadEnabled && r.pendingAdds == s.pendingAdds
  {
    var s1 := if s.fields > 0 then s.(fields := s.fields - 1, message := None, input := "") else s;
    match v
    case Addon => s1.(fieldAdded := false)
    case ConsolePlugin => if s.fields > 0 then s1.(fieldAdded := false) else s1
  }

  /** Whether a fetched configuration says guest upload is on: `config.openUpload === 1`. */
  predicate GuestUploadOn(config: Json)
  {
    Property(config, "openUpload") == Some(Int(1))
  }

  /**
   * `checkAndUpdateUI` / `checkStatus` with the configuration the poll
   * fetched (None for `null` or `undefined`): nothing happens for a falsy
   * configuration or when the guest-upload state is unchanged; on a change
   * the state is stored, and turning it off adds the field while turning it
   * on removes it.
   */
  function PollStep(v: Variant, s: PluginState, config: Option<Json>): (r: PluginState)
    ensures !JsTruthy(config) ==> r == s
    ensures JsTruthy(config) && GuestUploadOn(config.value) == s.guestUploadEnabled ==> r == s
    ensures JsTruthy(config) && GuestUploadOn(config.value) != s.guestUploadEnabled ==>
      && r.guestUploadEnabled == GuestUploadOn(config.value)
      && r == (if r.guestUploadEnabled then RemoveStep(v, s.(guestUploadEnabled := true))
               else AddStep(s.(guestUploadEnabled := false)))
  {
    if !JsTruthy(config) then s
    else
      var newState := GuestUploadOn(config.value);
      if newState == s.guestUploadEnabled then s
      else
        var s1 := s.(guestUploadEnabled := newState);
        if !newState then AddStep(s1) else RemoveStep(v, s1)
  }

  /** A run of polls, one per fetched configuration, in order. */
  function PollAll(v: Variant, s: PluginState, configs: seq<Option<Json>>): PluginState
    decreases |configs|
  {
    if |configs| == 0 then s else PollAll(v, PollStep(v, s, configs[0]), configs[1..])
  }

  /**
   * The mutation observer's callback: it schedules a delayed add when the
   * field is not added and guest upload is off.
   */
  function ObserveStep(s: PluginState): (r: PluginState)
    ensures r.pendingAdds == if !s.fieldAdded && !s.guestUploadEnabled then s.pendingAdds + 1 else s.pendingAdds
    ensures r.(pendingAdds := s.pendingAdds) == s
  {
    if !s.fieldAdded && !s.guestUploadEnabled then s.(pendingAdds := s.pendingAdds + 1) else s
  }

  /** One scheduled timer runs the add. */
  function TimerStep(s: PluginState): (r: PluginState)
    requires s.pendingAdds > 0
    ensures r.pendingAdds == s.pendingAdds - 1 && r.fieldAdded
    ensures r.fields == if s.fieldAdded then s.fields else s.fields + 1
    ensures !s.fieldAdded ==> r.input == ""
    ensures s.fieldAdded ==> r.input == s.input
    ensures r.guestUploadEnabled == s.guestUploadEnabled && r.message == s.message
  {
    AddStep(s.(pendingAdds := s.pendingAdds - 1))
  }

  /**
   * The page replaces its view, as a single-page application does when it
   * re-renders: every password container goes, with its input and message,
   * while the scripts' own variables stay as they were.
   */
  function RenderStep(s: PluginState): (r: PluginState)
    ensures r.fields == 0 && PasswordInput(r) == None && r.message == None && r.input == ""
    ensures r.fieldAdded == s.fieldAdded && r.guestUploadEnabled == s.guestUploadEnabled && r.pendingAdds == s.pendingAdds
  {
    s.(fields := 0, input := "", message := None)
  }

  /** The user types into the password input; without an input there is nothing to type into. */
  function TypeStep(s: PluginState, value: string): (r: PluginState)
    ensures PasswordInput(r) == if s.fields > 0 then Some(value) else None
    ensures r.(input := s.input) == s
  {
    if s.fields > 0 then s.(input := value) else s
  }

  /** `showMessage`: the old message goes; the new one appears only inside a present container. */
  function ShowStep(s: PluginState, m: Message): (r: PluginState)
    ensures r.message == if s.fields > 0 then Some(m) else None
    ensures r.(message := s.message) == s
  {
    s.(message := if s.fields > 0 then Some(m) else None)
  }

  /** The end of an intercepted fetch: an upload reply shows its message while guest upload is off. */
  function ReplyStep(s: PluginState, isUpload: bool, reply: Reply): (r: PluginState)
    ensures !(isUpload && !s.guestUploadEnabled) || Feedback(reply).None? ==> r == s
    ensures isUpload && !s.guestUploadEnabled && Feedback(reply).Some? ==> r == ShowStep(s, Feedback(reply).value)
  {
    if isUpload && !s.guestUploadEnabled then
      match Feedback(reply)
      case Some(m) => ShowStep(s, m)
      case None => s
    else s
  }

  lemma InitialIsConsistent(v: Variant)
    ensures Consistent(v, Initial) && Settled(Initial)
  {
  }

  /** A poll keeps the invariant, whatever configuration it fetched. */
  lemma PollPreservesConsistency(v: Variant, s: PluginState, config: Option<Json>)
    requires Consistent(v, s)
    ensures Consistent(v, PollStep(v, s, config))
  {
  }

  /** A re-render keeps the invariant, but not a settled state. */
  lemma RenderPreservesConsistency(v: Variant, s: PluginState)
    requires Consistent(v, s)
    ensures Consistent(v, RenderStep(s))
    ensures !s.guestUploadEnabled ==> !Settled(RenderStep(s))
  {
  }

  /**
   * In every reachable state the observer schedules nothing: the flag is
   * already set whenever guest upload is off.
   */
  lemma ObserverSchedulesNothing(v: Variant, s: PluginState)
    requires Consistent(v, s)
    ensures ObserveStep(s) == s
  {
  }

  lemma TypingPreservesConsistency(v: Variant, s: PluginState, value: string)
    requires Consistent(v, s)
    ensures Consistent(v, TypeStep(s, value))
    ensures Settled(s) ==> Settled(TypeStep(s, value))
  {
  }

  lemma ReplyPreservesConsistency(v: Variant, s: PluginState, isUpload: bool, reply: Reply)
    requires Consistent(v, s)
    ensures Consistent(v, ReplyStep(s, isUpload, reply))
    ensures Settled(s) ==> Settled(ReplyStep(s, isUpload, reply))
  {
  }

  /** Polls keep a settled state settled. */
  lemma PollKeepsSettled(v: Variant, s: PluginState, config: Option<Json>)
    requires Settled(s)
    ensures Settled(PollStep(v, s, config))
  {
  }

  /**
   * After a poll with a truthy configuration: `openUpload === 1` leaves guest
   * upload on with no container; anything else leaves it off with the flag
   * set, and with exactly one container when the state was settled or when
   * the add-on has just seen guest upload turn off. Polling the same
   * configuration again changes nothing.
   */
  lemma PollSettles(v: Variant, s: PluginState, config: Option<Json>)
    requires Consistent(v, s) && JsTruthy(config)
    ensures var r := PollStep(v, s, config);
      && (GuestUploadOn(config.value) ==> r.guestUploadEnabled && r.fields == 0)
      && (!GuestUploadOn(config.value) ==> !r.guestUploadEnabled && r.fieldAdded)
      && (!GuestUploadOn(config.value) && Settled(s) ==> r.fields == 1)
      && (!GuestUploadOn(config.value) && v == Addon && s.guestUploadEnabled ==> r.fields == 1)
      && PollStep(v, r, config) == r
  {
  }

  /** On settled states the two configurations' polls agree. */
  lemma VariantsAgreeOnSettledStates(s: PluginState, config: Option<Json>)
    requires Settled(s)
    ensures PollStep(Addon, s, config) == PollStep(ConsolePlugin, s, config)
  {
  }

  /**
   * A poll whose configuration request failed changes nothing, and a poll
   * turns guest upload on only on a 2xx reply whose `detail.openUpload` is 1.
   */
  lemma PollOnConfigReply(v: Variant, s: PluginState, reply: ConfigReply)
    ensures !HasConfigBody(reply) ==> PollStep(v, s, SystemConfig(reply)) == s
    ensures !s.guestUploadEnabled && PollStep(v, s, SystemConfig(reply)).guestUploadEnabled ==>
      && HasConfigBody(reply) && reply.body.value.Obj? && "detail" in reply.body.value.fields
      && GuestUploadOn(reply.body.value.fields["detail"])
  {
  }

  /**
   * With the flag set and no container, a state a re-render reaches, removing
   * clears only the add-on's flag.
   */
  lemma RemoveDiffersWithoutField(s: PluginState)
    requires s.fieldAdded && s.fields == 0
    ensures !RemoveStep(Addon, s).fieldAdded && RemoveStep(ConsolePlugin, s).fieldAdded
  {
  }

  /**
   * As written, a re-render while guest upload is off loses the container:
   * the observer tests the flag, not the document, so it schedules nothing;
   * a poll that keeps guest upload off changes nothing; and with no input the
   * credential is "", so no upload gets it.
   */
  lemma RenderLosesField(v: Variant, s: PluginState, config: Option<Json>, url: string)
    requires Settled(s) && !s.guestUploadEnabled
    ensures var d := RenderStep(s);
      && Consistent(v, d) && d.fields == 0
      && ObserveStep(d) == d
      && (!JsTruthy(config) || !GuestUploadOn(config.value) ==> PollStep(v, d, config) == d)
      && Credential(v, PasswordInput(d)) == ""
      && !Attaches(v, !d.guestUploadEnabled, Credential(v, PasswordInput(d)), url)
  {
  }

  /**
   * The console plugin never recovers a lost container: whatever
   * configurations later polls fetch, the flag stays set and no container
   * comes back, because its remove keeps the flag when nothing was present.
   */
  lemma {:induction false} ConsoleLossIsPermanent(s: PluginState, configs: seq<Option<Json>>)
    requires Consistent(ConsolePlugin, s) && s.fieldAdded && s.fields == 0
    ensures var r := PollAll(ConsolePlugin, s, configs);
      r.fieldAdded && r.fields == 0 && Consistent(ConsolePlugin, r)
    decreases |configs|
  {
    if |configs| > 0 {
      var s1 := PollStep(ConsolePlugin, s, configs[0]);
      PollPreservesConsistency(ConsolePlugin, s, configs[0]);
      ConsoleLossIsPermanent(s1, configs[1..]);
    }
  }

  /** The add-on recovers once guest upload is turned on and off again. */
  lemma AddonRecoversOnToggle(s: PluginState, on: Option<Json>, off: Option<Json>)
    requires Consistent(Addon, s)
    requires JsTruthy(on) && GuestUploadOn(on.value) && JsTruthy(off) && !GuestUploadOn(off.value)
    ensures Settled(PollAll(Addon, s, [on, off]))
  {
    var s1 := PollStep(Addon, s, on);
    var s2 := PollStep(Addon, s1, off);
    assert [on, off][1..] == [off];
    assert [off][1..] == [];
    assert PollAll(Addon, s, [on, off]) == PollAll(Addon, s1, [off]) == PollAll(Addon, s2, []);
    assert s1.guestUploadEnabled && s1.fields == 0 && !s1.fieldAdded && s1.message == None;
  }

  /**
   * Corrected observer callback: it schedules a delayed add when guest
   * upload is off and the document has no container, whatever the flag says.
   */
  function RestoringObserveStep(s: PluginState): (r: PluginState)
    ensures r.pendingAdds == if !s.guestUploadEnabled && s.fields == 0 then s.pendingAdds + 1 else s.pendingAdds
    ensures r.(pendingAdds := s.pendingAdds) == s
  {
    if !s.guestUploadEnabled && s.fields == 0 then s.(pendingAdds := s.pendingAdds + 1) else s
  }

  /**
   * Corrected add: it reads the guest-upload flag again when it runs, and is
   * a no-op while guest upload is on or a container is present; otherwise it
   * adds one container with an empty input.
   */
  function RestoringAddStep(s: PluginState): (r: PluginState)
    ensures s.guestUploadEnabled ==> r == s
    ensures !s.guestUploadEnabled ==> r.fieldAdded && r.fields == (if s.fields > 0 then s.fields else 1)
    ensures !s.guestUploadEnabled && s.fields == 0 ==> r.input == ""
    ensures s.fields > 0 ==> r.input == s.input
    ensures r.guestUploadEnabled == s.guestUploadEnabled && r.message == s.message && r.pendingAdds == s.pendingAdds
  {
    if s.guestUploadEnabled then s
    else if s.fields > 0 then s.(fieldAdded := true)
    else s.(fieldAdded := true, fields := 1, input := "")
  }

  /** Corrected timer: one scheduled timer runs the corrected add. */
  function RestoringTimerStep(s: PluginState): (r: PluginState)
    requires s.pendingAdds > 0
    ensures r.pendingAdds == s.pendingAdds - 1
    ensures !s.guestUploadEnabled ==> r.fieldAdded && r.fields >= 1
    ensures s.guestUploadEnabled ==> r == s.(pendingAdds := s.pendingAdds - 1)
  {
    RestoringAddStep(s.(pendingAdds := s.pendingAdds - 1))
  }

  /**
   * With the corrected observer, a restricted page settles again: when a
   * re-render left no container, the callback schedules one add and its timer
   * restores a settled state with an empty input; when the container is
   * present, the callback schedules nothing.
   */
  lemma RestoringObserverSettles(v: Variant, s: PluginState)
    requires Consistent(v, s) && !s.guestUploadEnabled
    ensures var o := RestoringObserveStep(s);
      if s.fields == 0 then
        o.pendingAdds == 1 && Settled(RestoringTimerStep(o)) && PasswordInput(RestoringTimerStep(o)) == Some("")
      else
        o == s && Settled(s)
  {
  }

  /** The corrected add is idempotent: once a container is present, a second add changes nothing. */
  lemma RestoringAddIdempotent(s: PluginState)
    ensures RestoringAddStep(RestoringAddStep(s)) == RestoringAddStep(s)
  {
  }

  /** The corrected observer's pending timers, run in turn until none is left. */
  function RestoringTimers(s: PluginState): (r: PluginState)
    ensures r.pendingAdds == 0
    decreases s.pendingAdds
  {
    if s.pendingAdds == 0 then s else RestoringTimers(RestoringTimerStep(s))
  }

  /**
   * The corrected observer fires on every mutation, so several timers can be
   * pending at once. However many there are, running them all has the effect
   * of a single corrected add, and a restricted page then settles.
   */
  lemma {:induction false} RestoringTimersSettle(v: Variant, s: PluginState)
    requires Consistent(v, s.(pendingAdds := 0)) && !s.guestUploadEnabled && s.pendingAdds > 0
    ensures RestoringTimers(s) == RestoringAddStep(s).(pendingAdds := 0)
    ensures Settled(RestoringTimers(s))
    decreases s.pendingAdds
  {
    var t := RestoringTimerStep(s);
    assert t == RestoringAddStep(s).(pendingAdds := s.pendingAdds - 1);
    if t.pendingAdds > 0 {
      RestoringTimersSettle(v, t);
      RestoringAddIdempotent(s);
    }
  }

  /**
   * A poll can turn guest upload on while corrected timers are pending. The
   * timers then leave the page as the poll left it: they add no container and
   * only count themselves down.
   */
  lemma {:induction false} RestoringTimersRespectGuestUpload(s: PluginState)
    requires s.guestUploadEnabled
    ensures RestoringTimers(s) == s.(pendingAdds := 0)
    decreases s.pendingAdds
  {
    if s.pendingAdds > 0 {
      RestoringTimersRespectGuestUpload(RestoringTimerStep(s));
    }
  }

  /** On a settled state, and whenever guest upload is on, the corrected observer schedules nothing. */
  lemma RestoringObserverIsQuietWhenSettled(s: PluginState)
    requires Settled(s) || s.guestUploadEnabled
    ensures RestoringObserveStep(s) == s
  {
  }

  /** How an intercepted fetch proceeds: the original fetch is called, or the wrapper threw before calling it. */
  datatype Dispatch = Forwarded(isUpload: bool) | ThrewTypeError

  /** One loaded script. */
  class Plugin {
    const variant: Variant
    var guestUploadEnabled: bool
    var fieldAdded: bool
    var fields: nat
    var input: string
    var message: Option<Message>
    var pendingAdds: nat

    function State(): PluginState
      reads this
    {
      PluginState(guestUploadEnabled, fieldAdded, fields, input, message, pendingAdds)
    }

    ghost predicate Valid()
      reads this
    {
      Consistent(variant, State())
    }

    constructor (variant: Variant)
      ensures this.variant == variant && State() == Initial && Valid()
    {
      this.variant := variant;
      guestUploadEnabled, fieldAdded, fields, input, message, pendingAdds := true, false, 0, "", None, 0;
    }

    method AddPasswordField()
      modifies this
      ensures State() == AddStep(old(State()))
    {
      if fieldAdded {
        return;
      }
      fields := fields + 1;
      input := "";
      fieldAdded := true;
    }

    method RemovePasswordField()
      modifies this
      ensures State() == RemoveStep(variant, old(State()))
    {
      var present := fields > 0;
      if present {
        fields := fields - 1;
        message := None;
        input := "";
      }
      if variant == Addon || present {
        fieldAdded := false;
      }
    }

    /** One poll, with the configuration it fetched. */
    method Poll(config: Option<Json>)
      modifies this
      ensures State() == PollStep(variant, old(State()), config)
      ensures old(Valid()) ==> Valid()
      ensures Settled(old(State())) ==> Settled(State())
    {
      if JsTruthy(config) {
        var newState := GuestUploadOn(config.value);
        if newState != guestUploadEnabled {
          guestUploadEnabled := newState;
          if !guestUploadEnabled {
            AddPasswordField();
          } else {
            RemovePasswordField();
          }
        }
      }
    }

    /** The mutation observer's callback; in a valid state it changes nothing. */
    method ObserveMutation()
      modifies this
      ensures State() == ObserveStep(old(State()))
      ensures old(Valid()) ==> Valid()
    {
      if !fieldAdded && !guestUploadEnabled {
        pendingAdds := pendingAdds + 1;
      }
    }

    /** The page re-renders its view and the containers go with it. */
    method Rerender()
      modifies this
      ensures State() == RenderStep(old(State()))
      ensures old(Valid()) ==> Valid()
    {
      fields, input, message := 0, "", None;
    }

    method FireTimer()
      requires pendingAdds > 0
      modifies this
      ensures State() == TimerStep(old(State()))
    {
      pendingAdds := pendingAdds - 1;
      AddPasswordField();
    }

    method TypePassword(value: string)
      modifies this
      ensures State() == TypeStep(old(State()), value)
      ensures old(Valid()) ==> Valid()
      ensures Settled(old(State())) ==> Settled(State())
    {
      if fields > 0 {
        input := value;
      }
    }

    /** `getCurrentPassword` / `getPassword`. */
    method CurrentPassword() returns (password: string)
      ensures password == Credential(variant, PasswordInput(State()))
    {
      password := Credential(variant, PasswordInput(State()));
    }

    /**
     * The fetch wrapper up to the call of the original fetch. The add-on
     * throws on a non-string target (it calls `url.includes`); the console
     * plugin forwards one untouched. The options change exactly as `Attached`
     * says, and the body object stays the same.
     */
    method InterceptFetch(target: Target, options: FetchOptions) returns (d: Dispatch)
      modifies options, options.body.Footprint()
      ensures options.body == old(options.body)
      ensures variant == Addon && target.NonStringTarget? ==> d == ThrewTypeError && options.View() == old(options.View())
      ensures variant == ConsolePlugin && target.NonStringTarget? ==> d == Forwarded(false) && options.View() == old(options.View())
      ensures target.Url? ==>
        && d == Forwarded(IsUploadUrl(variant, target.url))
        && options.View() == Attached(variant, !guestUploadEnabled, Credential(variant, PasswordInput(State())), target.url, old(options.View()))
    {
      if target.NonStringTarget? {
        d := if variant == Addon then ThrewTypeError else Forwarded(false);
        return;
      }
      var url := target.url;
      var isUpload := IsUploadUrl(variant, url);
      d := Forwarded(isUpload);
      if isUpload && !guestUploadEnabled {
        var password := CurrentPassword();
        if password != "" {
          if variant == Addon && options.headers.None? {
            options.headers := Some(map[]);
          }
          if IsChunkUrl(url) {
            options.headers := Some(HeadersOrEmpty(options.headers)[PasswordHeader := password]);
          } else if options.body.FormBody? {
            options.body.data.Append(PasswordField, password);
          }
        }
      }
    }

    /**
     * The fetch wrapper after the original fetch settled, reading the flag
     * anew: the reply is passed back unchanged (a network error is rethrown),
     * and an upload reply shows its message while guest upload is off.
     */
    method CompleteFetch(isUpload: bool, reply: Reply) returns (result: Reply)
      modifies this
      ensures result == reply
      ensures State() == ReplyStep(old(State()), isUpload, reply)
      ensures old(Valid()) ==> Valid()
      ensures Settled(old(State())) ==> Settled(State())
    {
      result := reply;
      if isUpload && !guestUploadEnabled {
        var m := Feedback(reply);
        if m.Some? {
          message := if fields > 0 then Some(m.value) else None;
        }
      }
    }

    /**
     * The add-on's XMLHttpRequest `send` wrapper (the console plugin leaves
     * `send` alone). It throws on a non-string recorded URL, and when
     * `setRequestHeader` refuses the credential; otherwise the request
     * changes exactly as `XhrAttached` says. A throw leaves the request as it was.
     */
    method InterceptXhrSend(xhr: XhrRequest, data: Body) returns (threw: bool)
      modifies xhr, data.Footprint()
      ensures xhr.url == old(xhr.url)
      ensures variant == Addon && xhr.url == Some(NonStringTarget) ==> threw
      ensures variant == Addon && xhr.url.Some? && xhr.url.value.Url? ==>
        var view := XhrAttached(!guestUploadEnabled, Credential(Addon, PasswordInput(State())), xhr.url.value.url,
                                old(xhr.headers), if data.FormBody? then Some(old(data.data.entries)) else None);
        && (threw <==> view.None?)
        && (view.Some? ==> Some(xhr.headers) == view.value.headers && (data.FormBody? ==> Some(data.data.entries) == view.value.form))
      ensures !(variant == Addon && xhr.url.Some?) ==> !threw
      ensures threw || !(variant == Addon && xhr.url.Some? && xhr.url.value.Url?) ==>
        xhr.headers == old(xhr.headers) && (data.FormBody? ==> data.data.entries == old(data.data.entries))
    {
      threw := false;
      if variant == ConsolePlugin || xhr.url.None? {
        return;
      }
      if xhr.url.value.NonStringTarget? {
        threw := true;
        return;
      }
      var url := xhr.url.value.url;
      if IsUploadUrl(Addon, url) && !guestUploadEnabled {
        var password := CurrentPassword();
        if password != "" {
          if IsChunkUrl(url) {
            threw := xhr.SetRequestHeader(PasswordHeader, password);
          } else if data.FormBody? {
            data.data.Append(PasswordField, password);
          }
        }
      }
    }
  }

  /** The page's global object as the scripts see it. */
  class Window {
    var consoleMarker: bool   // window.FileCodeBoxPasswordAddon
    var fetchWrappers: nat    // wrappers installed around window.fetch
    var xhrWrappers: nat      // wrappers installed around XMLHttpRequest.prototype.send

    constructor ()
      ensures !consoleMarker && fetchWrappers == 0 && xhrWrappers == 0
    {
      consoleMarker, fetchWrappers, xhrWrappers := false, 0, 0;
    }
  }

  /**
   * Running a script in the page. The console plugin does nothing when its
   * marker is already set, and sets it otherwise; the add-on has no such
   * guard. A script that runs installs its wrappers and starts from `Initial`
   * (its first poll is the next step).
   */
  method Load(w: Window, v: Variant) returns (p: Plugin?)
    modifies w
    ensures v == ConsolePlugin && old(w.consoleMarker) ==>
      p == null && w.consoleMarker && w.fetchWrappers == old(w.fetchWrappers) && w.xhrWrappers == old(w.xhrWrappers)
    ensures !(v == ConsolePlugin && old(w.consoleMarker)) ==>
      && p != null && fresh(p) && p.variant == v && p.State() == Initial && p.Valid()
      && w.consoleMarker == (old(w.consoleMarker) || v == ConsolePlugin)
      && w.fetchWrappers == old(w.fetchWrappers) + 1
      && w.xhrWrappers == old(w.xhrWrappers) + (if v == Addon then 1 else 0)
  {
    if v == ConsolePlugin {
      if w.consoleMarker {
        return null;
      }
      w.consoleMarker := true;
    }
    p := new Plugin(v);
    w.fetchWrappers := w.fetchWrappers + 1;
    if v == Addon {
      w.xhrWrappers := w.xhrWrappers + 1;
    }
  }
}
