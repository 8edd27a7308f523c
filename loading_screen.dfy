/**
 * The widget's bootstrap sequencer: the loading screen's three effects drive
 * the step `organization -> session -> done`, keep a `sessionValid` flag and
 * an append-only list of loading messages, and send triggers to the router
 * store. Each effect body and each validator continuation is one atomic step;
 * the validator's outcome is an input.
 */
module LoadingScreen {
  import opened Wrappers
  import opened WidgetAtoms

  datatype InitStep = Organization | Session | Settings | Vapi | Done

  /** Position of a step in the forward order. */
  function Rank(s: InitStep): nat {
    match s
    case Organization => 0
    case Session => 1
    case Settings => 2
    case Vapi => 3
    case Done => 4
  }

  /**
   * How an external validator call ends: resolved valid, resolved invalid
   * with an optional reason, or rejected with a thrown value that is or is
   * not an `Error` (and then carries a message).
   */
  datatype Validation = Valid | Invalid(reason: Option<string>) | Rejected(isError: bool, message: string)

  /** The three atoms. */
  datatype Boot = Boot(step: InitStep, sessionValid: bool, loadingMessages: seq<string>)

  /**
   * What one effect body or continuation does: the atoms afterwards, the
   * router-store triggers it fires in order, and the identifier it passes
   * to a validator, if it calls one.
   */
  datatype Effect = Effect(boot: Boot, triggers: seq<Trigger>, request: Option<string>)

  /** The atoms together with the router store. */
  datatype World = World(boot: Boot, router: RouterState)

  const StartupMessage: string := "Starting up..."
  const FindingOrganizationMessage: string := "Finding organization..."
  const ValidatingSessionMessage: string := "Validating session..."
  const MissingOrganizationError: string := "Organization ID is required"
  const InvalidFallback: string := "Something went wrong"
  const OrganizationRejectedFallback: string := "Organization validation failed"
  const SessionRejectedFallback: string := "Contact session validation failed"

  function InitialBoot(): Boot {
    Boot(Organization, false, [StartupMessage])
  }

  /** The line the loading screen shows: the most recent message. */
  function Displayed(b: Boot): string
    requires b.loadingMessages != []
  {
    b.loadingMessages[|b.loadingMessages| - 1]
  }

  /** The step never goes back and the messages are only appended to. */
  ghost predicate Advances(b: Boot, b': Boot) {
    Rank(b.step) <= Rank(b'.step) && b.loadingMessages <= b'.loadingMessages
  }

  /** The error message of a failed validation: the reason, the thrown error's message, or a fallback. */
  function FailureMessage(outcome: Validation, rejectionFallback: string): (r: string)
    requires !outcome.Valid?
    ensures r == "" ==>
      outcome == Invalid(Some("")) || outcome == Rejected(true, "") || (outcome.Rejected? && rejectionFallback == "")
  {
    match outcome
    case Invalid(reason) => reason.GetOr(InvalidFallback)
    case Rejected(isError, message) => if isError then message else rejectionFallback
  }

  /** The error path: set the message, then show the error screen; no other atom of the store is touched. */
  function ErrorTriggers(message: string): (r: seq<Trigger>)
    ensures SetError(message) in r && r[|r| - 1] == Navigate(Screen.Error)
    ensures forall i :: 0 <= i < |r| ==> r[i].SetError? || r[i].Navigate?
  {
    [SetError(message), Navigate(Screen.Error)]
  }

  /** The organization effect body. */
  function OrganizationEffect(b: Boot, organizationId: Option<string>): (e: Effect)
    ensures Advances(b, e.boot) && e.boot.step == b.step
    ensures e.request.Some? <==> b.step == Organization && Present(organizationId)
    ensures e.request.Some? ==> e.request == organizationId
    ensures b.step != Organization ==> e == Effect(b, [], None)
    ensures e.boot.sessionValid == b.sessionValid
    ensures b.step == Organization && Present(organizationId) ==>
      && e.triggers == []
      && e.boot == b.(loadingMessages := b.loadingMessages + [FindingOrganizationMessage])
      && Displayed(e.boot) == FindingOrganizationMessage
  {
    if b.step != Organization then Effect(b, [], None)
    else if !Present(organizationId) then Effect(b, ErrorTriggers(MissingOrganizationError), None)
    else Effect(b.(loadingMessages := b.loadingMessages + [FindingOrganizationMessage]), [], organizationId)
  }

  /** The continuation of the organization validator call. */
  function OrganizationSettled(b: Boot, organizationId: string, outcome: Validation): (e: Effect)
    ensures Rank(b.step) <= Rank(Session) ==> Advances(b, e.boot)
    ensures e.request == None && e.boot.loadingMessages == b.loadingMessages
    ensures e.boot.sessionValid == b.sessionValid
    ensures e.boot.step != b.step ==> e.boot.step == Session
  {
    if outcome.Valid? then
      Effect(b.(step := Session), [SetOrganizationId(organizationId)], None)
    else
      Effect(b, ErrorTriggers(FailureMessage(outcome, OrganizationRejectedFallback)), None)
  }

  /** The session effect body; it reads the contact session from the router store. */
  function SessionEffect(b: Boot, organizationId: Option<string>, storageAvailable: bool,
                         contactSessionId: Option<string>): (e: Effect)
    ensures Advances(b, e.boot) && e.triggers == []
    ensures e.boot.step != b.step ==> b.step == Session && e.boot.step == Done
    ensures e.request.Some? <==>
      b.step == Session && Present(organizationId) && storageAvailable && Present(contactSessionId)
    ensures e.request.Some? ==> e.request == contactSessionId
    ensures e.request.Some? ==>
      && e.boot == b.(loadingMessages := b.loadingMessages + [ValidatingSessionMessage])
      && Displayed(e.boot) == ValidatingSessionMessage
  {
    if b.step != Session || !Present(organizationId) then Effect(b, [], None)
    else if !storageAvailable then Effect(b, [], None)
    else if !Present(contactSessionId) then Effect(b.(step := Done, sessionValid := false), [], None)
    else Effect(b.(loadingMessages := b.loadingMessages + [ValidatingSessionMessage]), [], contactSessionId)
  }

  /** The continuation of the contact-session validator call. */
  function SessionSettled(b: Boot, contactSessionId: string, outcome: Validation): (e: Effect)
    ensures Advances(b, e.boot) && e.request == None
    ensures e.boot.loadingMessages == b.loadingMessages
    ensures e.boot.step != b.step ==> e.boot.step == Done
  {
    if outcome.Valid? then
      Effect(b.(step := Done, sessionValid := true), [SetContactSessionId(contactSessionId)], None)
    else
      Effect(b, ErrorTriggers(FailureMessage(outcome, SessionRejectedFallback)), None)
  }

  /** The done effect body: route by the session flag. */
  function DoneEffect(b: Boot): (e: Effect)
    ensures e.boot == b && e.request == None
    ensures b.step != Done <==> e.triggers == []
  {
    if b.step != Done then Effect(b, [], None)
    else Effect(b, [Navigate(if b.sessionValid then Selection else Auth)], None)
  }

  /** An effect applied: the atoms replaced, the triggers handled by the store. */
  function Perform(w: World, key: string -> string, e: Effect): World {
    World(e.boot, Fire(w.router, key, e.triggers))
  }

  lemma FireError(s: RouterState, key: string -> string, message: string)
    ensures Fire(s, key, ErrorTriggers(message)) ==
            s.(context := s.context.(errorMessage := Some(message), screen := Screen.Error))
  {
    var ts := ErrorTriggers(message);
    var s1 := Apply(s, key, SetError(message));
    assert ts[1..] == [Navigate(Screen.Error)] && [Navigate(Screen.Error)][1..] == [];
    assert Fire(s, key, ts) == Fire(s1, key, [Navigate(Screen.Error)]);
    assert Fire(s1, key, [Navigate(Screen.Error)]) == Apply(s1, key, Navigate(Screen.Error));
  }

  lemma FireOne(s: RouterState, key: string -> string, t: Trigger)
    ensures Fire(s, key, [t]) == Apply(s, key, t)
  {
    assert [t][1..] == [];
  }

  /** A startup step keeps the loading-message list non-empty with "Starting up..." first. */
  lemma AdvancesKeepsStartup(b: Boot, b': Boot)
    requires Advances(b, b') && b.loadingMessages != [] && b.loadingMessages[0] == StartupMessage
    ensures b'.loadingMessages != [] && b'.loadingMessages[0] == StartupMessage
  {
    assert b.loadingMessages[0] == b'.loadingMessages[0];
  }

  /** Without a truthy organization identifier: the error screen with the fixed message, and no validator call. */
  lemma MissingOrganization(w: World, key: string -> string, organizationId: Option<string>)
    requires w.boot.step == Organization && !Present(organizationId)
    ensures OrganizationEffect(w.boot, organizationId).request == None
    ensures var w' := Perform(w, key, OrganizationEffect(w.boot, organizationId));
            w'.router.context.screen == Screen.Error
            && w'.router.context.errorMessage == Some(MissingOrganizationError)
            && w'.boot == w.boot && w'.router.storage == w.router.storage
  {
    FireError(w.router, key, MissingOrganizationError);
  }

  /** A valid organization is stored in the router (restoring its contact session) and the step moves on. */
  lemma OrganizationAccepted(w: World, key: string -> string, organizationId: string)
    requires w.boot.step == Organization
    ensures var w' := Perform(w, key, OrganizationSettled(w.boot, organizationId, Valid));
            w'.boot.step == Session
            && w'.router.context.organizationId == Some(organizationId)
            && w'.router.context.contactSessionId == GetItem(w.router.storage, key(organizationId))
            && w'.router.context.screen == w.router.context.screen
            && w'.router.storage == w.router.storage
  {
    FireOne(w.router, key, SetOrganizationId(organizationId));
  }

  /**
   * The continuation has no staleness guard: settling valid after the step
   * has already reached `done` sets it back to `session`.
   */
  lemma StaleOrganizationContinuation(b: Boot, organizationId: string)
    requires b.step == Done
    ensures OrganizationSettled(b, organizationId, Valid).boot.step == Session
    ensures !Advances(b, OrganizationSettled(b, organizationId, Valid).boot)
  {
  }

  /** A failed validation shows its message on the error screen and leaves the atoms as they were. */
  lemma ValidationFailed(w: World, key: string -> string, id: string, outcome: Validation)
    requires !outcome.Valid?
    ensures var w' := Perform(w, key, OrganizationSettled(w.boot, id, outcome));
            w'.boot == w.boot && w'.router.context.screen == Screen.Error
            && w'.router.context.errorMessage == Some(FailureMessage(outcome, OrganizationRejectedFallback))
    ensures var w' := Perform(w, key, SessionSettled(w.boot, id, outcome));
            w'.boot == w.boot && w'.router.context.screen == Screen.Error
            && w'.router.context.errorMessage == Some(FailureMessage(outcome, SessionRejectedFallback))
  {
    FireError(w.router, key, FailureMessage(outcome, OrganizationRejectedFallback));
    FireError(w.router, key, FailureMessage(outcome, SessionRejectedFallback));
  }

  /**
   * The fallbacks: an invalid result without a reason gives "Something went
   * wrong"; a rejection gives the thrown error's message, or the fallback
   * when what was thrown is not an `Error`.
   */
  lemma FailureMessages(reason: string, message: string, fallback: string)
    ensures FailureMessage(Invalid(None), fallback) == InvalidFallback
    ensures FailureMessage(Invalid(Some(reason)), fallback) == reason
    ensures FailureMessage(Rejected(true, message), fallback) == message
    ensures FailureMessage(Rejected(false, message), fallback) == fallback
  {
  }

  /** The session effect does nothing outside its step, without an organization, or without storage. */
  lemma SessionEffectGuard(b: Boot, organizationId: Option<string>, storageAvailable: bool,
                           contactSessionId: Option<string>)
    requires b.step != Session || !Present(organizationId) || !storageAvailable
    ensures SessionEffect(b, organizationId, storageAvailable, contactSessionId) == Effect(b, [], None)
  {
  }

  /** No stored contact session, or a stored `""`: done, not valid, and no validator call. */
  lemma NoStoredSession(b: Boot, organizationId: Option<string>, contactSessionId: Option<string>)
    requires b.step == Session && Present(organizationId) && !Present(contactSessionId)
    ensures var e := SessionEffect(b, organizationId, true, contactSessionId);
            e.boot == b.(step := Done, sessionValid := false) && e.request == None && e.triggers == []
  {
  }

  /** A valid session: done, valid, and the identifier is persisted through the router store. */
  lemma SessionAccepted(w: World, key: string -> string, contactSessionId: string)
    requires Present(w.router.context.organizationId)
    ensures var w' := Perform(w, key, SessionSettled(w.boot, contactSessionId, Valid));
            w'.boot.step == Done && w'.boot.sessionValid
            && w'.router.context.contactSessionId == Some(contactSessionId)
            && GetItem(w'.router.storage, key(w.router.context.organizationId.value)) == Some(contactSessionId)
  {
    FireOne(w.router, key, SetContactSessionId(contactSessionId));
  }

  /** In the done step, the terminal screen is `selection` for a valid session and `auth` otherwise. */
  lemma DoneRoutes(w: World, key: string -> string)
    requires w.boot.step == Done
    ensures Perform(w, key, DoneEffect(w.boot)).router.context.screen ==
            (if w.boot.sessionValid then Selection else Auth)
  {
    FireOne(w.router, key, Navigate(if w.boot.sessionValid then Selection else Auth));
  }

  /** The start-up world: initial atoms, initial router context, the browser's storage. */
  function Start(storage: map<string, string>): World {
    World(InitialBoot(), RouterState(InitialContext(), storage))
  }

  /** A valid organization with no stored session ends on the auth screen. */
  lemma ScenarioNoStoredSession(key: string -> string, storage: map<string, string>, org: string,
                                w1: World, w2: World, w3: World, w4: World)
    requires org != "" && key(org) !in storage
    requires w1 == Perform(Start(storage), key, OrganizationEffect(InitialBoot(), Some(org)))
    requires w2 == Perform(w1, key, OrganizationSettled(w1.boot, org, Valid))
    requires w3 == Perform(w2, key, SessionEffect(w2.boot, Some(org), true, w2.router.context.contactSessionId))
    requires w4 == Perform(w3, key, DoneEffect(w3.boot))
    ensures OrganizationEffect(InitialBoot(), Some(org)).request == Some(org)
    ensures SessionEffect(w2.boot, Some(org), true, w2.router.context.contactSessionId).request == None
    ensures w4.boot.step == Done && !w4.boot.sessionValid
    ensures w4.router.context.screen == Auth
    ensures Displayed(w4.boot) == FindingOrganizationMessage
  {
    assert w1.router == Start(storage).router;
    assert w1.boot == InitialBoot().(loadingMessages := [StartupMessage, FindingOrganizationMessage]);
    OrganizationAccepted(w1, key, org);
    assert w2.router.context.contactSessionId == None;
    assert w2.boot == w1.boot.(step := Session);
    assert w3.router == w2.router && w3.boot == w2.boot.(step := Done, sessionValid := false);
    DoneRoutes(w3, key);
  }

  /** A valid organization and a valid stored session end on the selection screen, with the session re-persisted. */
  lemma ScenarioStoredSession(key: string -> string, storage: map<string, string>, org: string,
                              w1: World, w2: World, w3: World, w4: World, w5: World)
    requires org != "" && key(org) in storage && storage[key(org)] != ""
    requires w1 == Perform(Start(storage), key, OrganizationEffect(InitialBoot(), Some(org)))
    requires w2 == Perform(w1, key, OrganizationSettled(w1.boot, org, Valid))
    requires w3 == Perform(w2, key, SessionEffect(w2.boot, Some(org), true, w2.router.context.contactSessionId))
    requires w4 == Perform(w3, key, SessionSettled(w3.boot, storage[key(org)], Valid))
    requires w5 == Perform(w4, key, DoneEffect(w4.boot))
    ensures SessionEffect(w2.boot, Some(org), true, w2.router.context.contactSessionId).request == Some(storage[key(org)])
    ensures w5.boot.step == Done && w5.boot.sessionValid
    ensures w5.router.context.screen == Selection
    ensures w5.router.context.contactSessionId == Some(storage[key(org)])
    ensures w5.router.storage == storage
    ensures Displayed(w5.boot) == ValidatingSessionMessage
  {
    assert w1.router == Start(storage).router;
    OrganizationAccepted(w1, key, org);
    assert w2.router.context.contactSessionId == Some(storage[key(org)]);
    assert w3.router == w2.router;
    assert w3.router.context.organizationId == Some(org);
    SessionAccepted(w3, key, storage[key(org)]);
    FireOne(w3.router, key, SetContactSessionId(storage[key(org)]));
    assert w4.router.storage == storage[key(org) := storage[key(org)]];
    assert w4.router.storage == storage;
    assert w4.boot.step == Done && w4.boot.sessionValid;
    FireOne(w4.router, key, Navigate(Selection));
    DoneRoutes(w4, key);
  }

  /** A rejection with a thrown value that is not an `Error` ends on the error screen with the fallback. */
  lemma ScenarioOrganizationRejected(key: string -> string, storage: map<string, string>, org: string,
                                     message: string, w1: World, w2: World)
    requires org != ""
    requires w1 == Perform(Start(storage), key, OrganizationEffect(InitialBoot(), Some(org)))
    requires w2 == Perform(w1, key, OrganizationSettled(w1.boot, org, Rejected(false, message)))
    ensures w2.router.context.screen == Screen.Error
    ensures w2.router.context.errorMessage == Some(OrganizationRejectedFallback)
    ensures w2.boot.step == Organization
  {
    ValidationFailed(w1, key, org, Rejected(false, message));
  }

  /** The loading screen's atoms and its link to the router store. */
  class Bootstrap {
    var step: InitStep
    var sessionValid: bool
    var loadingMessages: seq<string>
    const router: RouterStore

    ghost function Atoms(): Boot
      reads this
    {
      Boot(step, sessionValid, loadingMessages)
    }

    ghost predicate Valid()
      reads this
    {
      loadingMessages != [] && loadingMessages[0] == StartupMessage
    }

    constructor (router: RouterStore)
      ensures step == Organization && !sessionValid && loadingMessages == [StartupMessage]
      ensures Valid() && this.router == router
    {
      step := Organization;
      sessionValid := false;
      loadingMessages := [StartupMessage];
      this.router := router;
    }

    method SetStep(s: InitStep)
      modifies this`step
      ensures step == s
    {
      step := s;
    }

    method SetSessionValid(valid: bool)
      modifies this`sessionValid
      ensures sessionValid == valid
    {
      sessionValid := valid;
    }

    method SetLoadingMessage(message: string)
      modifies this`loadingMessages
      ensures loadingMessages == old(loadingMessages) + [message]
      ensures Displayed(Atoms()) == message
    {
      loadingMessages := loadingMessages + [message];
    }

    /** `loadingMessage.at(-1)`. */
    method CurrentMessage() returns (line: string)
      requires Valid()
      ensures line == Displayed(Atoms())
      ensures line in loadingMessages
    {
      line := loadingMessages[|loadingMessages| - 1];
    }

    method ShowError(message: string)
      modifies router
      ensures router.State() == Fire(old(router.State()), router.key, ErrorTriggers(message))
    {
      router.Trigger(SetError(message));
      router.Trigger(Navigate(Screen.Error));
      FireError(old(router.State()), router.key, message);
    }

    /** The organization effect; the result is the identifier passed to the validator, if called. */
    method RunOrganizationEffect(organizationId: Option<string>) returns (request: Option<string>)
      requires Valid()
      modifies this, router
      ensures Valid()
      ensures var e := OrganizationEffect(old(Atoms()), organizationId);
              Atoms() == e.boot && request == e.request
              && router.State() == Fire(old(router.State()), router.key, e.triggers)
    {
      request := None;
      if step != Organization {
        return;
      }
      if !Present(organizationId) {
        ShowError(MissingOrganizationError);
        return;
      }
      SetLoadingMessage(FindingOrganizationMessage);
      request := organizationId;
    }

    /** The organization validator's promise settling with `outcome`. */
    method ResolveOrganization(organizationId: string, outcome: Validation)
      requires Valid()
      modifies this, router
      ensures Valid()
      ensures var e := OrganizationSettled(old(Atoms()), organizationId, outcome);
              Atoms() == e.boot && router.State() == Fire(old(router.State()), router.key, e.triggers)
    {
      if outcome.Valid? {
        router.Trigger(SetOrganizationId(organizationId));
        FireOne(old(router.State()), router.key, SetOrganizationId(organizationId));
        SetStep(Session);
      } else {
        ShowError(FailureMessage(outcome, OrganizationRejectedFallback));
      }
    }

    /** The session effect; the result is the identifier passed to the validator, if called. */
    method RunSessionEffect(organizationId: Option<string>, storageAvailable: bool) returns (request: Option<string>)
      requires Valid()
      modifies this
      ensures Valid()
      ensures var e := SessionEffect(old(Atoms()), organizationId, storageAvailable, router.context.contactSessionId);
              Atoms() == e.boot && request == e.request
    {
      request := None;
      if step != Session || !Present(organizationId) {
        return;
      }
      if !storageAvailable {
        return;
      }
      var contactSessionId := router.context.contactSessionId;
      if !Present(contactSessionId) {
        SetStep(Done);
        SetSessionValid(false);
        return;
      }
      SetLoadingMessage(ValidatingSessionMessage);
      request := contactSessionId;
    }

    /** The contact-session validator's promise settling with `outcome`. */
    method ResolveSession(contactSessionId: string, outcome: Validation)
      requires Valid()
      modifies this, router
      ensures Valid()
      ensures var e := SessionSettled(old(Atoms()), contactSessionId, outcome);
              Atoms() == e.boot && router.State() == Fire(old(router.State()), router.key, e.triggers)
    {
      if outcome.Valid? {
        SetStep(Done);
        SetSessionValid(true);
        router.Trigger(SetContactSessionId(contactSessionId));
        FireOne(old(router.State()), router.key, SetContactSessionId(contactSessionId));
      } else {
        ShowError(FailureMessage(outcome, SessionRejectedFallback));
      }
    }

    /** The done effect. */
    method RunDoneEffect()
      modifies router
      ensures var e := DoneEffect(Atoms());
              router.State() == Fire(old(router.State()), router.key, e.triggers)
    {
      if step != Done {
        return;
      }
      var to := if sessionValid then Selection else Auth;
      router.Trigger(Navigate(to));
      FireOne(old(router.State()), router.key, Navigate(to));
    }
  }
}
