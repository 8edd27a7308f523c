/**
 * The widget's router store: the current screen, the error message shown on
 * the error screen, and the organization and contact-session identifiers,
 * with the contact session persisted in browser storage per organization.
 */
module WidgetAtoms {
  import opened Wrappers

  datatype Screen = Loading | Auth | Error | Selection | Voice | Inbox | Chat | Contact

  datatype RouterContext = RouterContext(
    screen: Screen,
    errorMessage: Option<string>,
    organizationId: Option<string>,
    contactSessionId: Option<string>)

  /** The store's context together with the browser storage its handlers read and write. */
  datatype RouterState = RouterState(context: RouterContext, storage: map<string, string>)

  /** The events accepted by `routerStore.trigger`. */
  datatype Trigger =
    | Navigate(to: Screen)
    | SetError(message: string)
    | ClearError
    | SetOrganizationId(organizationId: string)
    | SetContactSessionId(contactSessionId: string)

  /** JavaScript truthiness of an optional string: absent and "" are both false. */
  predicate Present(o: Option<string>) {
    o.Some? && o.value != ""
  }

  /** The storage key derivation maps distinct organizations to distinct keys. */
  ghost predicate Injective(key: string -> string) {
    forall a, b :: key(a) == key(b) ==> a == b
  }

  function InitialContext(): RouterContext {
    RouterContext(Loading, None, None, None)
  }

  /** `storage.getItem(k) ?? undefined`. */
  function GetItem(storage: map<string, string>, k: string): (r: Option<string>)
    ensures r.Some? <==> k in storage
    ensures r.Some? ==> r.value == storage[k]
  {
    if k in storage then Some(storage[k]) else None
  }

  /** `navigate`: only the screen changes. */
  function OnNavigate(c: RouterContext, to: Screen): (r: RouterContext)
    ensures r.screen == to
    ensures r.errorMessage == c.errorMessage
    ensures r.organizationId == c.organizationId && r.contactSessionId == c.contactSessionId
  {
    c.(screen := to)
  }

  /** `setError`: only the error message changes. */
  function OnSetError(c: RouterContext, message: string): (r: RouterContext)
    ensures r.errorMessage == Some(message)
    ensures r.screen == c.screen
    ensures r.organizationId == c.organizationId && r.contactSessionId == c.contactSessionId
  {
    c.(errorMessage := Some(message))
  }

  /** `clearError`: the error message becomes undefined, nothing else changes. */
  function OnClearError(c: RouterContext): (r: RouterContext)
    ensures r.errorMessage == None
    ensures r.screen == c.screen
    ensures r.organizationId == c.organizationId && r.contactSessionId == c.contactSessionId
  {
    c.(errorMessage := None)
  }

  /** `setOrganizationId`: store the organization and restore its persisted contact session, if any. */
  function OnSetOrganizationId(c: RouterContext, storage: map<string, string>, key: string -> string,
                               organizationId: string): (r: RouterContext)
    ensures r.organizationId == Some(organizationId)
    ensures r.contactSessionId.Some? <==> key(organizationId) in storage
    ensures r.contactSessionId.Some? ==> r.contactSessionId.value == storage[key(organizationId)]
    ensures r.screen == c.screen && r.errorMessage == c.errorMessage
  {
    c.(organizationId := Some(organizationId), contactSessionId := GetItem(storage, key(organizationId)))
  }

  /** The `updateContactSessionId` emit: `localStorage.setItem(key(organizationId), contactSessionId)`. */
  function UpdateContactSessionId(storage: map<string, string>, key: string -> string,
                                  organizationId: string, contactSessionId: string): (r: map<string, string>)
    ensures r.Keys == storage.Keys + {key(organizationId)}
    ensures r[key(organizationId)] == contactSessionId
    ensures forall k :: k in storage && k != key(organizationId) ==> r[k] == storage[k]
  {
    storage[key(organizationId) := contactSessionId]
  }

  /**
   * `setContactSessionId`: without an organization nothing happens; otherwise
   * the identifier is persisted under the organization's key and stored in
   * the context.
   */
  function OnSetContactSessionId(s: RouterState, key: string -> string, contactSessionId: string): (r: RouterState)
    ensures !Present(s.context.organizationId) ==> r == s
    ensures Present(s.context.organizationId) ==>
      && r.context.contactSessionId == Some(contactSessionId)
      && r.context.screen == s.context.screen
      && r.context.errorMessage == s.context.errorMessage
      && r.context.organizationId == s.context.organizationId
      && r.storage == UpdateContactSessionId(s.storage, key, s.context.organizationId.value, contactSessionId)
  {
    if !Present(s.context.organizationId) then s
    else
      RouterState(s.context.(contactSessionId := Some(contactSessionId)),
                  UpdateContactSessionId(s.storage, key, s.context.organizationId.value, contactSessionId))
  }

  /** One trigger handled by the store. */
  function Apply(s: RouterState, key: string -> string, t: Trigger): (r: RouterState)
    ensures r.storage != s.storage ==> t.SetContactSessionId?
    ensures r.context.screen != s.context.screen ==> t.Navigate?
    ensures r.context.errorMessage != s.context.errorMessage ==> t.SetError? || t.ClearError?
    ensures r.context.organizationId != s.context.organizationId ==> t.SetOrganizationId?
    ensures r.context.contactSessionId != s.context.contactSessionId ==>
      t.SetOrganizationId? || t.SetContactSessionId?
  {
    match t
    case Navigate(to) => s.(context := OnNavigate(s.context, to))
    case SetError(message) => s.(context := OnSetError(s.context, message))
    case ClearError => s.(context := OnClearError(s.context))
    case SetOrganizationId(id) => s.(context := OnSetOrganizationId(s.context, s.storage, key, id))
    case SetContactSessionId(id) => OnSetContactSessionId(s, key, id)
  }

  /** Triggers handled one after the other. */
  function Fire(s: RouterState, key: string -> string, ts: seq<Trigger>): RouterState
    decreases |ts|
  {
    if ts == [] then s else Fire(Apply(s, key, ts[0]), key, ts[1..])
  }

  lemma {:induction false} FireAppend(s: RouterState, key: string -> string, a: seq<Trigger>, b: seq<Trigger>)
    ensures Fire(s, key, a + b) == Fire(Fire(s, key, a), key, b)
    decreases |a|
  {
    if a == [] {
      assert a + b == b;
    } else {
      assert (a + b)[0] == a[0];
      assert (a + b)[1..] == a[1..] + b;
      FireAppend(Apply(s, key, a[0]), key, a[1..], b);
    }
  }

  /** Only the storage-touching triggers can change the storage, and only `setContactSessionId` writes it. */
  lemma {:induction false} FireKeepsStorage(s: RouterState, key: string -> string, ts: seq<Trigger>)
    requires forall i :: 0 <= i < |ts| ==> !ts[i].SetContactSessionId?
    ensures Fire(s, key, ts).storage == s.storage
    decreases |ts|
  {
    if ts != [] {
      FireKeepsStorage(Apply(s, key, ts[0]), key, ts[1..]);
    }
  }

  /**
   * Persistence round trip: select an organization, establish a contact
   * session, select the organization again, and the session is restored.
   */
  lemma PersistenceRoundTrip(s: RouterState, key: string -> string, x: string, y: string)
    requires x != ""
    ensures var s1 := Apply(s, key, SetOrganizationId(x));
            var s2 := Apply(s1, key, SetContactSessionId(y));
            Apply(s2, key, SetOrganizationId(x)).context.contactSessionId == Some(y)
  {
  }

  /** With an empty organization identifier nothing is persisted: the round trip needs a truthy identifier. */
  lemma EmptyOrganizationNotPersisted(s: RouterState, key: string -> string, y: string)
    ensures var s1 := Apply(s, key, SetOrganizationId(""));
            Apply(s1, key, SetContactSessionId(y)) == s1
  {
  }

  /** Persisting a session for one organization leaves every other organization's stored session as it was. */
  lemma OtherOrganizationsUnaffected(s: RouterState, key: string -> string, y: string, other: string)
    requires Injective(key)
    requires Present(s.context.organizationId) && other != s.context.organizationId.value
    ensures GetItem(Apply(s, key, SetContactSessionId(y)).storage, key(other)) == GetItem(s.storage, key(other))
  {
    assert key(other) != key(s.context.organizationId.value);
  }

  /** Navigation keeps only the last target. */
  lemma NavigateLastWins(s: RouterState, key: string -> string, a: Screen, b: Screen)
    ensures Fire(s, key, [Navigate(a), Navigate(b)]) == Apply(s, key, Navigate(b))
  {
    var ts := [Navigate(a), Navigate(b)];
    var s1 := Apply(s, key, Navigate(a));
    assert ts[1..] == [Navigate(b)] && [Navigate(b)][1..] == [];
    assert Fire(s, key, ts) == Fire(s1, key, [Navigate(b)]);
    assert Fire(s1, key, [Navigate(b)]) == Apply(s1, key, Navigate(b));
  }

  /** `clearError` undoes `setError` and is idempotent. */
  lemma ClearErrorUndoesSetError(c: RouterContext, message: string)
    ensures OnClearError(OnSetError(c, message)) == OnClearError(c)
    ensures OnClearError(OnClearError(c)) == OnClearError(c)
  {
  }

  /** The store: its current context and the browser storage. */
  class RouterStore {
    var context: RouterContext
    var storage: map<string, string>
    /** `getContactSessionKey`, whose definition is not part of this model. */
    const key: string -> string

    ghost function State(): RouterState
      reads this
    {
      RouterState(context, storage)
    }

    constructor (key: string -> string, storage: map<string, string>)
      ensures context.screen == Loading
      ensures context.errorMessage == None && context.organizationId == None && context.contactSessionId == None
      ensures this.storage == storage && this.key == key
    {
      context := InitialContext();
      this.storage := storage;
      this.key := key;
    }

    /** The `updateContactSessionId` emit handler. */
    method EmitUpdateContactSessionId(organizationId: string, contactSessionId: string)
      modifies this`storage
      ensures storage == UpdateContactSessionId(old(storage), key, organizationId, contactSessionId)
    {
      storage := storage[key(organizationId) := contactSessionId];
    }

    /** `routerStore.trigger.<event>(...)`. */
    method Trigger(t: Trigger)
      modifies this
      ensures State() == Apply(old(State()), key, t)
      ensures !t.SetContactSessionId? ==> storage == old(storage)
    {
      match t {
        case Navigate(to) => context := OnNavigate(context, to);
        case SetError(message) => context := OnSetError(context, message);
        case ClearError => context := OnClearError(context);
        case SetOrganizationId(id) => context := OnSetOrganizationId(context, storage, key, id);
        case SetContactSessionId(id) =>
          if Present(context.organizationId) {
            EmitUpdateContactSessionId(context.organizationId.value, id);
            context := context.(contactSessionId := Some(id));
          }
      }
    }
  }
}
