/**
 * The reminder routes of the server: create, list and delete a user's intake
 * reminders. Each route takes the bearer token from the `Authorization`
 * header, asks the authentication provider for the user, and answers 401
 * before touching the key-value store when either step fails. A user's
 * reminders are one list stored under the key `reminders:<user id>`.
 */
module ReminderApi {
  import opened Seqs
  import opened Text
  import opened Optional

  /** A stored reminder; `id` and `createdAt` are chosen by the server. */
  datatype Reminder = Reminder(id: string, supplement: string, time: string, days: seq<string>, createdAt: string)

  const KeyPrefix: string := "reminders:"

  /** The store key of a user's reminder list. */
  function RemindersKey(userId: string): (key: string)
    ensures |key| == |KeyPrefix| + |userId|
    ensures key[..|KeyPrefix|] == KeyPrefix && key[|KeyPrefix|..] == userId
  {
    KeyPrefix + userId
  }

  /** Different users have different keys. */
  lemma RemindersKeyInjective(a: string, b: string)
    ensures RemindersKey(a) == RemindersKey(b) <==> a == b
  {
  }

  /** `await kv.get(key) || []`: the stored list, an absent key read as the empty list. */
  function StoredList(entries: map<string, seq<Reminder>>, key: string): seq<Reminder> {
    if key in entries then entries[key] else []
  }

  // ---------------------------------------------------------------------------
  // The authentication gate

  /**
   * `header?.split(' ')[1]`, kept only when it is a non-empty string (the
   * route tests `!accessToken`): the second space-separated field.
   */
  function BearerToken(header: Option<string>): (token: Option<string>)
    ensures token.Some? ==> header.Some? && token.value != "" && ' ' !in token.value
  {
    if header.None? then None
    else
      var fields := SplitOnSpace(header.value);
      if |fields| >= 2 && fields[1] != "" then Some(fields[1]) else None
  }

  /** `"Bearer <token>"` yields the token, whatever the scheme word is. */
  lemma BearerTokenOfHeader(scheme: string, token: string)
    requires ' ' !in scheme && ' ' !in token && token != ""
    ensures BearerToken(Some(scheme + " " + token)) == Some(token)
  {
    SplitOnSpaceCons(scheme, token);
  }

  /** Anything after the second field is ignored. */
  lemma BearerTokenIgnoresRest(scheme: string, token: string, rest: string)
    requires ' ' !in scheme && ' ' !in token && token != ""
    ensures BearerToken(Some(scheme + " " + token + " " + rest)) == Some(token)
  {
    SplitOnSpaceCons(scheme, token + " " + rest);
    assert scheme + " " + (token + " " + rest) == scheme + " " + token + " " + rest;
    SplitOnSpaceCons(token, rest);
  }

  /** A header without a space, such as a bare token, carries no token. */
  lemma NoSpaceNoToken(header: string)
    requires ' ' !in header
    ensures BearerToken(Some(header)) == None
  {
  }

  /** What the provider's `getUser(token)` gives. */
  datatype AuthResult = AuthFailed(message: string) | NoUser | Authenticated(userId: string)

  const NoTokenMessage: string := "Unauthorized - No token provided"
  const UnauthorizedMessage: string := "Unauthorized"

  /** The outcome of the gate all three routes open with. */
  datatype Gate = Denied(error: string) | Admitted(userId: string)

  function Authenticate(header: Option<string>, getUser: string -> AuthResult): (gate: Gate)
    ensures BearerToken(header).None? ==> gate == Denied(NoTokenMessage)
    ensures gate.Admitted? <==> BearerToken(header).Some? && getUser(BearerToken(header).value).Authenticated?
    ensures gate.Admitted? ==> gate.userId == getUser(BearerToken(header).value).userId
    ensures gate.Denied? ==> gate.error == NoTokenMessage || gate.error == UnauthorizedMessage
  {
    match BearerToken(header)
    case None => Denied(NoTokenMessage)
    case Some(token) =>
      match getUser(token)
      case Authenticated(userId) => Admitted(userId)
      case _ => Denied(UnauthorizedMessage)
  }
  /** Without a token the provider is never consulted: any two providers give the same answer. */
  lemma AuthenticateWithoutToken(header: Option<string>, p: string -> AuthResult, q: string -> AuthResult)
    requires BearerToken(header).None?
    ensures Authenticate(header, p) == Authenticate(header, q) == Denied(NoTokenMessage)
  {
  }

  /** A header without a space is refused with the no-token message, whatever the provider. */
  lemma AuthenticateSpaceless(value: string, getUser: string -> AuthResult)
    requires ' ' !in value
    ensures Authenticate(Some(value), getUser) == Denied(NoTokenMessage)
  {
    NoSpaceNoToken(value);
  }


  // ---------------------------------------------------------------------------
  // The store and the effect of each route on it

  /** A store operation, recorded so that contracts can say which keys a route touched. */
  datatype Access = Read(key: string) | Write(key: string)

  /** The key-value store: a map from key to reminder list, with a record of the operations performed on it. */
  class KvStore {
    var entries: map<string, seq<Reminder>>
    ghost var log: seq<Access>

    constructor(initial: map<string, seq<Reminder>>)
      ensures entries == initial && log == []
    {
      entries := initial;
      log := [];
    }

    /** `kv.get(key)`: the stored value, or nothing. */
    method Get(key: string) returns (value: Option<seq<Reminder>>)
      modifies this
      ensures value == (if key in entries then Some(entries[key]) else None)
      ensures entries == old(entries) && log == old(log) + [Read(key)]
    {
      value := if key in entries then Some(entries[key]) else None;
      log := log + [Read(key)];
    }

    /** `kv.set(key, value)`. */
    method Set(key: string, value: seq<Reminder>)
      modifies this
      ensures entries == old(entries)[key := value] && log == old(log) + [Write(key)]
    {
      entries := entries[key := value];
      log := log + [Write(key)];
    }
  }

  /** The store after one reminder is appended to the list under `key`. */
  function AfterCreate(entries: map<string, seq<Reminder>>, key: string, reminder: Reminder): map<string, seq<Reminder>> {
    entries[key := StoredList(entries, key) + [reminder]]
  }

  /** The reminders whose id differs from `id`, in their order (`reminders.filter(r => r.id !== id)`). */
  function RemoveById(reminders: seq<Reminder>, id: string): seq<Reminder> {
    Filter((r: Reminder) => r.id != id, reminders)
  }

  /** The store after the reminders with id `id` are removed from the list under `key`. */
  function AfterDelete(entries: map<string, seq<Reminder>>, key: string, id: string): map<string, seq<Reminder>> {
    entries[key := RemoveById(StoredList(entries, key), id)]
  }

  /**
   * Create appends exactly one record at the end of the list under `key`,
   * an absent key counting as the empty list; every other key keeps its value.
   */
  lemma AfterCreateAppends(entries: map<string, seq<Reminder>>, key: string, reminder: Reminder)
    ensures StoredList(AfterCreate(entries, key, reminder), key) == StoredList(entries, key) + [reminder]
    ensures forall k :: k != key ==> (k in AfterCreate(entries, key, reminder) <==> k in entries)
    ensures forall k :: k != key && k in entries ==> AfterCreate(entries, key, reminder)[k] == entries[k]
  {
  }

  /** Creating one user's reminder leaves every other user's list as it was. */
  lemma CreateLeavesOtherUsers(entries: map<string, seq<Reminder>>, user: string, other: string, reminder: Reminder)
    requires user != other
    ensures StoredList(AfterCreate(entries, RemindersKey(user), reminder), RemindersKey(other)) ==
      StoredList(entries, RemindersKey(other))
  {
    RemindersKeyInjective(user, other);
  }

  /** Delete keeps exactly the records whose id differs, in their original order. */
  lemma RemoveByIdKeeps(reminders: seq<Reminder>, id: string, r: Reminder)
    ensures r in RemoveById(reminders, id) <==> r in reminders && r.id != id
    ensures |RemoveById(reminders, id)| <= |reminders|
  {
  }

  /** Deleting splits over concatenation, so the kept records stay in order. */
  lemma RemoveByIdConcat(a: seq<Reminder>, b: seq<Reminder>, id: string)
    ensures RemoveById(a + b, id) == RemoveById(a, id) + RemoveById(b, id)
  {
    FilterConcat((r: Reminder) => r.id != id, a, b);
  }

  /** Deleting an id no record carries changes nothing. */
  lemma RemoveAbsentId(reminders: seq<Reminder>, id: string)
    requires forall r :: r in reminders ==> r.id != id
    ensures RemoveById(reminders, id) == reminders
  {
    FilterKeepsAll((r: Reminder) => r.id != id, reminders);
  }

  /** Delete is idempotent: deleting the same id twice is deleting it once. */
  lemma AfterDeleteIdempotent(entries: map<string, seq<Reminder>>, key: string, id: string)
    ensures AfterDelete(AfterDelete(entries, key, id), key, id) == AfterDelete(entries, key, id)
  {
    FilterIdempotent((r: Reminder) => r.id != id, StoredList(entries, key));
  }

  /** Deleting a reminder just created under a fresh id gives the list back as it was before. */
  lemma CreateThenDelete(entries: map<string, seq<Reminder>>, key: string, reminder: Reminder)
    requires forall r :: r in StoredList(entries, key) ==> r.id != reminder.id
    ensures StoredList(AfterDelete(AfterCreate(entries, key, reminder), key, reminder.id), key) == StoredList(entries, key)
  {
    var before := StoredList(entries, key);
    RemoveByIdConcat(before, [reminder], reminder.id);
    RemoveAbsentId(before, reminder.id);
    assert RemoveById([reminder], reminder.id) == [];
  }

  // ---------------------------------------------------------------------------
  // The routes

  /** The request body of create: its three fields. */
  datatype ReminderInput = ReminderInput(supplement: string, time: string, days: seq<string>)

  datatype RouteReply =
    | Unauthorized(error: string)
    | Saved(reminder: Reminder)
    | Listed(reminders: seq<Reminder>)
    | Deleted
    | ServerError(error: string)

  const SaveErrorMessage: string := "Internal server error during reminder save"

  /**
   * `POST /reminders`. `body` is `None` when the body is not JSON; `id` and
   * `createdAt` stand for `crypto.randomUUID()` and the current time.
   */
  method CreateReminder(store: KvStore, header: Option<string>, getUser: string -> AuthResult,
                        body: Option<ReminderInput>, id: string, createdAt: string)
    returns (reply: RouteReply)
    modifies store
    ensures Authenticate(header, getUser).Denied? ==>
      reply == Unauthorized(Authenticate(header, getUser).error) &&
      store.entries == old(store.entries) && store.log == old(store.log)
    ensures Authenticate(header, getUser).Admitted? && body.None? ==>
      reply == ServerError(SaveErrorMessage) && store.entries == old(store.entries) && store.log == old(store.log)
    ensures Authenticate(header, getUser).Admitted? && body.Some? ==>
      var key := RemindersKey(Authenticate(header, getUser).userId);
      var reminder := Reminder(id, body.value.supplement, body.value.time, body.value.days, createdAt);
      reply == Saved(reminder) &&
      store.entries == AfterCreate(old(store.entries), key, reminder) &&
      store.log == old(store.log) + [Read(key), Write(key)]
  {
    var gate := Authenticate(header, getUser);
    if gate.Denied? {
      return Unauthorized(gate.error);
    }
    if body.None? {
      return ServerError(SaveErrorMessage);
    }
    var remindersKey := RemindersKey(gate.userId);
    var stored := store.Get(remindersKey);
    var existingReminders := if stored.Some? then stored.value else [];
    var newReminder := Reminder(id, body.value.supplement, body.value.time, body.value.days, createdAt);
    existingReminders := existingReminders + [newReminder];
    store.Set(remindersKey, existingReminders);
    reply := Saved(newReminder);
  }

  /** `GET /reminders`. */
  method ListReminders(store: KvStore, header: Option<string>, getUser: string -> AuthResult)
    returns (reply: RouteReply)
    modifies store
    ensures store.entries == old(store.entries)
    ensures Authenticate(header, getUser).Denied? ==>
      reply == Unauthorized(Authenticate(header, getUser).error) && store.log == old(store.log)
    ensures Authenticate(header, getUser).Admitted? ==>
      var key := RemindersKey(Authenticate(header, getUser).userId);
      reply == Listed(StoredList(store.entries, key)) && store.log == old(store.log) + [Read(key)]
  {
    var gate := Authenticate(header, getUser);
    if gate.Denied? {
      return Unauthorized(gate.error);
    }
    var remindersKey := RemindersKey(gate.userId);
    var stored := store.Get(remindersKey);
    var reminders := if stored.Some? then stored.value else [];
    reply := Listed(reminders);
  }

  /** `DELETE /reminders/:id`: succeeds whether or not a reminder carries `reminderId`. */
  method DeleteReminder(store: KvStore, header: Option<string>, getUser: string -> AuthResult, reminderId: string)
    returns (reply: RouteReply)
    modifies store
    ensures Authenticate(header, getUser).Denied? ==>
      reply == Unauthorized(Authenticate(header, getUser).error) &&
      store.entries == old(store.entries) && store.log == old(store.log)
    ensures Authenticate(header, getUser).Admitted? ==>
      var key := RemindersKey(Authenticate(header, getUser).userId);
      reply == Deleted &&
      store.entries == AfterDelete(old(store.entries), key, reminderId) &&
      store.log == old(store.log) + [Read(key), Write(key)]
  {
    var gate := Authenticate(header, getUser);
    if gate.Denied? {
      return Unauthorized(gate.error);
    }
    var remindersKey := RemindersKey(gate.userId);
    var stored := store.Get(remindersKey);
    var reminders := if stored.Some? then stored.value else [];
    var filteredReminders := Filter((r: Reminder) => r.id != reminderId, reminders);
    store.Set(remindersKey, filteredReminders);
    reply := Deleted;
  }
}
