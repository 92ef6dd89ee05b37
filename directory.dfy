/** The admin user directory behind `/api/admin/users`: list, create and
    update over a store of user documents, each gated on an admin session.
    The document store is the map `UserStore.users` from document id to
    document; the database calls become reads and writes of that map. */
module Directory {
  import opened Js

  /** A hexadecimal digit, in either case. */
  predicate IsHexDigit(c: char) {
    '0' <= c <= '9' || 'a' <= c <= 'f' || 'A' <= c <= 'F'
  }

  /** A hexadecimal digit as an ObjectId prints it. */
  predicate IsLowerHexDigit(c: char) {
    '0' <= c <= '9' || 'a' <= c <= 'f'
  }

  /** The string form of a document's ObjectId: 24 lower-case hex digits. */
  type Id = s: string | |s| == 24 && forall i :: 0 <= i < |s| ==> IsLowerHexDigit(s[i])
    witness "000000000000000000000000"

  /** A string that casts to an ObjectId: 24 hex digits of either case. */
  predicate IsObjectIdText(s: string) {
    |s| == 24 && forall i :: 0 <= i < |s| ==> IsHexDigit(s[i])
  }

  function LowerHex(c: char): char {
    if 'A' <= c <= 'F' then (c as int + 32) as char else c
  }

  /** The ObjectId a castable string names: its digits in lower case. */
  function CanonicalId(s: string): (id: Id)
    requires IsObjectIdText(s)
    ensures forall i :: 0 <= i < 24 ==> id[i] == LowerHex(s[i])
    ensures (forall i :: 0 <= i < 24 ==> IsLowerHexDigit(s[i])) ==> id == s
  {
    seq(24, i requires 0 <= i < 24 => LowerHex(s[i]))
  }

  /** A stored user document. Fields the request left out are `Undefined`. */
  datatype UserDoc = UserDoc(
    email: Value, password: Value, name: Value, role: Value,
    number: Value, extensionId: Value, host: Value, port: Value, secret: Value,
    createdAt: int, updatedAt: int)

  /** The JSON body of a POST or PUT request (POST ignores `id`). */
  datatype UserBody = UserBody(
    id: Value, email: Value, password: Value, name: Value, role: Value,
    number: Value, extensionId: Value, host: Value, port: Value, secret: Value)

  /** What every handler returns for a user: the document without its password. */
  datatype PublicUser = PublicUser(
    id: Id, name: Value, email: Value, role: Value,
    number: Value, extensionId: Value, host: Value, port: Value, secret: Value,
    createdAt: int, updatedAt: int)

  datatype Response<T> = Ok(body: T) | Fail(status: int, error: string)

  const Forbidden: Response<seq<PublicUser>> := Fail(403, "Forbidden")

  /** The framework's answer to an exception the handler does not catch:
      status 500 and no JSON error message. */
  const ServerError: Response<PublicUser> := Fail(500, "")

  /** `assertAdmin`: `sessionRole` is the value of `session?.user?.role`,
      `Undefined` when there is no session or no user in it. */
  predicate IsAdmin(sessionRole: Value): (admin: bool)
    ensures Nullish(sessionRole) || sessionRole.Num? ==> !admin
    ensures sessionRole.Str? ==> (admin <==> sessionRole.s == "admin")
  {
    sessionRole == Str("admin")
  }

  /** A present stored value passes through; a missing one becomes `fallback`. */
  predicate DefaultedFrom(out: Value, stored: Value, fallback: Value) {
    && (Nullish(stored) ==> out == fallback)
    && (!Nullish(stored) ==> out == stored)
  }

  /** `sanitizeUser`: drops the password and gives every optional text field a
      value ("" when missing) and the port `null` when missing. */
  function Sanitize(id: Id, u: UserDoc): (r: PublicUser)
    ensures r.id == id && r.email == u.email && r.role == u.role
    ensures r.createdAt == u.createdAt && r.updatedAt == u.updatedAt
    ensures !Nullish(r.name) && !Nullish(r.number) && !Nullish(r.extensionId)
    ensures !Nullish(r.host) && !Nullish(r.secret) && !r.port.Undefined?
    ensures HasAccount(u) ==> HasEveryField(r)
    ensures DefaultedFrom(r.name, u.name, Str("")) && DefaultedFrom(r.number, u.number, Str(""))
    ensures DefaultedFrom(r.extensionId, u.extensionId, Str("")) && DefaultedFrom(r.host, u.host, Str(""))
    ensures DefaultedFrom(r.secret, u.secret, Str("")) && DefaultedFrom(r.port, u.port, Null)
  {
    PublicUser(
      id, Coalesce(u.name, Str("")), u.email, u.role,
      Coalesce(u.number, Str("")), Coalesce(u.extensionId, Str("")),
      Coalesce(u.host, Str("")), Coalesce(u.port, Null), Coalesce(u.secret, Str("")),
      u.createdAt, u.updatedAt)
  }

  /** What POST and PUT keep true of every stored document: it has an email
      and a role. */
  predicate HasAccount(d: UserDoc) {
    Truthy(d.email) && !Nullish(d.role)
  }

  /** No field of a returned user is missing: the text fields are never null
      or undefined, and the port is at least `null`. */
  predicate HasEveryField(p: PublicUser) {
    && !Nullish(p.email) && !Nullish(p.role) && !Nullish(p.name) && !Nullish(p.number)
    && !Nullish(p.extensionId) && !Nullish(p.host) && !Nullish(p.secret) && !p.port.Undefined?
  }

  /** Nothing in a response depends on the stored password. */
  lemma SanitizeIgnoresPassword(id: Id, u: UserDoc, password: Value)
    ensures Sanitize(id, u.(password := password)) == Sanitize(id, u)
  {
  }

  /** `findOne({ email, _id: { $ne: except } })` finds a document. */
  predicate EmailTaken(users: map<Id, UserDoc>, email: Value, except: Option<Id>): (taken: bool)
    ensures taken ==> exists k :: k in users && users[k].email == email
    ensures (except.None? || except.value !in users) ==>
      (taken <==> exists k :: k in users && users[k].email == email)
    ensures except.Some? ==>
      (taken <==> exists k :: k in users && k != except.value && users[k].email == email)
    ensures except.Some? && except.value in users && UniqueEmails(users) && email == users[except.value].email ==>
      !taken
  {
    exists k :: k in users && Some(k) != except && users[k].email == email
  }

  /** The email of each stored document is held by no other document. */
  ghost predicate UniqueEmails(users: map<Id, UserDoc>) {
    forall a, b :: a in users && b in users && a != b ==> users[a].email != users[b].email
  }

  /** How `User.findById(id)` ends: the cast of `id` to an ObjectId throws,
      or the cast id names no document, or it names one. */
  datatype Lookup = CastError | NotFound | Found(id: Id)

  /** `User.findById(id)`: mongoose first casts `id` to an ObjectId, which
      throws unless it is a string of 24 hex digits (a number is cast through
      its decimal text, which never has 24 digits), and then looks up the cast
      id, so the case of the hex digits does not matter. */
  function FindById(users: map<Id, UserDoc>, id: Value): (r: Lookup)
    ensures r.CastError? <==> !(id.Str? && IsObjectIdText(id.s))
    ensures id.Str? && id.s in users ==> r == Found(id.s)
    ensures r.Found? ==> r.id in users && id.Str? && IsObjectIdText(id.s) && r.id == CanonicalId(id.s)
    ensures r.NotFound? ==> id.Str? && IsObjectIdText(id.s) && CanonicalId(id.s) !in users
  {
    if id.Str? && IsObjectIdText(id.s) then
      var k := CanonicalId(id.s);
      if k in users then Found(k) else NotFound
    else CastError
  }

  /** Two spellings of one ObjectId that differ only in the case of their hex
      digits find the same document. */
  lemma SpellingsFindSameDocument(users: map<Id, UserDoc>, s: string, t: string)
    requires IsObjectIdText(s) && IsObjectIdText(t)
    requires forall i :: 0 <= i < 24 ==> LowerHex(s[i]) == LowerHex(t[i])
    ensures FindById(users, Str(s)) == FindById(users, Str(t))
  {
    assert CanonicalId(s) == CanonicalId(t);
  }

  /** An id sent with upper-case hex digits still finds the stored document. */
  lemma UpperCaseIdFindsDocument(users: map<Id, UserDoc>)
    requires "0123456789abcdef01234567" in users
    ensures FindById(users, Str("0123456789ABCDEF01234567")) == Found("0123456789abcdef01234567")
  {
    SpellingsFindSameDocument(users, "0123456789ABCDEF01234567", "0123456789abcdef01234567");
  }

  /** The document `User.create` stores for a POST body at time `now`. */
  function NewDoc(b: UserBody, now: int): (d: UserDoc)
    ensures d.email == b.email && d.password == b.password && d.name == b.name
    ensures d.number == b.number && d.extensionId == b.extensionId && d.host == b.host
    ensures d.port == b.port && d.secret == b.secret
    ensures Nullish(b.role) ==> d.role == Str("user")
    ensures !Nullish(b.role) ==> d.role == b.role
    ensures d.createdAt == now && d.updatedAt == now
  {
    UserDoc(b.email, b.password, b.name, Coalesce(b.role, Str("user")),
      b.number, b.extensionId, b.host, b.port, b.secret, now, now)
  }

  /** The value a field holds after `if (given !== undefined) field = given`. */
  function AssignIfPresent(current: Value, given: Value): Value {
    if given.Undefined? then current else given
  }

  /** The value a field holds after `if (given) field = given`. */
  function AssignIfTruthy(current: Value, given: Value): Value {
    if Truthy(given) then given else current
  }

  /** The document after PUT's field assignments, before it is saved. */
  function AssignedFields(d: UserDoc, b: UserBody): UserDoc {
    d.(
      email := AssignIfTruthy(d.email, b.email),
      name := AssignIfPresent(d.name, b.name),
      role := AssignIfTruthy(d.role, b.role),
      number := AssignIfPresent(d.number, b.number),
      extensionId := AssignIfPresent(d.extensionId, b.extensionId),
      host := AssignIfPresent(d.host, b.host),
      port := AssignIfPresent(d.port, b.port),
      secret := AssignIfPresent(d.secret, b.secret),
      password := AssignIfTruthy(d.password, b.password))
  }

  /** The document PUT saves: the field assignments of the handler, then
      `save()`. The model assumes mongoose's timestamp rule: `save()` stamps
      `updatedAt` only when some field was modified, and assigning a field
      the value it already holds does not modify it. */
  function UpdatedDoc(d: UserDoc, b: UserBody, now: int): (r: UserDoc)
    ensures r.(updatedAt := d.updatedAt) == AssignedFields(d, b)
    ensures r == d <==> AssignedFields(d, b) == d
    ensures r != d ==> r.updatedAt == now
    ensures r.createdAt == d.createdAt
  {
    var e := AssignedFields(d, b);
    if e == d then d else e.(updatedAt := now)
  }

  /** An update changes only what the request carries: an absent field keeps
      its value, a falsy role, email or password keeps the stored one, and
      `createdAt` never changes. */
  lemma UpdateKeepsOmittedFields(d: UserDoc, b: UserBody, now: int)
    ensures var r := UpdatedDoc(d, b, now);
      && (b.name.Undefined? ==> r.name == d.name)
      && (b.number.Undefined? ==> r.number == d.number)
      && (b.extensionId.Undefined? ==> r.extensionId == d.extensionId)
      && (b.host.Undefined? ==> r.host == d.host)
      && (b.port.Undefined? ==> r.port == d.port)
      && (b.secret.Undefined? ==> r.secret == d.secret)
      && (!Truthy(b.email) ==> r.email == d.email)
      && (!Truthy(b.role) ==> r.role == d.role)
      && (!Truthy(b.password) ==> r.password == d.password)
      && r.createdAt == d.createdAt
  {
  }

  /** A present field, or a truthy email, role or password, is stored as sent
      (an explicit "" clears a text field). */
  lemma UpdateStoresGivenFields(d: UserDoc, b: UserBody, now: int)
    ensures var r := UpdatedDoc(d, b, now);
      && (!b.name.Undefined? ==> r.name == b.name)
      && (!b.number.Undefined? ==> r.number == b.number)
      && (!b.extensionId.Undefined? ==> r.extensionId == b.extensionId)
      && (!b.host.Undefined? ==> r.host == b.host)
      && (!b.port.Undefined? ==> r.port == b.port)
      && (!b.secret.Undefined? ==> r.secret == b.secret)
      && (Truthy(b.email) ==> r.email == b.email)
      && (Truthy(b.role) ==> r.role == b.role)
      && (Truthy(b.password) ==> r.password == b.password)
  {
  }

  /** Sending the same PUT body twice stores the same document as sending it
      once: the second save changes nothing, so not even `updatedAt`. */
  lemma {:induction false} UpdateIdempotent(d: UserDoc, b: UserBody, t1: int, t2: int)
    ensures UpdatedDoc(UpdatedDoc(d, b, t1), b, t2) == UpdatedDoc(d, b, t1)
  {
    var once := UpdatedDoc(d, b, t1);
    UpdateStoresGivenFields(d, b, t1);
    UpdateKeepsOmittedFields(d, b, t1);
    UpdateStoresGivenFields(once, b, t2);
    UpdateKeepsOmittedFields(once, b, t2);
  }

  /** GET's order: newest `createdAt` first. */
  ghost predicate NewestFirst(s: seq<PublicUser>) {
    forall i, j :: 0 <= i < j < |s| ==> s[i].createdAt >= s[j].createdAt
  }

  ghost predicate DistinctIds(s: seq<PublicUser>) {
    forall i, j :: 0 <= i < j < |s| ==> s[i].id != s[j].id
  }

  /** `s` is the GET response for `users`: every stored user exactly once,
      sanitized, newest first. */
  ghost predicate ListsStore(s: seq<PublicUser>, users: map<Id, UserDoc>) {
    && NewestFirst(s)
    && DistinctIds(s)
    && (forall x :: x in s ==> x.id in users && x == Sanitize(x.id, users[x.id]))
    && (forall id :: id in users ==> Sanitize(id, users[id]) in s)
  }

  /** How many users of a newest-first list were created strictly after `u`. */
  function InsertionPoint(s: seq<PublicUser>, u: PublicUser): (k: nat)
    ensures k <= |s|
    ensures forall i :: 0 <= i < k ==> s[i].createdAt > u.createdAt
    ensures k < |s| ==> s[k].createdAt <= u.createdAt
  {
    if s == [] || u.createdAt >= s[0].createdAt then 0 else 1 + InsertionPoint(s[1..], u)
  }

  /** Puts `u` into a newest-first list, ahead of every user created no later. */
  function InsertNewestFirst(s: seq<PublicUser>, u: PublicUser): (r: seq<PublicUser>)
    requires NewestFirst(s)
    ensures NewestFirst(r)
    ensures multiset(r) == multiset(s) + multiset{u}
    ensures forall x :: x in r <==> x in s || x == u
  {
    var k := InsertionPoint(s, u);
    SpliceKeepsNewestFirst(s, u, k);
    SpliceAddsOne(s, u, k);
    s[..k] + [u] + s[k..]
  }

  /** Splicing `u` in where everything before is newer and everything after
      no newer keeps the list newest first. */
  lemma SpliceKeepsNewestFirst(s: seq<PublicUser>, u: PublicUser, k: nat)
    requires NewestFirst(s) && k <= |s|
    requires forall i :: 0 <= i < k ==> s[i].createdAt > u.createdAt
    requires k < |s| ==> s[k].createdAt <= u.createdAt
    ensures NewestFirst(s[..k] + [u] + s[k..])
  {
    var r := s[..k] + [u] + s[k..];
    forall i, j | 0 <= i < j < |r|
      ensures r[i].createdAt >= r[j].createdAt
    {
      if j < k {
        assert r[i] == s[i] && r[j] == s[j];
      } else if j == k {
        assert r[i] == s[i];
      } else if i < k {
        assert r[i] == s[i] && r[j] == s[j - 1];
      } else if i == k {
        assert r[j] == s[j - 1];
      } else {
        assert r[i] == s[i - 1] && r[j] == s[j - 1];
      }
    }
  }

  /** Splicing `u` into `s` adds that one user and nothing else. */
  lemma SpliceAddsOne(s: seq<PublicUser>, u: PublicUser, k: nat)
    requires k <= |s|
    ensures multiset(s[..k] + [u] + s[k..]) == multiset(s) + multiset{u}
    ensures forall x :: x in s[..k] + [u] + s[k..] <==> x in s || x == u
  {
    assert s == s[..k] + s[k..];
    var r := s[..k] + [u] + s[k..];
    assert multiset(r) == multiset(s[..k]) + multiset{u} + multiset(s[k..]);
    forall x ensures x in r <==> x in s || x == u {
      assert x in r <==> x in multiset(r);
      assert x in s <==> x in multiset(s);
    }
  }

  lemma InsertKeepsDistinct(s: seq<PublicUser>, u: PublicUser, k: nat)
    requires DistinctIds(s) && k <= |s|
    requires forall x :: x in s ==> x.id != u.id
    ensures DistinctIds(s[..k] + [u] + s[k..])
  {
    var r := s[..k] + [u] + s[k..];
    forall i, j | 0 <= i < j < |r|
      ensures r[i].id != r[j].id
    {
      var si := if i < k then i else i - 1;
      var sj := if j < k then j else j - 1;
      if i == k {
        assert r[j] == s[sj];
      } else if j == k {
        assert r[i] == s[si];
      } else {
        assert r[i] == s[si] && r[j] == s[sj] && si < sj;
      }
    }
  }

  /** PUT's assignments one field at a time, on the fetched document. */
  method AssignFields(d: UserDoc, body: UserBody) returns (user: UserDoc)
    ensures user == AssignedFields(d, body)
  {
    user := d;
    if Truthy(body.email) { user := user.(email := body.email); }
    if !body.name.Undefined? { user := user.(name := body.name); }
    if Truthy(body.role) { user := user.(role := body.role); }
    if !body.number.Undefined? { user := user.(number := body.number); }
    if !body.extensionId.Undefined? { user := user.(extensionId := body.extensionId); }
    if !body.host.Undefined? { user := user.(host := body.host); }
    if !body.port.Undefined? { user := user.(port := body.port); }
    if !body.secret.Undefined? { user := user.(secret := body.secret); }
    if Truthy(body.password) { user := user.(password := body.password); }
  }

  /** The collection of user documents. */
  class UserStore {
    var users: map<Id, UserDoc>

    /** The invariant POST and PUT keep: no two documents share an email,
        and every document has an email and a role. */
    ghost predicate Valid()
      reads this
    {
      && UniqueEmails(users)
      && forall id :: id in users ==> HasAccount(users[id])
    }

    constructor ()
      ensures users == map[] && Valid()
    {
      users := map[];
    }

    /** GET: the whole collection, sanitized, newest first; 403 for anyone
        but an admin. Ties in `createdAt` come back in no particular order. */
    method List(sessionRole: Value) returns (r: Response<seq<PublicUser>>)
      ensures !IsAdmin(sessionRole) ==> r == Forbidden
      ensures IsAdmin(sessionRole) ==> r.Ok? && ListsStore(r.body, users)
      ensures IsAdmin(sessionRole) && Valid() ==> r.Ok? && forall x :: x in r.body ==> HasEveryField(x)
    {
      if !IsAdmin(sessionRole) {
        return Forbidden;
      }
      var remaining := users.Keys;
      var out: seq<PublicUser> := [];
      while remaining != {}
        invariant remaining <= users.Keys
        invariant NewestFirst(out) && DistinctIds(out)
        invariant forall x :: x in out ==> x.id in users && x.id !in remaining && x == Sanitize(x.id, users[x.id])
        invariant forall id :: id in users && id !in remaining ==> Sanitize(id, users[id]) in out
        decreases remaining
      {
        var id :| id in remaining;
        var u := Sanitize(id, users[id]);
        var next := InsertNewestFirst(out, u);
        InsertKeepsDistinct(out, u, InsertionPoint(out, u));
        out := next;
        remaining := remaining - {id};
      }
      r := Ok(out);
    }

    /** POST: create a user. `newId` is the ObjectId the store hands out for the
        new document, never one already in use. */
    method Create(sessionRole: Value, body: UserBody, newId: Id, now: int) returns (r: Response<PublicUser>)
      requires newId !in users
      modifies this
      ensures !IsAdmin(sessionRole) ==> r == Fail(403, "Forbidden") && users == old(users)
      ensures IsAdmin(sessionRole) && !(Truthy(body.email) && Truthy(body.password)) ==>
        r == Fail(400, "Email and password are required") && users == old(users)
      ensures IsAdmin(sessionRole) && Truthy(body.email) && Truthy(body.password) && EmailTaken(old(users), body.email, None) ==>
        r == Fail(400, "User with this email already exists") && users == old(users)
      ensures IsAdmin(sessionRole) && Truthy(body.email) && Truthy(body.password) && !EmailTaken(old(users), body.email, None) ==>
        users == old(users)[newId := NewDoc(body, now)] && r == Ok(Sanitize(newId, NewDoc(body, now)))
      ensures r.Ok? ==> HasEveryField(r.body)
      ensures old(Valid()) ==> Valid()
    {
      if !IsAdmin(sessionRole) {
        return Fail(403, "Forbidden");
      }
      if !Truthy(body.email) || !Truthy(body.password) {
        return Fail(400, "Email and password are required");
      }
      if EmailTaken(users, body.email, None) {
        return Fail(400, "User with this email already exists");
      }
      var doc := NewDoc(body, now);
      users := users[newId := doc];
      r := Ok(Sanitize(newId, doc));
    }

    /** PUT: a partial update of the document `body.id` names. */
    method Update(sessionRole: Value, body: UserBody, now: int) returns (r: Response<PublicUser>)
      modifies this
      ensures !IsAdmin(sessionRole) ==> r == Fail(403, "Forbidden") && users == old(users)
      ensures IsAdmin(sessionRole) && !Truthy(body.id) ==>
        r == Fail(400, "User id is required") && users == old(users)
      ensures IsAdmin(sessionRole) && Truthy(body.id) && FindById(old(users), body.id).CastError? ==>
        r == ServerError && users == old(users)
      ensures IsAdmin(sessionRole) && Truthy(body.id) && FindById(old(users), body.id).NotFound? ==>
        r == Fail(404, "User not found") && users == old(users)
      ensures (IsAdmin(sessionRole) && Truthy(body.id) && FindById(old(users), body.id).Found? && Truthy(body.email)
        && EmailTaken(old(users), body.email, Some(FindById(old(users), body.id).id))) ==>
        r == Fail(400, "Email already in use") && users == old(users)
      ensures (IsAdmin(sessionRole) && Truthy(body.id) && FindById(old(users), body.id).Found?
        && !(Truthy(body.email) && EmailTaken(old(users), body.email, Some(FindById(old(users), body.id).id)))) ==>
        var id := FindById(old(users), body.id).id;
        && users == old(users)[id := UpdatedDoc(old(users)[id], body, now)]
        && r == Ok(Sanitize(id, users[id]))
      ensures old(Valid()) && r.Ok? ==> HasEveryField(r.body)
      ensures old(Valid()) ==> Valid()
    {
      if !IsAdmin(sessionRole) {
        return Fail(403, "Forbidden");
      }
      if !Truthy(body.id) {
        return Fail(400, "User id is required");
      }
      var found := FindById(users, body.id);
      if found.CastError? {
        return ServerError;
      }
      if found.NotFound? {
        return Fail(404, "User not found");
      }
      var id := found.id;
      if Truthy(body.email) && EmailTaken(users, body.email, Some(id)) {
        return Fail(400, "Email already in use");
      }
      var user := AssignFields(users[id], body);
      if user != users[id] {
        user := user.(updatedAt := now);
      }
      users := users[id := user];
      r := Ok(Sanitize(id, user));
    }
  }
}
