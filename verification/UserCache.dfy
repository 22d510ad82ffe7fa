/** The cached form of a loaded user, and the key/value cache that holds it. */
module UserCache {
  import opened Wrappers
  import opened Entities
  import Text

  /** The keys of the serialised objects. */
  datatype FieldName = IdKey | EmailKey | UsernameKey | PasswordHashKey | DisplayNameKey | IsActiveKey | IsSuperuserKey
    | EmailVerifiedAtKey | VisitorIdKey | CreatedAtKey | UpdatedAtKey | RolesKey
    | ResourceKey | ActionKey | DescriptionKey | NameKey | PermissionsKey

  datatype Json =
    | JNull
    | JBool(flag: bool)
    | JInt(number: int)
    | JText(text: string)
    | JArray(items: seq<Json>)
    | JObject(fields: map<FieldName, Json>)

  /** `isoformat` and `fromisoformat`. */
  datatype TimeFormat = TimeFormat(write: Time -> string, parse: string -> Option<Time>)

  ghost predicate Inverts(format: TimeFormat) {
    forall t: Time :: format.parse(format.write(t)) == Some(t)
  }

  function Key(u: UserId): string {
    "auth:user:" + Text.Decimal(u)
  }

  lemma KeyInjective(u: UserId, v: UserId)
    requires Key(u) == Key(v)
    ensures u == v
  {
    assert Key(u)[10..] == Text.Decimal(u);
    assert Key(v)[10..] == Text.Decimal(v);
    Text.DecimalInjective(u, v);
  }

  // ---------------------------------------------------------------- dumps

  function OptionalText(s: Option<string>): Json {
    if s.None? then JNull else JText(s.value)
  }

  function DumpPermission(p: Permission): Json {
    JObject(map[IdKey := JInt(p.id), ResourceKey := JText(p.resource), ActionKey := JText(p.action),
                DescriptionKey := OptionalText(p.description)])
  }

  function DumpPermissions(ps: seq<Permission>): seq<Json> {
    if ps == [] then [] else [DumpPermission(ps[0])] + DumpPermissions(ps[1..])
  }

  function DumpRole(r: Role): Json {
    JObject(map[IdKey := JInt(r.id), NameKey := JText(r.name), DescriptionKey := OptionalText(r.description),
                PermissionsKey := JArray(DumpPermissions(r.permissions))])
  }

  function DumpRoles(rs: seq<Role>): seq<Json> {
    if rs == [] then [] else [DumpRole(rs[0])] + DumpRoles(rs[1..])
  }

  function Dumps(format: TimeFormat, user: User): Json {
    var row := user.row;
    JObject(map[
      IdKey := JInt(user.id),
      EmailKey := JText(row.email),
      UsernameKey := JText(row.username),
      PasswordHashKey := JText(row.passwordHash),
      DisplayNameKey := OptionalText(row.displayName),
      IsActiveKey := JBool(row.isActive),
      IsSuperuserKey := JBool(row.isSuperuser),
      EmailVerifiedAtKey := if row.emailVerifiedAt.None? then JNull else JText(format.write(row.emailVerifiedAt.value)),
      VisitorIdKey := OptionalText(row.visitorId),
      CreatedAtKey := JText(format.write(row.createdAt)),
      UpdatedAtKey := JText(format.write(row.updatedAt)),
      RolesKey := JArray(DumpRoles(user.roles))])
  }

  // ---------------------------------------------------------------- loads

  function Field(j: Json, name: FieldName): Option<Json> {
    if j.JObject? && name in j.fields then Some(j.fields[name]) else None
  }

  function NatField(j: Json, name: FieldName): Option<nat> {
    var v :- Field(j, name);
    if v.JInt? && v.number >= 0 then Some(v.number) else None
  }

  function TextField(j: Json, name: FieldName): Option<string> {
    var v :- Field(j, name);
    if v.JText? then Some(v.text) else None
  }

  function BoolField(j: Json, name: FieldName): Option<bool> {
    var v :- Field(j, name);
    if v.JBool? then Some(v.flag) else None
  }

  function NullableTextField(j: Json, name: FieldName): Option<Option<string>> {
    var v :- Field(j, name);
    if v.JNull? then Some(None) else if v.JText? then Some(Some(v.text)) else None
  }

  function ArrayField(j: Json, name: FieldName): Option<seq<Json>> {
    var v :- Field(j, name);
    if v.JArray? then Some(v.items) else None
  }

  function LoadPermission(j: Json): Option<Permission> {
    var id :- NatField(j, IdKey);
    var resource :- TextField(j, ResourceKey);
    var action :- TextField(j, ActionKey);
    var description :- NullableTextField(j, DescriptionKey);
    Some(Permission(id, resource, action, description))
  }

  function LoadPermissions(js: seq<Json>): Option<seq<Permission>> {
    if js == [] then Some([])
    else
      var first :- LoadPermission(js[0]);
      var rest :- LoadPermissions(js[1..]);
      Some([first] + rest)
  }

  function LoadRole(j: Json): Option<Role> {
    var id :- NatField(j, IdKey);
    var name :- TextField(j, NameKey);
    var description :- NullableTextField(j, DescriptionKey);
    var items :- ArrayField(j, PermissionsKey);
    var permissions :- LoadPermissions(items);
    Some(Role(id, name, description, permissions))
  }

  function LoadRoles(js: seq<Json>): Option<seq<Role>> {
    if js == [] then Some([])
    else
      var first :- LoadRole(js[0]);
      var rest :- LoadRoles(js[1..]);
      Some([first] + rest)
  }

  /** None when a field is missing, has the wrong shape or holds an unreadable time. */
  function Loads(format: TimeFormat, j: Json): Option<User> {
    var id :- NatField(j, IdKey);
    var email :- TextField(j, EmailKey);
    var username :- TextField(j, UsernameKey);
    var passwordHash :- TextField(j, PasswordHashKey);
    var displayName :- NullableTextField(j, DisplayNameKey);
    var isActive :- BoolField(j, IsActiveKey);
    var isSuperuser :- BoolField(j, IsSuperuserKey);
    var verified :- NullableTextField(j, EmailVerifiedAtKey);
    var emailVerifiedAt :- ParseOptional(format, verified);
    var visitorId :- NullableTextField(j, VisitorIdKey);
    var created :- TextField(j, CreatedAtKey);
    var createdAt :- format.parse(created);
    var updated :- TextField(j, UpdatedAtKey);
    var updatedAt :- format.parse(updated);
    var items :- ArrayField(j, RolesKey);
    var roles :- LoadRoles(items);
    Some(User(id, UserRow(email, username, passwordHash, displayName, isActive, isSuperuser, emailVerifiedAt,
                          visitorId, createdAt, updatedAt), roles))
  }

  function ParseOptional(format: TimeFormat, text: Option<string>): Option<Option<Time>> {
    if text.None? then Some(None)
    else
      var t :- format.parse(text.value);
      Some(Some(t))
  }

  // ---------------------------------------------------------------- round trip

  lemma {:induction false} PermissionsRoundTrip(ps: seq<Permission>)
    ensures LoadPermissions(DumpPermissions(ps)) == Some(ps)
  {
    if ps != [] {
      PermissionsRoundTrip(ps[1..]);
      assert LoadPermission(DumpPermission(ps[0])) == Some(ps[0]);
      assert [ps[0]] + ps[1..] == ps;
    }
  }

  lemma RoleRoundTrip(r: Role)
    ensures LoadRole(DumpRole(r)) == Some(r)
  {
    PermissionsRoundTrip(r.permissions);
  }

  lemma {:induction false} RolesRoundTrip(rs: seq<Role>)
    ensures LoadRoles(DumpRoles(rs)) == Some(rs)
  {
    if rs != [] {
      RolesRoundTrip(rs[1..]);
      RoleRoundTrip(rs[0]);
      assert [rs[0]] + rs[1..] == rs;
    }
  }

  lemma TextsRoundTrip(format: TimeFormat, user: User)
    ensures var j, row := Dumps(format, user), user.row;
            && NatField(j, IdKey) == Some(user.id)
            && TextField(j, EmailKey) == Some(row.email)
            && TextField(j, UsernameKey) == Some(row.username)
            && TextField(j, PasswordHashKey) == Some(row.passwordHash)
            && NullableTextField(j, DisplayNameKey) == Some(row.displayName)
  {
  }

  lemma FlagsRoundTrip(format: TimeFormat, user: User)
    ensures var j, row := Dumps(format, user), user.row;
            && BoolField(j, IsActiveKey) == Some(row.isActive)
            && BoolField(j, IsSuperuserKey) == Some(row.isSuperuser)
            && NullableTextField(j, VisitorIdKey) == Some(row.visitorId)
            && ArrayField(j, RolesKey) == Some(DumpRoles(user.roles))
  {
  }

  lemma TimesRoundTrip(format: TimeFormat, user: User)
    requires Inverts(format)
    ensures var j, row := Dumps(format, user), user.row;
            && TextField(j, CreatedAtKey) == Some(format.write(row.createdAt))
            && TextField(j, UpdatedAtKey) == Some(format.write(row.updatedAt))
            && NullableTextField(j, EmailVerifiedAtKey).Some?
            && ParseOptional(format, NullableTextField(j, EmailVerifiedAtKey).value) == Some(row.emailVerifiedAt)
  {
  }

  /** Every user, with all its roles and permissions, survives the cache unchanged. */
  lemma CodecRoundTrip(format: TimeFormat, user: User)
    requires Inverts(format)
    ensures Loads(format, Dumps(format, user)) == Some(user)
  {
    RolesRoundTrip(user.roles);
    TextsRoundTrip(format, user);
    FlagsRoundTrip(format, user);
    TimesRoundTrip(format, user);
  }

  // ---------------------------------------------------------------- the cache

  datatype Entry = Entry(payload: Json, expiresAt: Time)
  type Entries = map<string, Entry>

  /** What `get` returns: an expired entry is absent. */
  function Cached(entries: Entries, key: string, now: Time): Option<Json> {
    if key in entries && now < entries[key].expiresAt then Some(entries[key].payload) else None
  }

  function Put(entries: Entries, key: string, payload: Json, ttlSeconds: nat, now: Time): Entries {
    entries[key := Entry(payload, now + ttlSeconds * SECOND)]
  }

  class Cache {
    var entries: Entries

    constructor ()
      ensures entries == map[]
    {
      entries := map[];
    }

    method Get(key: string, now: Time) returns (r: Option<Json>)
      ensures r == Cached(entries, key, now)
    {
      r := Cached(entries, key, now);
    }

    method Set(key: string, payload: Json, ttlSeconds: nat, now: Time)
      modifies this
      ensures entries == Put(old(entries), key, payload, ttlSeconds, now)
    {
      entries := entries[key := Entry(payload, now + ttlSeconds * SECOND)];
    }

    method Delete(key: string)
      modifies this
      ensures entries == old(entries) - {key}
    {
      entries := entries - {key};
    }
  }
}
