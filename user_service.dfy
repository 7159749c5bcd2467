/**
 * src/services/userService.ts over a model of the `users` table: the
 * table is a sequence of rows, a query that fails (an error result or an
 * exception) is a `failed` flag, and every operation returns null (`None`)
 * or `[]` in that case instead of throwing.
 */
module UserService {
  import opened Wrappers
  import opened Lists

  /** A row of `users` (`created_at` and `updated_at` are not modelled). */
  datatype User = User(
    id: string,
    email: string,
    firstName: string,
    lastName: string,
    fullName: string,
    avatarUrl: Option<string>,
    emailNotifications: bool,
    weeklyReports: bool)

  /** The users who opted in: `.eq('weekly_reports', true)`. */
  function Subscribed(): User -> bool {
    (u: User) => u.weeklyReports
  }

  /**
   * `getAllUsersWithWeeklyReports`: exactly the opted-in users, each once
   * per row, in table order; `[]` when the query fails.
   */
  function GetAllUsersWithWeeklyReports(users: seq<User>, failed: bool): (r: seq<User>)
    ensures failed ==> r == []
    ensures forall i :: 0 <= i < |r| ==> r[i].weeklyReports
    ensures !failed ==> forall u :: multiset(r)[u] == if u.weeklyReports then multiset(users)[u] else 0
  {
    if failed then [] else Filter(users, Subscribed())
  }

  /** `.eq('email', email).single()`: the one matching row, or an error when there are none or several. */
  function Single(users: seq<User>, p: User -> bool): (r: Option<User>)
    ensures r.Some? <==> |Filter(users, p)| == 1
    ensures r.Some? ==> p(r.value) && r.value in users
  {
    var matches := Filter(users, p);
    if |matches| == 1 then
      assert multiset(matches)[matches[0]] > 0;
      Some(matches[0])
    else None
  }

  function HasEmail(email: string): User -> bool {
    (u: User) => u.email == email
  }

  /** `getUserByEmail`: the single user with that address; null when there is none, several, or the query fails. */
  function GetUserByEmail(users: seq<User>, email: string, failed: bool): (r: Option<User>)
    ensures r.Some? <==> !failed && |Filter(users, HasEmail(email))| == 1
    ensures r.Some? ==> r.value.email == email && r.value in users
  {
    if failed then None else Single(users, HasEmail(email))
  }

  datatype CreateUserData = CreateUserData(email: string, firstName: string, lastName: string, avatarUrl: Option<string>)

  /**
   * The columns the database fills in itself on insert: the id, the full
   * name and the two notification flags.
   */
  datatype ColumnDefaults = ColumnDefaults(id: string, fullName: string, emailNotifications: bool, weeklyReports: bool)

  /** The table after a write, and what the service returns. */
  datatype Written = Written(users: seq<User>, result: Option<User>)

  /** `createUser`: insert the four given columns; on failure nothing is inserted and the result is null. */
  function CreateUser(users: seq<User>, data: CreateUserData, filled: ColumnDefaults, failed: bool): (w: Written)
    ensures failed ==> w == Written(users, None)
    ensures !failed ==> w.result.Some? && w.users == users + [w.result.value]
    ensures !failed ==> var u := w.result.value;
      u.email == data.email && u.firstName == data.firstName && u.lastName == data.lastName
      && u.avatarUrl == data.avatarUrl && u.id == filled.id
  {
    if failed then Written(users, None)
    else
      var u := User(filled.id, data.email, data.firstName, data.lastName, filled.fullName,
                    data.avatarUrl, filled.emailNotifications, filled.weeklyReports);
      Written(users + [u], Some(u))
  }

  /** The input of `updateUser`; an absent field is `None`. */
  datatype UpdateUserData = UpdateUserData(
    firstName: Option<string>,
    lastName: Option<string>,
    avatarUrl: Option<string>,
    emailNotifications: Option<bool>,
    weeklyReports: Option<bool>)

  /** A column value of the update record. */
  datatype Column = Text(text: string) | Flag(flag: bool)

  /** A string field is copied only when it is truthy: present and non-empty. */
  predicate Truthy(s: Option<string>) {
    s.Some? && s.value != ""
  }

  const UpdatableColumns: set<string> :=
    {"first_name", "last_name", "avatar_url", "email_notifications", "weekly_reports"}

  /**
   * The `updateData` record of `updateUser`, built one field at a time:
   * the three strings when truthy, the two flags whenever they are
   * defined, `false` included, and no other column.
   */
  method BuildUpdateData(data: UpdateUserData) returns (m: map<string, Column>)
    ensures m.Keys <= UpdatableColumns
    ensures "first_name" in m <==> Truthy(data.firstName)
    ensures "last_name" in m <==> Truthy(data.lastName)
    ensures "avatar_url" in m <==> Truthy(data.avatarUrl)
    ensures "email_notifications" in m <==> data.emailNotifications.Some?
    ensures "weekly_reports" in m <==> data.weeklyReports.Some?
    ensures "first_name" in m ==> m["first_name"] == Text(data.firstName.value)
    ensures "last_name" in m ==> m["last_name"] == Text(data.lastName.value)
    ensures "avatar_url" in m ==> m["avatar_url"] == Text(data.avatarUrl.value)
    ensures "email_notifications" in m ==> m["email_notifications"] == Flag(data.emailNotifications.value)
    ensures "weekly_reports" in m ==> m["weekly_reports"] == Flag(data.weeklyReports.value)
    ensures data == UpdateUserData(None, None, None, None, None) ==> m == map[]
  {
    m := map[];
    if Truthy(data.firstName) {
      m := m["first_name" := Text(data.firstName.value)];
    }
    if Truthy(data.lastName) {
      m := m["last_name" := Text(data.lastName.value)];
    }
    if Truthy(data.avatarUrl) {
      m := m["avatar_url" := Text(data.avatarUrl.value)];
    }
    if data.emailNotifications.Some? {
      m := m["email_notifications" := Flag(data.emailNotifications.value)];
    }
    if data.weeklyReports.Some? {
      m := m["weekly_reports" := Flag(data.weeklyReports.value)];
    }
  }

  /** The update record applied to a row: each column present in `m` overwrites its field. */
  function ApplyUpdate(u: User, m: map<string, Column>): (v: User)
    ensures v.id == u.id && v.email == u.email && v.fullName == u.fullName
    ensures m == map[] ==> v == u
  {
    u.(firstName := if "first_name" in m && m["first_name"].Text? then m["first_name"].text else u.firstName,
       lastName := if "last_name" in m && m["last_name"].Text? then m["last_name"].text else u.lastName,
       avatarUrl := if "avatar_url" in m && m["avatar_url"].Text? then Some(m["avatar_url"].text) else u.avatarUrl,
       emailNotifications :=
         if "email_notifications" in m && m["email_notifications"].Flag? then m["email_notifications"].flag
         else u.emailNotifications,
       weeklyReports :=
         if "weekly_reports" in m && m["weekly_reports"].Flag? then m["weekly_reports"].flag else u.weeklyReports)
  }

  /** Index of the first row with id `id`, if any. */
  function IndexOfId(users: seq<User>, id: string): (r: Option<nat>)
    ensures r.Some? ==> r.value < |users| && users[r.value].id == id
    ensures r.None? ==> forall i :: 0 <= i < |users| ==> users[i].id != id
  {
    if users == [] then None
    else if users[0].id == id then Some(0)
    else match IndexOfId(users[1..], id)
      case Some(k) => Some(k + 1)
      case None => None
  }

  /**
   * `updateUser`: build the update record and apply it to the row with id
   * `userId`. Ids are the table's key, so the first match is the only one.
   * With no such row `.single()` fails; then, as on any failure, the
   * table is unchanged and the result is null.
   */
  method UpdateUser(users: seq<User>, userId: string, data: UpdateUserData, failed: bool)
    returns (w: Written)
    ensures failed || IndexOfId(users, userId).None? ==> w == Written(users, None)
    ensures !failed && IndexOfId(users, userId).Some? ==>
      var i := IndexOfId(users, userId).value;
      && w.result.Some? && w.result.value.id == userId
      && |w.users| == |users| && w.users[i] == w.result.value
      && (forall j :: 0 <= j < |users| && j != i ==> w.users[j] == users[j])
    ensures !failed && IndexOfId(users, userId).Some? ==>
      var (u, v) := (users[IndexOfId(users, userId).value], w.result.value);
      && (v.firstName == if Truthy(data.firstName) then data.firstName.value else u.firstName)
      && (v.lastName == if Truthy(data.lastName) then data.lastName.value else u.lastName)
      && (v.avatarUrl == if Truthy(data.avatarUrl) then data.avatarUrl else u.avatarUrl)
      && v.emailNotifications == data.emailNotifications.GetOr(u.emailNotifications)
      && v.weeklyReports == data.weeklyReports.GetOr(u.weeklyReports)
      && v.email == u.email && v.fullName == u.fullName
  {
    var m := BuildUpdateData(data);
    var found := IndexOfId(users, userId);
    if failed || found.None? {
      return Written(users, None);
    }
    var i := found.value;
    var v := ApplyUpdate(users[i], m);
    w := Written(users[i := v], Some(v));
  }
}
