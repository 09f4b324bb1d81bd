/** The user service: the `auth_users` table with its UNIQUE email, the `user_profiles`
    table keyed by user id, registration, login by exact email and password match, the
    profile query and the one-time admin seed. */
module UserService {
  import opened Common

  const RoleBuyer: string := "BUYER"
  const RoleAdmin: string := "ADMIN"
  const DefaultNama: string := "User"
  const AdminEmail: string := "admin@gmail.com"
  const AdminPassword: string := "nword"
  const AdminNama: string := "Admin"

  /** A row of `auth_users`; the password is stored as given. */
  datatype AuthRow = AuthRow(id: nat, email: string, passwordHash: string, role: string)

  /** A row of `user_profiles`; only `full_name` is ever written by this service. */
  datatype ProfileRow = ProfileRow(
    userId: nat, fullName: Option<string>, phoneNumber: Option<string>,
    addressLine: Option<string>, cityId: Option<string>)

  /** The GraphQL `User`. */
  datatype User = User(id: string, nama: string, email: string, role: string)

  /** The GraphQL `UserProfile`. */
  datatype UserProfile = UserProfile(
    userId: string, fullName: Option<string>, phoneNumber: Option<string>,
    addressLine: Option<string>, cityId: Option<string>)

  /** The GraphQL `UserWithProfile`. */
  datatype UserWithProfile = UserWithProfile(
    id: string, nama: string, email: string, role: string, profile: Option<UserProfile>)

  datatype LoginResponse = LoginResponse(token: string, user: User)

  datatype UserError =
    | EmailSudahTerdaftar      // "Email sudah terdaftar"
    | EmailAtauPasswordSalah   // "Email atau password salah"
    | UserTidakDitemukan       // "User tidak ditemukan"

  /** `profile?.full_name || 'User'`: the profile's name, unless the profile or the name is
      missing or the name is empty. */
  function NamaOf(profile: Option<ProfileRow>): (nama: string)
    ensures nama != ""
    ensures profile.Some? && profile.value.fullName.Some? && profile.value.fullName.value != "" ==>
              nama == profile.value.fullName.value
    ensures profile.None? || profile.value.fullName.None? || profile.value.fullName.value == "" ==>
              nama == DefaultNama
  {
    if profile.Some? && profile.value.fullName.Some? && profile.value.fullName.value != ""
    then profile.value.fullName.value
    else DefaultNama
  }

  /** The user object login builds inline: the auth row's id as a string, its email and
      role, and the name of its profile row. getUserProfile answers the same four fields. */
  function AuthUser(row: AuthRow, profile: Option<ProfileRow>): (u: User)
    ensures u.id == NatToString(row.id) && u.email == row.email && u.role == row.role
    ensures u.nama == NamaOf(profile)
  {
    User(NatToString(row.id), NamaOf(profile), row.email, row.role)
  }

  /** The token login hands out: `user-token-<id>-<clock>`. */
  function Token(id: nat, now: nat): string
  {
    "user-token-" + NatToString(id) + "-" + NatToString(now)
  }

  /** Two digit strings each followed by a dash split a string the same way. */
  lemma DigitsThenDash(x: string, y: string, x2: string, y2: string)
    requires forall i | 0 <= i < |x| :: '0' <= x[i] <= '9'
    requires forall i | 0 <= i < |x2| :: '0' <= x2[i] <= '9'
    requires x + "-" + y == x2 + "-" + y2
    ensures x == x2 && y == y2
  {
    var t, t2 := x + "-" + y, x2 + "-" + y2;
    assert t[|x|] == '-' && t2[|x2|] == '-';
    assert forall i | 0 <= i < |x| :: t[i] == x[i];
    assert forall i | 0 <= i < |x2| :: t2[i] == x2[i];
    assert |x| == |x2|;
    assert x == t[..|x|] && x2 == t2[..|x2|];
    assert y == t[|x| + 1..] && y2 == t2[|x2| + 1..];
  }

  /** A token names its user and its clock reading: two tokens are equal only for the same
      user at the same instant, so users logged in at the same moment get different tokens. */
  lemma TokenInjective(id: nat, now: nat, id2: nat, now2: nat)
    requires Token(id, now) == Token(id2, now2)
    ensures id == id2 && now == now2
  {
    var prefix := "user-token-";
    var rest, rest2 := NatToString(id) + "-" + NatToString(now), NatToString(id2) + "-" + NatToString(now2);
    assert Token(id, now) == prefix + rest;
    assert Token(id2, now2) == prefix + rest2;
    assert rest == (prefix + rest)[|prefix|..] && rest2 == (prefix + rest2)[|prefix|..];
    DigitsThenDash(NatToString(id), NatToString(now), NatToString(id2), NatToString(now2));
    NatToStringInjective(id, id2);
    NatToStringInjective(now, now2);
  }

  /** `SELECT * FROM auth_users WHERE email = ?` */
  function FindByEmail(users: seq<AuthRow>, email: string): (r: Option<AuthRow>)
    ensures r.None? <==> forall u | u in users :: u.email != email
    ensures r.Some? ==> r.value in users && r.value.email == email
  {
    if users == [] then None
    else if users[0].email == email then Some(users[0])
    else FindByEmail(users[1..], email)
  }

  /** `SELECT * FROM auth_users WHERE email = ? AND password_hash = ?` */
  function FindByCredentials(users: seq<AuthRow>, email: string, password: string): (r: Option<AuthRow>)
    ensures r.None? <==> forall u | u in users :: !(u.email == email && u.passwordHash == password)
    ensures r.Some? ==> r.value in users && r.value.email == email && r.value.passwordHash == password
  {
    if users == [] then None
    else if users[0].email == email && users[0].passwordHash == password then Some(users[0])
    else FindByCredentials(users[1..], email, password)
  }

  /** `SELECT * FROM auth_users WHERE id = ?` */
  function FindById(users: seq<AuthRow>, id: int): (r: Option<AuthRow>)
    ensures r.None? <==> forall u | u in users :: u.id != id
    ensures r.Some? ==> r.value in users && r.value.id == id
  {
    if users == [] then None
    else if users[0].id == id then Some(users[0])
    else FindById(users[1..], id)
  }

  /** `SELECT * FROM user_profiles WHERE user_id = ?` */
  function FindProfile(profiles: seq<ProfileRow>, userId: int): (r: Option<ProfileRow>)
    ensures r.None? <==> forall p | p in profiles :: p.userId != userId
    ensures r.Some? ==> r.value in profiles && r.value.userId == userId
  {
    if profiles == [] then None
    else if profiles[0].userId == userId then Some(profiles[0])
    else FindProfile(profiles[1..], userId)
  }

  /** The login query on given tables: fails unless some row matches both the email and the
      password; the answer carries that row's id, email and role, the profile's name and a
      token made from the id and the clock. */
  function LoginOn(users: seq<AuthRow>, profiles: seq<ProfileRow>, email: string, password: string, now: nat)
    : (r: Result<LoginResponse, UserError>)
    ensures r.Failure? <==> forall u | u in users :: !(u.email == email && u.passwordHash == password)
    ensures r.Failure? ==> r.error == EmailAtauPasswordSalah
    ensures r.Success? ==>
              exists u | u in users && u.email == email && u.passwordHash == password ::
                r.value == LoginResponse(Token(u.id, now), AuthUser(u, FindProfile(profiles, u.id)))
  {
    match FindByCredentials(users, email, password)
    case None => Failure(EmailAtauPasswordSalah)
    case Some(u) => Success(LoginResponse(Token(u.id, now), AuthUser(u, FindProfile(profiles, u.id))))
  }

  /** The profile part of getUserProfile: the stored columns, the id as a string. */
  function ToUserProfile(p: ProfileRow): (u: UserProfile)
    ensures u.userId == NatToString(p.userId)
    ensures u.fullName == p.fullName && u.phoneNumber == p.phoneNumber
    ensures u.addressLine == p.addressLine && u.cityId == p.cityId
  {
    UserProfile(NatToString(p.userId), p.fullName, p.phoneNumber, p.addressLine, p.cityId)
  }

  /** The getUserProfile query on given tables. `userId` is `parseInt` of the argument,
      None when that is NaN, which matches no row. */
  function ProfileOn(users: seq<AuthRow>, profiles: seq<ProfileRow>, userId: Option<int>)
    : (r: Result<UserWithProfile, UserError>)
    ensures r.Failure? <==> userId.None? || forall u | u in users :: u.id != userId.value
    ensures r.Failure? ==> r.error == UserTidakDitemukan
    ensures r.Success? ==>
              && r.value.profile.None? == (forall p | p in profiles :: p.userId != userId.value)
              && r.value.id == NatToString(userId.value as nat)
              && r.value.nama == NamaOf(FindProfile(profiles, userId.value))
              && exists u | u in users && u.id == userId.value ::
                   r.value.email == u.email && r.value.role == u.role
    ensures r.Success? && r.value.profile.Some? ==>
              exists p | p in profiles && p.userId == userId.value ::
                && r.value.profile.value == ToUserProfile(p)
                && r.value.profile.value.fullName == p.fullName
                && r.value.profile.value.phoneNumber == p.phoneNumber
                && r.value.profile.value.addressLine == p.addressLine
                && r.value.profile.value.cityId == p.cityId
                && r.value.profile.value.userId == NatToString(userId.value as nat)
    ensures r.Success? ==>
              r.value.profile == (var p := FindProfile(profiles, userId.value);
                                  if p.Some? then Some(ToUserProfile(p.value)) else None)
  {
    if userId.None? then Failure(UserTidakDitemukan)
    else
      match FindById(users, userId.value)
      case None => Failure(UserTidakDitemukan)
      case Some(u) =>
        var profile := FindProfile(profiles, u.id);
        Success(UserWithProfile(NatToString(u.id), NamaOf(profile), u.email, u.role,
                                if profile.Some? then Some(ToUserProfile(profile.value)) else None))
  }

  /** Emails are pairwise different (the UNIQUE column). */
  predicate EmailsUnique(users: seq<AuthRow>)
  {
    forall i, j | 0 <= i < j < |users| :: users[i].email != users[j].email
  }

  /** Both tables under the AUTOINCREMENT counter: user ids increase in insertion order,
      emails are unique, and each profile row belongs to a distinct issued id. */
  ghost predicate TablesValid(users: seq<AuthRow>, profiles: seq<ProfileRow>, nextId: nat)
  {
    && 1 <= nextId
    && (forall i, j | 0 <= i < j < |users| :: users[i].id < users[j].id)
    && (forall i | 0 <= i < |users| :: users[i].id < nextId)
    && EmailsUnique(users)
    && (forall i | 0 <= i < |profiles| :: profiles[i].userId < nextId)
    && (forall i, j | 0 <= i < j < |profiles| :: profiles[i].userId != profiles[j].userId)
  }

  /** A fresh registration can log in at once with the same email and password, and the
      name it is greeted with is the registered one, or 'User' when that was empty. */
  lemma LoginAfterRegister(users: seq<AuthRow>, profiles: seq<ProfileRow>, nextId: nat,
                           nama: string, email: string, password: string, now: nat)
    requires TablesValid(users, profiles, nextId)
    requires FindByEmail(users, email).None?
    ensures var r := LoginOn(users + [AuthRow(nextId, email, password, RoleBuyer)],
                             profiles + [ProfileRow(nextId, Some(nama), None, None, None)],
                             email, password, now);
            r == Success(LoginResponse(Token(nextId, now),
                                       User(NatToString(nextId), if nama == "" then DefaultNama else nama,
                                            email, RoleBuyer)))
  {
    FindCredentialsAppended(users, email, password, AuthRow(nextId, email, password, RoleBuyer));
    FindProfileAppended(profiles, ProfileRow(nextId, Some(nama), None, None, None));
  }

  lemma {:induction false} FindCredentialsAppended(users: seq<AuthRow>, email: string, password: string, row: AuthRow)
    requires forall u | u in users :: u.email != email
    requires row.email == email && row.passwordHash == password
    ensures FindByCredentials(users + [row], email, password) == Some(row)
  {
    if users == [] {
      assert users + [row] == [row];
    } else {
      assert (users + [row])[1..] == users[1..] + [row];
      FindCredentialsAppended(users[1..], email, password, row);
    }
  }

  lemma {:induction false} FindProfileAppended(profiles: seq<ProfileRow>, row: ProfileRow)
    requires forall p | p in profiles :: p.userId != row.userId
    ensures FindProfile(profiles + [row], row.userId) == Some(row)
  {
    if profiles == [] {
      assert profiles + [row] == [row];
    } else {
      assert (profiles + [row])[1..] == profiles[1..] + [row];
      FindProfileAppended(profiles[1..], row);
    }
  }

  /** Registration appends one row to each table and keeps both tables valid. */
  lemma RegisterKeepsTablesValid(users: seq<AuthRow>, profiles: seq<ProfileRow>, nextId: nat,
                                 nama: string, email: string, password: string, role: string)
    requires TablesValid(users, profiles, nextId)
    requires FindByEmail(users, email).None?
    ensures TablesValid(users + [AuthRow(nextId, email, password, role)],
                        profiles + [ProfileRow(nextId, Some(nama), None, None, None)], nextId + 1)
  {
    var users' := users + [AuthRow(nextId, email, password, role)];
    assert forall i | 0 <= i < |users| :: users'[i] == users[i];
    assert forall i | 0 <= i < |users| :: users[i] in users;
  }

  /** The auth and profile tables and their AUTOINCREMENT counter. */
  class UserStore {
    var users: seq<AuthRow>
    var profiles: seq<ProfileRow>
    var nextId: nat

    ghost predicate Valid()
      reads this
    {
      TablesValid(users, profiles, nextId)
    }

    constructor ()
      ensures Valid() && users == [] && profiles == [] && nextId == 1
    {
      users, profiles, nextId := [], [], 1;
    }

    /** initDatabase's seed: the admin account and its profile named 'Admin', only when
        there is no user yet. */
    method SeedAdmin()
      requires Valid()
      modifies this
      ensures Valid()
      ensures old(users) != [] ==> users == old(users) && profiles == old(profiles) && nextId == old(nextId)
      ensures old(users) == [] ==>
                && users == [AuthRow(old(nextId), AdminEmail, AdminPassword, RoleAdmin)]
                && profiles == old(profiles) + [ProfileRow(old(nextId), Some(AdminNama), None, None, None)]
                && nextId == old(nextId) + 1
    {
      if users != [] {
        return;
      }
      RegisterKeepsTablesValid(users, profiles, nextId, AdminNama, AdminEmail, AdminPassword, RoleAdmin);
      users := users + [AuthRow(nextId, AdminEmail, AdminPassword, RoleAdmin)];
      profiles := profiles + [ProfileRow(nextId, Some(AdminNama), None, None, None)];
      nextId := nextId + 1;
    }

    /** register: "Email sudah terdaftar" when the email exists; otherwise one auth row with
        role BUYER and one profile row whose full_name is `nama`, answering with `nama`. */
    method Register(nama: string, email: string, password: string) returns (r: Result<User, UserError>)
      requires Valid()
      modifies this
      ensures Valid()
      ensures FindByEmail(old(users), email).Some? ==>
                r == Failure(EmailSudahTerdaftar)
                && users == old(users) && profiles == old(profiles) && nextId == old(nextId)
      ensures FindByEmail(old(users), email).None? ==>
                && users == old(users) + [AuthRow(old(nextId), email, password, RoleBuyer)]
                && profiles == old(profiles) + [ProfileRow(old(nextId), Some(nama), None, None, None)]
                && nextId == old(nextId) + 1
                && r == Success(User(NatToString(old(nextId)), nama, email, RoleBuyer))
    {
      var existing := FindByEmail(users, email);
      if existing.Some? {
        return Failure(EmailSudahTerdaftar);
      }
      RegisterKeepsTablesValid(users, profiles, nextId, nama, email, password, RoleBuyer);
      var userId := nextId;
      users := users + [AuthRow(userId, email, password, RoleBuyer)];
      nextId := nextId + 1;
      profiles := profiles + [ProfileRow(userId, Some(nama), None, None, None)];
      var user := FindById(users, userId);
      assert users[|users| - 1].id == userId;
      r := Success(User(NatToString(user.value.id), nama, user.value.email, user.value.role));
    }

    /** login, with the clock reading for the token passed in. */
    function Login(email: string, password: string, now: nat): (r: Result<LoginResponse, UserError>)
      reads this
      ensures r.Success? <==> exists u | u in users :: u.email == email && u.passwordHash == password
      ensures r.Success? ==> r.value.user.email == email
    {
      LoginOn(users, profiles, email, password, now)
    }

    /** getUserProfile, with `parseInt` of the argument passed in (None for NaN). */
    function GetUserProfile(userId: Option<int>): (r: Result<UserWithProfile, UserError>)
      reads this
      ensures r.Failure? <==> userId.None? || forall u | u in users :: u.id != userId.value
      ensures r.Failure? ==> r.error == UserTidakDitemukan
      ensures r.Success? ==>
                && r.value.id == NatToString(userId.value as nat)
                && r.value.nama == NamaOf(FindProfile(profiles, userId.value))
                && (exists u | u in users && u.id == userId.value ::
                      r.value.email == u.email && r.value.role == u.role)
                && r.value.profile.None? == (forall p | p in profiles :: p.userId != userId.value)
      ensures r.Success? && r.value.profile.Some? ==>
                exists p | p in profiles && p.userId == userId.value ::
                  && r.value.profile.value.userId == NatToString(userId.value as nat)
                  && r.value.profile.value.fullName == p.fullName
                  && r.value.profile.value.phoneNumber == p.phoneNumber
                  && r.value.profile.value.addressLine == p.addressLine
                  && r.value.profile.value.cityId == p.cityId
    {
      ProfileOn(users, profiles, userId)
    }
  }
}
