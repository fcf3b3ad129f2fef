/** The authentication and authorization logic: the password check at login, the
    process-wide index from function path prefix to the role ids allowed to use it, the
    login session kept in three session attributes, the decision whether a request path
    may be served, and the register that holds the acting user id for the current
    request. The database, the HTTP session and the per-thread user register are given
    as arguments: table contents as values, the session and the register as objects. */
module Logic {
  import opened Wrappers
  import opened DaoSupport
  import opened Password
  import opened Entity
  import Dao

  /** The checked exception of the logic: wraps NoSuchAlgorithmException and any
      failure while a session is being built. */
  datatype AuthError = AuthenticateException

  /** A row of ROLE_FUNCTIONS: this role may use this function. */
  datatype RoleFunction = RoleFunction(roleId: int, functionKey: string)

  /** What the FUNCTIONS and ROLE_FUNCTIONS tables answer: the keys of all functions
      in the order `selectAll` lists them, and `selectOnFunction` for any key. */
  datatype FunctionCatalog = FunctionCatalog(functionKeys: seq<string>,
                                             selectOnFunction: string -> seq<RoleFunction>)

  /** What login reads about users: the USERS rows by user key (a missing key is a
      null row), the roles of a user key, and the rows a GROUPS query returns. A row is
      a value; `selectOnUserKey` builds a new entity from it on every query. */
  datatype UserDirectory = UserDirectory(usersByKey: map<string, Dao.UserRow>,
                                         rolesByKey: string -> seq<Role>,
                                         groupsFor: Query -> seq<Group>)

  /** The login record kept in the session: the user's row, roles, locale and groups
      as they were when the session was built. */
  datatype LoginedUser = LoginedUser(loginUser: UsersEntity, roles: seq<Role>,
                                     locale: Locale, groups: seq<Group>)

  /** The three session attributes the logic reads and writes (user id, role list,
      login record); None: the attribute is absent. */
  class HttpSession {
    var loginUserId: Option<string>
    var loginRoleIds: Option<seq<Role>>
    var loginUserInfo: Option<LoginedUser>

    constructor ()
      ensures loginUserId.None? && loginRoleIds.None? && loginUserInfo.None?
    {
      loginUserId := None;
      loginRoleIds := None;
      loginUserInfo := None;
    }
  }

  /** The per-request register of the acting user id that the persistence layer
      stamps on the rows it writes. */
  class DbUserPool {
    var user: Option<int>

    constructor ()
      ensures user.None?
    {
      user := None;
    }
  }

  // ----- the authorization index -----

  /** The role ids of ROLE_FUNCTIONS rows, in row order. */
  function RoleIds(rows: seq<RoleFunction>): (ids: seq<int>)
    ensures |ids| == |rows|
    ensures forall i :: 0 <= i < |rows| ==> ids[i] == rows[i].roleId
  {
    if rows == [] then [] else RoleIds(rows[..|rows| - 1]) + [rows[|rows| - 1].roleId]
  }

  /** The index `initLogic` builds: one `put` per function key, in catalog order. It has
      exactly one entry per function key, holding that function's role ids in the order
      `selectOnFunction` returned them. */
  function BuildIndex(keys: seq<string>, selectOnFunction: string -> seq<RoleFunction>)
    : (index: map<string, seq<int>>)
    ensures forall k :: k in index <==> k in keys
    ensures forall k :: k in index ==> index[k] == RoleIds(selectOnFunction(k))
  {
    if keys == [] then map[]
    else
      var last := keys[|keys| - 1];
      BuildIndex(keys[..|keys| - 1], selectOnFunction)[last := RoleIds(selectOnFunction(last))]
  }

  /** `order` lists the keys of `index`: the order in which the hash map's key set
      iterates, which Java leaves unspecified. */
  ghost predicate Enumerates(order: seq<string>, index: map<string, seq<int>>) {
    forall k :: k in order <==> k in index
  }

  /** The first key in iteration order that is a prefix of the path (`startsWith`). */
  function FirstMatch(order: seq<string>, path: string): (r: Option<string>)
    ensures r.Some? ==> r.value in order && r.value <= path
    ensures r.None? <==> forall k :: k in order ==> !(k <= path)
  {
    if order == [] then None
    else if order[0] <= path then Some(order[0])
    else
      assert forall k :: k in order ==> k == order[0] || k in order[1..];
      FirstMatch(order[1..], path)
  }

  /** The key found is the first one of the order that prefixes the path. */
  lemma {:induction false} FirstMatchIsFirst(order: seq<string>, path: string)
    ensures FirstMatch(order, path).Some? ==>
              exists i :: 0 <= i < |order| && order[i] == FirstMatch(order, path).value
                          && forall j :: 0 <= j < i ==> !(order[j] <= path)
  {
    if order != [] && !(order[0] <= path) && FirstMatch(order, path).Some? {
      var tail := order[1..];
      FirstMatchIsFirst(tail, path);
      var i :| 0 <= i < |tail| && tail[i] == FirstMatch(tail, path).value
               && forall j :: 0 <= j < i ==> !(tail[j] <= path);
      assert order[i + 1] == tail[i];
      assert forall j :: 1 <= j < i + 1 ==> order[j] == tail[j - 1];
    }
  }

  /** Conversely, a prefixing key with no prefixing key before it is the one found. */
  lemma {:induction false} FirstMatchAt(order: seq<string>, path: string, i: int)
    requires 0 <= i < |order| && order[i] <= path
    requires forall j :: 0 <= j < i ==> !(order[j] <= path)
    ensures FirstMatch(order, path) == Some(order[i])
  {
    if i > 0 {
      assert !(order[0] <= path);
      var tail := order[1..];
      assert forall j :: 0 <= j < i - 1 ==> tail[j] == order[j + 1];
      FirstMatchAt(tail, path, i - 1);
    }
  }

  /** Some role of the session holds one of the role ids a function allows. */
  predicate SharesRole(roles: seq<Role>, allowed: seq<int>) {
    exists i :: 0 <= i < |roles| && roles[i].roleId in allowed
  }

  /** The authorization rule: a path no configured function prefixes is open to all;
      otherwise the first matching function decides, and it admits a logged-in user
      who holds one of its roles. */
  function Decide(index: map<string, seq<int>>, order: seq<string>, path: string,
                  info: Option<LoginedUser>): bool
    requires Enumerates(order, index)
  {
    match FirstMatch(order, path)
    case None => true
    case Some(k) => info.Some? && SharesRole(info.value.roles, index[k])
  }

  /** Fail-open: a path that no configured function key prefixes is allowed, with or
      without a login. */
  lemma UnconfiguredPathIsOpen(index: map<string, seq<int>>, order: seq<string>, path: string,
                               info: Option<LoginedUser>)
    requires Enumerates(order, index)
    requires forall k :: k in index ==> !(k <= path)
    ensures Decide(index, order, path, info)
  {
  }

  /** A path some configured function key prefixes is refused without a login. */
  lemma ConfiguredPathNeedsLogin(index: map<string, seq<int>>, order: seq<string>, path: string,
                                 k: string)
    requires Enumerates(order, index)
    requires k in index && k <= path
    ensures !Decide(index, order, path, None)
  {
  }

  /** With a login, a configured path is allowed exactly when the session shares a role
      with the function its first matching key names. */
  lemma LoggedInDecision(index: map<string, seq<int>>, order: seq<string>, path: string,
                         info: LoginedUser)
    requires Enumerates(order, index)
    requires exists k :: k in index && k <= path
    ensures FirstMatch(order, path).Some?
    ensures Decide(index, order, path, Some(info))
            <==> SharesRole(info.roles, index[FirstMatch(order, path).value])
  {
  }

  /** When only one configured key prefixes the path, the iteration order of the hash
      map does not change the decision. */
  lemma {:induction false} OrderIrrelevantWithoutOverlap(index: map<string, seq<int>>,
                                                        order1: seq<string>, order2: seq<string>,
                                                        path: string, info: Option<LoginedUser>)
    requires Enumerates(order1, index) && Enumerates(order2, index)
    requires forall k1, k2 :: k1 in index && k2 in index && k1 <= path && k2 <= path ==> k1 == k2
    ensures Decide(index, order1, path, info) == Decide(index, order2, path, info)
  {
    var m1, m2 := FirstMatch(order1, path), FirstMatch(order2, path);
    if m1.Some? {
      assert m2.Some?;
    } else {
      assert m2.None?;
    }
  }

  /** With overlapping keys the iteration order of the hash map decides: "/a" admits
      role 1 and "/a/b" role 2, so a role-1 session is let into "/a/b/c" when "/a" comes
      first and refused when "/a/b" does. */
  lemma OverlapMakesOrderMatter(u: UsersEntity, locale: Locale)
    ensures var index := map["/a" := [1], "/a/b" := [2]];
            var info := Some(LoginedUser(u, [Role(1, "a")], locale, []));
            Decide(index, ["/a", "/a/b"], "/a/b/c", info)
            && !Decide(index, ["/a/b", "/a"], "/a/b/c", info)
  {
    var index := map["/a" := [1], "/a/b" := [2]];
    assert "/a" <= "/a/b/c" && "/a/b" <= "/a/b/c";
    FirstMatchAt(["/a", "/a/b"], "/a/b/c", 0);
    FirstMatchAt(["/a/b", "/a"], "/a/b/c", 0);
    var roles := [Role(1, "a")];
    assert roles[0].roleId in index["/a"];
    assert !SharesRole(roles, index["/a/b"]) by {
      forall i | 0 <= i < |roles| ensures roles[i].roleId !in [2] {
      }
    }
  }

  /** The worked example: function "/admin/" allowed to role 1; a session with roles 2
      and 3 is refused "/admin/users", a session with roles 1 and 3 is let in. */
  lemma AdminExample(u: UsersEntity, locale: Locale)
    ensures var index := map["/admin/" := [1]];
            !Decide(index, ["/admin/"], "/admin/users",
                    Some(LoginedUser(u, [Role(2, "b"), Role(3, "c")], locale, [])))
    ensures var index := map["/admin/" := [1]];
            Decide(index, ["/admin/"], "/admin/users",
                   Some(LoginedUser(u, [Role(1, "a"), Role(3, "c")], locale, [])))
  {
    var index := map["/admin/" := [1]];
    assert "/admin/" <= "/admin/users";
    assert FirstMatch(["/admin/"], "/admin/users") == Some("/admin/");
    var refused := [Role(2, "b"), Role(3, "c")];
    assert !SharesRole(refused, index["/admin/"]) by {
      forall i | 0 <= i < |refused| ensures refused[i].roleId !in [1] {
      }
    }
    var admitted := [Role(1, "a"), Role(3, "c")];
    assert admitted[0].roleId in index["/admin/"];
  }

  // ----- the password check -----

  /** The credential `selectOnUserKey` finds for a user key (None: a null row). */
  function StoredCredential(users: map<string, Dao.UserRow>, userKey: string): Option<Credential> {
    if userKey in users then Some(Credential(users[userKey].password, users[userKey].salt)) else None
  }

  /** The entity `selectOnUserKey` builds from a row: a new object holding the row's
      columns, with neither flag set. */
  method LoadUser(row: Dao.UserRow) returns (entity: UsersEntity)
    ensures fresh(entity)
    ensures Dao.UsersDao.RowOf(entity) == row
    ensures !entity.encrypted && !entity.admin
  {
    entity := new UsersEntity(row.userId, row.userKey, row.userName, row.password,
                              row.salt, row.localeKey);
  }

  /** The answer of `auth` for a stored credential (None: no such user). */
  function AuthOutcome(stored: Option<Credential>, password: string, iterations: int, stretch: Stretch)
    : Result<bool, AuthError>
  {
    match stored
    case None => Ok(false)
    case Some(c) =>
      match Verify(c, password, iterations, stretch)
      case None => Err(AuthenticateException)
      case Some(b) => Ok(b)
  }

  /** Login succeeds exactly when the user exists and the stretch of the submitted
      password with the stored salt and the configured iteration count equals the stored
      password; a missing user and a wrong password give the same `false`. */
  lemma AuthAcceptsExactlyMatchingPassword(stored: Option<Credential>, password: string,
                                           iterations: int, stretch: Stretch)
    ensures AuthOutcome(stored, password, iterations, stretch) == Ok(true)
            <==> stored.Some? && stretch(password, stored.value.salt, iterations) == Some(stored.value.password)
    ensures stored.None? ==> AuthOutcome(stored, password, iterations, stretch) == Ok(false)
    ensures AuthOutcome(stored, password, iterations, stretch).Err?
            <==> stored.Some? && stretch(password, stored.value.salt, iterations).None?
  {
  }

  /** A user inserted with a plaintext password through the users DAO can log in with
      that password, provided the configured iteration count has not changed since. */
  lemma InsertedUserCanLogIn(c: Credential, newSalt: string, iterations: int, stretch: Stretch)
    requires stretch(c.password, newSalt, iterations).Some?
    ensures Guard(c, false, newSalt, iterations, stretch).Some?
    ensures AuthOutcome(Guard(c, false, newSalt, iterations, stretch), c.password, iterations, stretch)
            == Ok(true)
  {
    GuardThenVerify(c, newSalt, iterations, stretch);
  }

  class AuthenticationLogic {
    /** Function key to the role ids allowed to use the function. */
    var roleRequireFunctionList: map<string, seq<int>>
    /** The index has been loaded. */
    var init: bool

    constructor ()
      ensures !init && roleRequireFunctionList == map[]
    {
      roleRequireFunctionList := map[];
      init := false;
    }

    /** The index once `initLogic` has run with this catalog. */
    function LoadedIndex(catalog: FunctionCatalog): map<string, seq<int>>
      reads this
    {
      if init then roleRequireFunctionList else BuildIndex(catalog.functionKeys, catalog.selectOnFunction)
    }

    /** Loads the index from the function tables the first time; later calls keep it,
        whatever the tables hold then. */
    method InitLogic(catalog: FunctionCatalog)
      modifies this
      ensures init
      ensures old(init) ==> roleRequireFunctionList == old(roleRequireFunctionList)
      ensures !old(init) ==> roleRequireFunctionList == BuildIndex(catalog.functionKeys, catalog.selectOnFunction)
    {
      if !init {
        var index: map<string, seq<int>> := map[];
        var keys := catalog.functionKeys;
        var i := 0;
        while i < |keys|
          invariant 0 <= i <= |keys|
          invariant index == BuildIndex(keys[..i], catalog.selectOnFunction)
        {
          var functionKey := keys[i];
          var rows := catalog.selectOnFunction(functionKey);
          var roles: seq<int> := [];
          var j := 0;
          while j < |rows|
            invariant 0 <= j <= |rows|
            invariant roles == RoleIds(rows[..j])
          {
            roles := roles + [rows[j].roleId];
            j := j + 1;
            assert rows[..j][..j - 1] == rows[..j - 1];
          }
          assert rows[..j] == rows;
          index := index[functionKey := roles];
          i := i + 1;
          assert keys[..i][..i - 1] == keys[..i - 1];
        }
        assert keys[..i] == keys;
        roleRequireFunctionList := index;
        init := true;
      }
    }

    /** Checks a password at login. `users` holds the USERS rows by user key,
        `iterations` the configured hash iteration count. */
    method Auth(catalog: FunctionCatalog, users: map<string, Dao.UserRow>, userId: string,
                password: string, iterations: int, stretch: Stretch)
      returns (r: Result<bool, AuthError>)
      modifies this
      ensures init && roleRequireFunctionList == old(LoadedIndex(catalog))
      ensures r == AuthOutcome(StoredCredential(users, userId), password, iterations, stretch)
    {
      if !init {
        InitLogic(catalog);
      }
      if userId in users {
        var usersEntity := LoadUser(users[userId]);
        var hash := stretch(password, usersEntity.salt, iterations);
        if hash.None? {
          return Err(AuthenticateException);
        }
        if usersEntity.password == hash.value {
          return Ok(true);
        }
      }
      return Ok(false);
    }

    /** The login record of the session, if any. */
    function GetSession(session: HttpSession): Option<LoginedUser>
      reads session
    {
      session.loginUserInfo
    }

    /** Puts the logged-in user's id into the request's register. A session without a
        login record is a null dereference in the source, so callers check first. */
    method SetDBUser(session: HttpSession, pool: DbUserPool)
      requires GetSession(session).Some?
      modifies pool
      ensures pool.user == Some(GetSession(session).value.loginUser.userId)
    {
      var loginedUser := GetSession(session).value;
      pool.user := Some(loginedUser.loginUser.userId);
    }

    /** A request is logged in when its session holds a login record; the register is
        set to that user's id, or cleared when there is no record. */
    method IsLogined(session: HttpSession, pool: DbUserPool) returns (b: bool)
      modifies pool
      ensures b <==> GetSession(session).Some?
      ensures b ==> pool.user == Some(GetSession(session).value.loginUser.userId)
      ensures !b ==> pool.user.None?
    {
      if GetSession(session).Some? {
        SetDBUser(session, pool);
        return true;
      } else {
        pool.user := None;
      }
      return false;
    }

    /** Builds the login session of `userId`: the id attribute, the role list attribute
        and the login record, with the user's row, roles, the request locale and the
        groups of `selectMyGroup(user, 0, Integer.MAX_VALUE)`; then sets the register.
        For a user key without a row, the record cannot be built: the id and role
        attributes are already written, the record and the register are left as they
        were, and the call fails. */
    method SetSession(userId: string, directory: UserDirectory, requestLocale: Locale,
                      session: HttpSession, pool: DbUserPool)
      returns (outcome: Outcome<AuthError>)
      modifies session, pool
      ensures session.loginUserId == Some(userId)
      ensures session.loginRoleIds == Some(directory.rolesByKey(userId))
      ensures userId !in directory.usersByKey ==>
                outcome == Fail(AuthenticateException)
                && session.loginUserInfo == old(session.loginUserInfo) && pool.user == old(pool.user)
      ensures userId in directory.usersByKey ==>
                var row := directory.usersByKey[userId];
                outcome == Pass
                && GetSession(session).Some?
                && var u := GetSession(session).value.loginUser;
                   fresh(u) && Dao.UsersDao.RowOf(u) == row && !u.encrypted && !u.admin
                   && GetSession(session) == Some(LoginedUser(
                        u, directory.rolesByKey(userId), requestLocale,
                        directory.groupsFor(Dao.GroupsDao.SelectMyGroup(row.userId, 0, IntMax))))
                   && session.loginRoleIds == Some(GetSession(session).value.roles)
                   && pool.user == Some(row.userId)
    {
      session.loginUserId := Some(userId);
      var rolesEntities := directory.rolesByKey(userId);
      session.loginRoleIds := Some(rolesEntities);
      if userId !in directory.usersByKey {
        return Fail(AuthenticateException);
      }
      var usersEntity := LoadUser(directory.usersByKey[userId]);
      var groups := directory.groupsFor(Dao.GroupsDao.SelectMyGroup(usersEntity.userId, 0, IntMax));
      session.loginUserInfo := Some(LoginedUser(usersEntity, rolesEntities, requestLocale, groups));
      SetDBUser(session, pool);
      return Pass;
    }

    /** Removes all three session attributes, so no part of a login survives. */
    method ClearSession(session: HttpSession)
      modifies session
      ensures session.loginUserId.None? && session.loginRoleIds.None?
      ensures GetSession(session).None?
    {
      session.loginUserId := None;
      session.loginRoleIds := None;
      session.loginUserInfo := None;
    }

    /** Decides whether the request for `path` may be served. The index is loaded first
        if need be; `keyOrder` is the order its hash map iterates the keys in. */
    method IsAuthorize(catalog: FunctionCatalog, path: string, keyOrder: seq<string>,
                       session: HttpSession)
      returns (allowed: bool)
      requires Enumerates(keyOrder, LoadedIndex(catalog))
      modifies this
      ensures init && roleRequireFunctionList == old(LoadedIndex(catalog))
      ensures allowed == Decide(roleRequireFunctionList, keyOrder, path, GetSession(session))
    {
      if !init {
        InitLogic(catalog);
      }
      var i := 0;
      while i < |keyOrder|
        invariant 0 <= i <= |keyOrder|
        invariant FirstMatch(keyOrder, path) == FirstMatch(keyOrder[i..], path)
      {
        var functionKey := keyOrder[i];
        if functionKey <= path {
          var loginedUser := GetSession(session);
          if loginedUser.None? {
            return false;
          }
          var accessRoles := roleRequireFunctionList[functionKey];
          var userRoles := loginedUser.value.roles;
          var j := 0;
          while j < |userRoles|
            invariant 0 <= j <= |userRoles|
            invariant forall m :: 0 <= m < j ==> userRoles[m].roleId !in accessRoles
          {
            if userRoles[j].roleId in accessRoles {
              return true;
            }
            j := j + 1;
          }
          return false;
        }
        assert keyOrder[i..][1..] == keyOrder[i + 1..];
        i := i + 1;
      }
      return true;
    }
  }
}
