# Login, session and path authorization of the web support library

This project models, in Dafny, the authentication core of the `org.support.project.web`
library:

- how a password is stored: the users DAO's encryption guard stretches the plaintext with a
  fresh salt unless the entity is marked as already encrypted;
- how a password is checked at login (`auth`);
- the process-wide authorization index. It maps a function path prefix to the role ids
  allowed to use that function. `initLogic` loads it once from the function tables;
- the login session, kept in three session attributes: user id, role list and login record;
- the per-request decision `isAuthorize`. A path that no configured function prefixes is open.
  Otherwise the first matching function decides, and it admits only a logged-in user holding
  one of its roles;
- the register of the acting user id, which the persistence layer reads;
- the id allocator and the SQL text and parameter builders of the USERS and GROUPS DAOs;
- the flags, label renaming and locale fallback of `UsersEntity`.

Files and modules:

- `wrappers.dfy` (`Wrappers`): Option, Outcome, Result. `None` stands for a Java `null`;
  `Fail`/`Err` stand for an exception.
- `dao_support.dfy` (`DaoSupport`):
  - Java `int` (`Int32`) and its wrapping increment;
  - the id rule `NextId`;
  - the `Query` (SQL text plus bound parameters) that a DAO hands to the executor;
  - the placeholder count and the `?,?,…,?` list of an `IN (…)` clause.
- `password.dfy` (`Password`): the stored credential, the encryption guard, the password check.
- `entity.dfy` (`Entity`): the `UsersEntity` class, plus locales, roles and groups as values.
- `dao.dfy` (`Dao`): the `UsersDao` and `GroupsDao` classes.
- `logic.dfy` (`Logic`): the `AuthenticationLogic` class, the session and the user-id register.

External code becomes arguments:

- The stretching hash is a function argument of type `Stretch`. It is deterministic, and it
  answers `None` where the Java code throws `NoSuchAlgorithmException`.
- A salt is an argument of the operation that draws it.
- The configured iteration count is an argument.
- Table contents are values: the function catalog, and the user directory (USERS rows by
  key, roles by key, groups for a query). Like `selectOnUserKey`, login and session set-up
  build a new `UsersEntity` from the row on every lookup (`Logic.LoadUser`). So changing one
  entity never changes the table or another lookup's entity.
- A select that the generated DAO performs is modelled by the `Query` it would run, or by the
  row it returned, passed in.
- The HTTP session is an object with three optional attributes. The thread-local user-id
  register is an object with one field.
- The iteration order of the index's hash map is an argument, `keyOrder`. It must list
  exactly the keys of the index.

Where the code departs from what its own comments and names suggest, the model follows the
code:

- The field comment at UsersEntity.java:20 calls the `encrypted` flag "already encrypted".
  In the code, only `selectOnKey` sets the flag. `selectOnUserKey`, which login uses, does
  not set it. The guard never sets it either. `Password.UnmarkedEntityIsStretchedTwice`
  states the consequence: writing an unmarked entity twice stores the stretch of the hash.
  So an entity loaded by `selectOnUserKey` and written back by `physicalUpdate` is stored
  with its hash stretched again. `Password.RewrittenEntityRefusesPlaintext` states that its
  plaintext is then refused by `auth`, unless the two stretches happen to coincide.
- The index is meant to be loaded once, even under concurrent first access. The code uses
  an unsynchronised flag. The model is sequential (see Left out).
- `getNextId` increments a Java `int`. At Integer.MAX_VALUE the next id wraps to
  Integer.MIN_VALUE. The model keeps the wrap (`DaoSupport.NextIdWrapsAtIntMax`).

## Model

| member | source | states |
|---|---|---|
| `DaoSupport.NextId` | src/main/java/org/support/project/web/dao/UsersDao.java:46-56 | Below Integer.MAX_VALUE the id exceeds both the counter and any non-NULL table maximum. It is the least such id: one more than one of them. At the limit it wraps to Integer.MIN_VALUE. |
| `DaoSupport.NextIdStrictlyIncreases` | src/main/java/org/support/project/web/dao/UsersDao.java:50-55 | Two successive allocations give strictly increasing ids, whatever the table maximum was at each call, while no overflow occurs. |
| `DaoSupport.NextIdWrapsAtIntMax` | src/main/java/org/support/project/web/dao/UsersDao.java:46-56 | Once the counter is Integer.MAX_VALUE, the next id is Integer.MIN_VALUE. While the table's maximum is Integer.MAX_VALUE, every call hands out Integer.MIN_VALUE, so ids repeat. |
| `DaoSupport.IntParams` | src/main/java/org/support/project/web/dao/UsersDao.java:167 | The id list becomes the parameters in list order, one per id. |
| `DaoSupport.PlaceholdersShape` | src/main/java/org/support/project/web/dao/UsersDao.java:158-165 | For n ids, the placeholder list has length 2n-1 (0 when n = 0). `?` and `,` alternate, starting and ending with `?`, so there is no leading or trailing comma. |
| `DaoSupport.PlaceholdersCount` | src/main/java/org/support/project/web/dao/GroupsDao.java:139-147 | For n ids, the placeholder list holds exactly n `?`. |
| `Password.Guard` | src/main/java/org/support/project/web/dao/UsersDao.java:76-87 | An entity marked as encrypted keeps its password and salt. An unmarked one gets the new salt and the stretch of its old password. The guard fails exactly when the hash is unavailable. |
| `Password.Verify` | src/main/java/org/support/project/web/logic/impl/AbstractAuthenticationLogic.java:92-93 | The check accepts exactly when the stretch of the submitted password with the stored salt equals the stored password. It fails exactly when the hash is unavailable. |
| `Password.GuardThenVerify` | src/main/java/org/support/project/web/dao/UsersDao.java:78-83 | Round trip: a plaintext stored through the guard passes the check with the same iteration count. |
| `Password.VerifyRefusesOtherPassword` | src/main/java/org/support/project/web/logic/impl/AbstractAuthenticationLogic.java:92-97 | A password whose stretch differs from that of the stored plaintext is refused. |
| `Password.UnmarkedEntityIsStretchedTwice` | src/main/java/org/support/project/web/dao/UsersDao.java:76-87 | The guard never sets the mark. So guarding an unmarked entity twice stores the stretch of the first hash, not the stretch of the plaintext. |
| `Password.RewrittenEntityRefusesPlaintext` | src/main/java/org/support/project/web/logic/impl/AbstractAuthenticationLogic.java:91-96 | After an unmarked entity is written twice, `auth` refuses its plaintext unless the stretch of the plaintext with the new salt equals the stretch of the first hash. |
| `Entity.UsersEntity.constructor` | src/main/java/org/support/project/web/entity/UsersEntity.java:21-23 | Stands for construction followed by the column setters. The columns hold the given values, and `encrypted` and `admin` start false. |
| `Entity.UsersEntity.SetEncrypted` | src/main/java/org/support/project/web/entity/UsersEntity.java:76-82 | After the setter, the getter returns the value set. The frame allows only that flag to change. |
| `Entity.UsersEntity.SetAdmin` | src/main/java/org/support/project/web/entity/UsersEntity.java:84-90 | After the setter, the getter returns the value set. The frame allows only that flag to change. |
| `Entity.UsersEntity.ConvLabelName` | src/main/java/org/support/project/web/entity/UsersEntity.java:27-33 | "User Key" is shown as "Mail Address". Every other label is passed unchanged to the inherited conversion. |
| `Entity.UsersEntity.GetLocale` | src/main/java/org/support/project/web/entity/UsersEntity.java:65-73 | With no LOCALES row for the user's locale key the locale is Locale.JAPAN. Otherwise it is the row's language, country and variant. |
| `Dao.UsersDao.constructor` | src/main/java/org/support/project/web/dao/UsersDao.java:40 | The id counter starts at 0 and nothing has been written. |
| `Dao.UsersDao.GetNextId` | src/main/java/org/support/project/web/dao/UsersDao.java:46-56 | Returns `NextId` of the old counter and the table maximum, and leaves the counter equal to the returned id. |
| `Dao.UsersDao.PasswordEncrypted` | src/main/java/org/support/project/web/dao/UsersDao.java:76-87 | Applies `Guard` to the entity in place and leaves the `encrypted` flag unchanged. When the hash is unavailable, the new salt has been written, the password is unchanged, and the call fails. |
| `Dao.UsersDao.PhysicalInsert` | src/main/java/org/support/project/web/dao/UsersDao.java:58-63 | The guard runs before delegating. The row handed to the generated insert carries the guarded password and salt. On a guard failure nothing is written. |
| `Dao.UsersDao.PhysicalUpdate` | src/main/java/org/support/project/web/dao/UsersDao.java:65-70 | The same as insert, for the generated update. |
| `Dao.UsersDao.SelectOnKey` | src/main/java/org/support/project/web/dao/UsersDao.java:127-134 | A loaded entity is returned marked as encrypted. A null row is passed through. |
| `Dao.UsersDao.SelectOnUserKey` | src/main/java/org/support/project/web/dao/UsersDao.java:97-100 | The statement has one placeholder, bound to the user key. |
| `Dao.UsersDao.SelectOnKeyword` | src/main/java/org/support/project/web/dao/UsersDao.java:136-148 | The LIKE clause and its `%keyword%` parameter are added only for a non-empty keyword. The parameters always end with page limit, then offset. The placeholder count equals the parameter count. |
| `Dao.UsersDao.SelectOnUserIds` | src/main/java/org/support/project/web/dao/UsersDao.java:155-168 | Produces `IN (` + the placeholder list for \|ids\| + `) ORDER BY USER_ID`, with the ids as parameters in order. There is one placeholder per id. |
| `Dao.GroupsDao.constructor` | src/main/java/org/support/project/web/dao/GroupsDao.java:34 | The id counter starts at 0. |
| `Dao.GroupsDao.GetNextId` | src/main/java/org/support/project/web/dao/GroupsDao.java:40-50 | Returns `NextId` of the old counter and the table maximum, and leaves the counter equal to the returned id. |
| `Dao.GroupsDao.SelectAll` | src/main/java/org/support/project/web/dao/GroupsDao.java:59-62 | `LIMIT ? OFFSET ?` is bound as (limit, offset), the reverse of the argument order. The placeholder count equals the parameter count. |
| `Dao.GroupsDao.SelectMyGroup` | src/main/java/org/support/project/web/dao/GroupsDao.java:73-76 | Binds the user id, then limit, then offset. |
| `Dao.GroupsDao.SelectAccessAbleGroups` | src/main/java/org/support/project/web/dao/GroupsDao.java:87-90 | Binds the user id, then limit, then offset. |
| `Dao.GroupsDao.SelectOnGroupIds` | src/main/java/org/support/project/web/dao/GroupsDao.java:137-150 | Produces exactly \|ids\| comma-separated placeholders inside `IN (…)`, with the group ids as parameters in list order. |
| `Logic.RoleIds` | src/main/java/org/support/project/web/logic/impl/AbstractAuthenticationLogic.java:65-68 | The role ids of the ROLE_FUNCTIONS rows, one per row, in row order. |
| `Logic.BuildIndex` | src/main/java/org/support/project/web/logic/impl/AbstractAuthenticationLogic.java:58-70 | The index has exactly one entry per function key of the catalog. Each entry holds that function's role ids in `selectOnFunction` order. |
| `Logic.FirstMatch` | src/main/java/org/support/project/web/logic/impl/AbstractAuthenticationLogic.java:169-172 | Returns a key of the order that prefixes the path, or nothing exactly when no key does. |
| `Logic.FirstMatchIsFirst` | src/main/java/org/support/project/web/logic/impl/AbstractAuthenticationLogic.java:169-172 | The key found is the first one in iteration order that prefixes the path: it sits at some position, and no key before it prefixes the path. |
| `Logic.FirstMatchAt` | src/main/java/org/support/project/web/logic/impl/AbstractAuthenticationLogic.java:169-172 | Conversely, a key that prefixes the path with no earlier prefixing key is the one found. |
| `Logic.UnconfiguredPathIsOpen` | src/main/java/org/support/project/web/logic/impl/AbstractAuthenticationLogic.java:169-192 | A path that no configured key prefixes is allowed, with or without a login. |
| `Logic.ConfiguredPathNeedsLogin` | src/main/java/org/support/project/web/logic/impl/AbstractAuthenticationLogic.java:172-179 | A path that some configured key prefixes is refused when there is no login record. |
| `Logic.LoggedInDecision` | src/main/java/org/support/project/web/logic/impl/AbstractAuthenticationLogic.java:181-188 | With a login record, the first matching key alone decides. The request is allowed exactly when some session role id is in that key's list. |
| `Logic.OrderIrrelevantWithoutOverlap` | src/main/java/org/support/project/web/logic/impl/AbstractAuthenticationLogic.java:169-172 | When only one configured key prefixes the path, every iteration order gives the same decision. |
| `Logic.OverlapMakesOrderMatter` | src/main/java/org/support/project/web/logic/impl/AbstractAuthenticationLogic.java:169-188 | With overlapping keys "/a" (role 1) and "/a/b" (role 2), a role-1 session is allowed "/a/b/c" when "/a" is enumerated first and refused when "/a/b" is. |
| `Logic.AdminExample` | src/main/java/org/support/project/web/logic/impl/AbstractAuthenticationLogic.java:160-193 | Function "/admin/" allows role 1. A session with roles 2 and 3 is refused "/admin/users". A session with roles 1 and 3 is allowed. |
| `Logic.AuthAcceptsExactlyMatchingPassword` | src/main/java/org/support/project/web/logic/impl/AbstractAuthenticationLogic.java:86-100 | Login succeeds iff the user exists and the stored password equals the stretch of the submitted one. A missing user and a wrong password both give `false`. An error occurs only when the hash is unavailable for an existing user. |
| `Logic.InsertedUserCanLogIn` | src/main/java/org/support/project/web/logic/impl/AbstractAuthenticationLogic.java:91-96 | A user inserted with a plaintext password can log in with it while the iteration count is unchanged. |
| `Logic.AuthenticationLogic.constructor` | src/main/java/org/support/project/web/logic/impl/AbstractAuthenticationLogic.java:41-50 | The index starts empty and not loaded. |
| `Logic.AuthenticationLogic.InitLogic` | src/main/java/org/support/project/web/logic/impl/AbstractAuthenticationLogic.java:55-73 | The first call sets the index to `BuildIndex` of the catalog. Once loaded, later calls leave the index unchanged whatever the tables hold. |
| `Logic.LoadUser` | src/main/java/org/support/project/web/dao/UsersDao.java:97-99 | The entity built for a row is a new object. Its columns are the row's, and neither flag is set. |
| `Logic.AuthenticationLogic.Auth` | src/main/java/org/support/project/web/logic/impl/AbstractAuthenticationLogic.java:79-101 | Loads the index if needed. The answer is the outcome for the credential of `selectOnUserKey(userId)`. |
| `Logic.AuthenticationLogic.SetDBUser` | src/main/java/org/support/project/web/logic/impl/AbstractAuthenticationLogic.java:221-224 | The register holds the user id of the session's login record. |
| `Logic.AuthenticationLogic.IsLogined` | src/main/java/org/support/project/web/logic/impl/AbstractAuthenticationLogic.java:106-116 | True iff the session holds a login record. If so, the register is set to its user id; if not, the register is cleared. |
| `Logic.AuthenticationLogic.SetSession` | src/main/java/org/support/project/web/logic/impl/AbstractAuthenticationLogic.java:121-151 | The id attribute holds the user key. The role attribute and the record hold the same role list. `GetSession` returns the composed record, whose parts are these: a new unmarked entity holding the user's row, the roles, the request locale, and the groups of `selectMyGroup(user, 0, Integer.MAX_VALUE)`. The register holds the user id. For an unknown user key, the record and register are untouched and the call fails. |
| `Logic.AuthenticationLogic.ClearSession` | src/main/java/org/support/project/web/logic/impl/AbstractAuthenticationLogic.java:208-215 | All three attributes are absent afterwards, so `GetSession` finds no record. |
| `Logic.AuthenticationLogic.IsAuthorize` | src/main/java/org/support/project/web/logic/impl/AbstractAuthenticationLogic.java:160-193 | Loads the index if needed. The answer is `Decide` over the index, the key iteration order, the path and the session's login record. |

## Left out

- SQL execution and the generated base DAO and entity classes are not modelled. A select is
  modelled by the `Query` it hands to the executor, or by the row it returned, passed in.
- The contents of the SQL resource files are not part of this model. For those queries only
  the parameter order is stated.
- `selectOnRoleId` and `selectOnRoleKey` (UsersDao) and `selectOnKeyword`,
  `selectAccessAbleGroup` and `selectEditAbleGroup` (GroupsDao) are not modelled. Each only
  hands a resource-file statement and its arguments to the executor, and the statement's
  text is not part of this model, so nothing can be stated about them beyond their bodies.
- The hash and salt generation of `PasswordUtil` are external. The hash is a deterministic
  function argument that may fail; the salt is an argument.
- `getSalt` can also throw `NoSuchAlgorithmException`. Only the failure of the hash is
  modelled.
- The application configuration is not modelled: the hash iteration count is an argument.
- The servlet request is not modelled. Its path, the locale `HttpUtil.getLocale` derives from
  it, and its session are arguments. `request.getSession()` creating a session on demand is
  not modelled.
- `DBUserPool` is a thread-local register; here it is an object with one field.
- The unsynchronised `init` flag of the index is a concurrency race. The model is sequential.
- Dependency-injection wiring (`Container`, `@DI`) is not modelled.
- `GroupsEntity` and `MailsEntity` are plain beans. A group is a value holding an id and a
  name.
- The lookup internals of `LocalesDao` are not modelled: its rows are a map by locale key.
- `RolesDao`, `FunctionsDao` and `RoleFunctionsDao` are not modelled: their answers are
  values.
- The source of the `LoginedUser` bean is not part of this model; `Logic.LoginedUser` is a
  value with its four properties. Its `getUserId()` is assumed to read the user row.
  So, in `setSession`, an unknown user key fails at the group query, after the id and role
  attributes were written.
- Java `null` for the `Boolean` flags, the password and the
  user id is not modelled. The model uses `bool`, `string` and `int`.
- `setSession` catches every exception. Only the failure for an unknown user key is modelled;
  failures of the DAO calls are not.
- `java.util.Locale` normalises the case of language and country. The locale is modelled as
  the row's three strings.
- The iteration order of the index's `HashMap` is unspecified by Java. It is the `keyOrder`
  argument of `IsAuthorize`.
- `String.equals` in `auth` is not a constant-time compare. Timing is not modelled.
- Dao.UsersDao.GetNextId: ids are strictly increasing only while the counter and the table
  maximum stay below Integer.MAX_VALUE, because Java's `int` increment wraps there.
  `NextIdWrapsAtIntMax` states the wrap.
- Dao.GroupsDao.GetNextId: the same bound as for the users DAO.
- `AuthenticationLogic.GetSession` reads the record attribute. It has no contract of its own;
  `SetSession`, `ClearSession` and `IsLogined` state what it returns.
