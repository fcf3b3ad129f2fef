/** The hand-written parts of the USERS and GROUPS data-access objects. The generated
    base classes and the SQL executor are not part of this model: a `select...` operation
    returns the Query it would hand to the executor, a row the base class loaded is an
    argument, and the rows handed to the base class's insert/update are recorded. */
module Dao {
  import opened Wrappers
  import opened DaoSupport
  import opened Password
  import opened Entity

  /** RuntimeException wrapping NoSuchAlgorithmException. */
  datatype DaoError = SystemException

  /** A USERS row as the generated DAO receives it. */
  datatype UserRow = UserRow(userId: int, userKey: string, userName: string,
                             password: string, salt: string, localeKey: string)

  /** A write delegated to the generated DAO. */
  datatype Write = Insert(row: UserRow) | Update(row: UserRow)

  // ----- fixed SQL text: each inline statement is written in pieces so that every `?`
  // stands in a piece of its own, which the placeholder-counting lemmas below rely on -----

  const UsersByKeySql: string := "SELECT * FROM USERS " + "WHERE USER_KEY = " + "?" + ";"
  const UsersKeywordHead: string := "SELECT * FROM USERS " + "WHERE DELETE_FLAG = 0 "
  const UsersKeywordLike: string := "AND USER_NAME LIKE " + "?" + " "
  const UsersKeywordTail: string := "ORDER BY USER_ID ASC Limit " + "?" + " offset " + "?" + ";"
  const UsersInHead: string := "SELECT * FROM USERS " + "WHERE USER_ID IN ("
  const UsersInTail: string := ") ORDER BY USER_ID"

  const GroupsAllSql: string := "SELECT * FROM GROUPS " + "ORDER BY GROUP_NAME LIMIT " + "?" + " OFFSET " + "?"
  const GroupsMineSql: string := "/org/support/project/web/dao/sql/GroupsDao/GroupsDao_selectMyGroup.sql"
  const GroupsAccessAbleSql: string := "/org/support/project/web/dao/sql/GroupsDao/GroupsDao_selectAccessAbleGroups.sql"
  const GroupsInHead: string := "SELECT * FROM GROUPS " + "WHERE GROUP_ID IN ("
  const GroupsInTail: string := ") ORDER BY GROUP_ID"

  // How many placeholders each fixed statement text holds.

  lemma UsersByKeyPlaceholders()
    ensures CountPlaceholders(UsersByKeySql) == 1
  {
    ExactlyOnePlaceholder("SELECT * FROM USERS " + "WHERE USER_KEY = ", ";");
  }

  lemma UsersKeywordPlaceholders()
    ensures CountPlaceholders(UsersKeywordHead) == 0
    ensures CountPlaceholders(UsersKeywordLike) == 1
    ensures CountPlaceholders(UsersKeywordTail) == 2
  {
    UsersKeywordHeadPlaceholders();
    UsersKeywordLikePlaceholders();
    UsersKeywordTailPlaceholders();
  }

  lemma UsersKeywordHeadPlaceholders()
    ensures CountPlaceholders(UsersKeywordHead) == 0
  {
    NoPlaceholders(UsersKeywordHead);
  }

  lemma UsersKeywordLikePlaceholders()
    ensures CountPlaceholders(UsersKeywordLike) == 1
  {
    ExactlyOnePlaceholder("AND USER_NAME LIKE ", " ");
  }

  lemma UsersKeywordTailPlaceholders()
    ensures CountPlaceholders(UsersKeywordTail) == 2
  {
    ExactlyTwoPlaceholders("ORDER BY USER_ID ASC Limit ", " offset ", ";");
  }

  lemma UsersInPlaceholders()
    ensures CountPlaceholders(UsersInHead) == 0 && CountPlaceholders(UsersInTail) == 0
  {
    NoPlaceholders(UsersInHead);
    NoPlaceholders(UsersInTail);
  }

  lemma GroupsInPlaceholders()
    ensures CountPlaceholders(GroupsInHead) == 0 && CountPlaceholders(GroupsInTail) == 0
  {
    NoPlaceholders(GroupsInHead);
    NoPlaceholders(GroupsInTail);
  }

  lemma GroupsAllPlaceholders()
    ensures CountPlaceholders(GroupsAllSql) == 2
  {
    var head := "SELECT * FROM GROUPS " + "ORDER BY GROUP_NAME LIMIT ";
    ExactlyTwoPlaceholders(head, " OFFSET ", "");
    assert head + "?" + " OFFSET " + "?" + "" == GroupsAllSql;
  }

  /** StringUtils.isEmpty: null or "". */
  predicate IsEmpty(s: Option<string>) {
    s.None? || s.value == ""
  }

  class UsersDao {
    /** The last id handed out by this process. */
    var currentId: Int32
    /** The rows handed to the generated insert/update, oldest first. */
    var written: seq<Write>

    constructor ()
      ensures currentId == 0 && written == []
    {
      currentId := 0;
      written := [];
    }

    /** Allocates the next USER_ID. `dbMax` is what `SELECT MAX(USER_ID) FROM USERS`
        returned (None: NULL, the table is empty). The id is consumed even if the
        caller never stores it. */
    method GetNextId(dbMax: Option<Int32>) returns (id: Int32)
      modifies this`currentId
      ensures id == NextId(old(currentId), dbMax)
      ensures currentId == id
    {
      if dbMax.Some? {
        if currentId < dbMax.value {
          currentId := dbMax.value;
        }
      }
      currentId := Increment(currentId);
      id := currentId;
    }

    /** The encryption guard, applied to the entity in place. `newSalt` is the salt
        `getSalt` draws; `iterations` is the configured hash iteration count. The salt is
        written before the hash is computed, so a failing hash leaves the new salt behind. */
    method PasswordEncrypted(entity: UsersEntity, newSalt: string, iterations: int, stretch: Stretch)
      returns (outcome: Outcome<DaoError>)
      modifies entity`salt, entity`password
      ensures entity.encrypted == old(entity.encrypted)
      ensures var g := Guard(old(entity.StoredCredential()), entity.encrypted, newSalt, iterations, stretch);
              match g
              case Some(c) => outcome == Pass && entity.StoredCredential() == c
              case None => outcome == Fail(SystemException)
                           && entity.salt == newSalt && entity.password == old(entity.password)
    {
      if !entity.encrypted {
        entity.salt := newSalt;
        var hash := stretch(entity.password, newSalt, iterations);
        if hash.None? {
          return Fail(SystemException);
        }
        entity.password := hash.value;
      }
      return Pass;
    }

    /** The USERS row the entity currently describes. */
    static function RowOf(entity: UsersEntity): UserRow
      reads entity
    {
      UserRow(entity.userId, entity.userKey, entity.userName, entity.password, entity.salt, entity.localeKey)
    }

    /** Inserts the entity: the guard runs first, then the generated insert receives the
        row with the stretched password. */
    method PhysicalInsert(entity: UsersEntity, newSalt: string, iterations: int, stretch: Stretch)
      returns (r: Result<UsersEntity, DaoError>)
      modifies this`written, entity`salt, entity`password
      ensures var g := Guard(old(entity.StoredCredential()), entity.encrypted, newSalt, iterations, stretch);
              match g
              case Some(c) => r == Ok(entity) && entity.StoredCredential() == c
                              && written == old(written) + [Insert(RowOf(entity))]
              case None => r == Err(SystemException) && written == old(written)
                           && entity.salt == newSalt && entity.password == old(entity.password)
    {
      var outcome := PasswordEncrypted(entity, newSalt, iterations, stretch);
      if outcome.Fail? {
        return Err(outcome.error);
      }
      written := written + [Insert(RowOf(entity))];
      return Ok(entity);
    }

    /** Updates the entity: the guard runs first, then the generated update receives the
        row with the stretched password. */
    method PhysicalUpdate(entity: UsersEntity, newSalt: string, iterations: int, stretch: Stretch)
      returns (r: Result<UsersEntity, DaoError>)
      modifies this`written, entity`salt, entity`password
      ensures var g := Guard(old(entity.StoredCredential()), entity.encrypted, newSalt, iterations, stretch);
              match g
              case Some(c) => r == Ok(entity) && entity.StoredCredential() == c
                              && written == old(written) + [Update(RowOf(entity))]
              case None => r == Err(SystemException) && written == old(written)
                           && entity.salt == newSalt && entity.password == old(entity.password)
    {
      var outcome := PasswordEncrypted(entity, newSalt, iterations, stretch);
      if outcome.Fail? {
        return Err(outcome.error);
      }
      written := written + [Update(RowOf(entity))];
      return Ok(entity);
    }

    /** Loads a user by primary key. `loaded` is what the generated selectOnKey returned
        (null when there is no such row); a loaded entity is marked as already encrypted,
        so writing it back does not stretch its stored hash again. */
    method SelectOnKey(loaded: UsersEntity?) returns (r: UsersEntity?)
      modifies (if loaded == null then {} else {loaded})`encrypted
      ensures r == loaded
      ensures r != null ==> r.encrypted
    {
      if loaded != null {
        loaded.SetEncrypted(true);
      }
      return loaded;
    }

    /** The query of selectOnUserKey: one placeholder, bound to the user key. The entity
        it returns is NOT marked as encrypted. */
    static function SelectOnUserKey(userKey: string): (q: Query)
      ensures BindsEveryPlaceholder(q)
      ensures q.params == [StrParam(userKey)]
    {
      UsersByKeyPlaceholders();
      Query(Inline(UsersByKeySql), [StrParam(userKey)])
    }

    /** The query of selectOnKeyword: the LIKE clause and its `%keyword%` parameter only
        for a non-empty keyword; LIMIT and OFFSET always last. */
    method SelectOnKeyword(offset: Int32, pageLimit: Int32, keyword: Option<string>) returns (q: Query)
      ensures BindsEveryPlaceholder(q)
      ensures IsEmpty(keyword) ==>
                q.sql == Inline(UsersKeywordHead + UsersKeywordTail)
                && PagedBinding(q.params, [], pageLimit, offset)
      ensures !IsEmpty(keyword) ==>
                q.sql == Inline(UsersKeywordHead + UsersKeywordLike + UsersKeywordTail)
                && PagedBinding(q.params, [StrParam("%" + keyword.value + "%")], pageLimit, offset)
    {
      var sql := UsersKeywordHead;
      var params: seq<SqlParam> := [];
      if !IsEmpty(keyword) {
        sql := sql + UsersKeywordLike;
        params := params + [StrParam("%" + keyword.value + "%")];
      }
      sql := sql + UsersKeywordTail;
      params := params + [IntParam(pageLimit), IntParam(offset)];
      UsersKeywordPlaceholders();
      CountPlaceholdersAppend(UsersKeywordHead, UsersKeywordLike);
      CountPlaceholdersAppend(UsersKeywordHead + UsersKeywordLike, UsersKeywordTail);
      CountPlaceholdersAppend(UsersKeywordHead, UsersKeywordTail);
      q := Query(Inline(sql), params);
    }

    /** The query of selectOnUserIds: one `?` per id inside `IN (...)`, the ids bound in
        list order. */
    method SelectOnUserIds(userids: seq<int>) returns (q: Query)
      ensures q.sql == Inline(UsersInHead + Placeholders(|userids|) + UsersInTail)
      ensures q.params == IntParams(userids)
      ensures BindsEveryPlaceholder(q)
    {
      var builder := UsersInHead;
      var cnt := 0;
      while cnt < |userids|
        invariant 0 <= cnt <= |userids|
        invariant builder == UsersInHead + Placeholders(cnt)
      {
        if cnt > 0 {
          builder := builder + ",";
        }
        builder := builder + "?";
        cnt := cnt + 1;
      }
      builder := builder + UsersInTail;
      UsersInPlaceholders();
      InClausePlaceholders(UsersInHead, |userids|, UsersInTail);
      q := Query(Inline(builder), IntParams(userids));
    }
  }

  class GroupsDao {
    /** The last id handed out by this process. */
    var currentId: Int32

    constructor ()
      ensures currentId == 0
    {
      currentId := 0;
    }

    /** Allocates the next GROUP_ID from the counter and `SELECT MAX(GROUP_ID)`. */
    method GetNextId(dbMax: Option<Int32>) returns (id: Int32)
      modifies this`currentId
      ensures id == NextId(old(currentId), dbMax)
      ensures currentId == id
    {
      if dbMax.Some? {
        if currentId < dbMax.value {
          currentId := dbMax.value;
        }
      }
      currentId := Increment(currentId);
      id := currentId;
    }

    /** selectAll(offset, limit): the statement reads `LIMIT ? OFFSET ?`, so the limit is
        bound first although it is the second argument. */
    static function SelectAll(offset: Int32, limit: Int32): (q: Query)
      ensures BindsEveryPlaceholder(q)
      ensures PagedBinding(q.params, [], limit, offset)
    {
      GroupsAllPlaceholders();
      Query(Inline(GroupsAllSql), [IntParam(limit), IntParam(offset)])
    }

    /** selectMyGroup(user, offset, limit): user id, then limit, then offset. */
    static function SelectMyGroup(userId: int, offset: Int32, limit: Int32): (q: Query)
      ensures q.sql == Resource(GroupsMineSql)
      ensures PagedBinding(q.params, [IntParam(userId)], limit, offset)
    {
      Query(Resource(GroupsMineSql), [IntParam(userId), IntParam(limit), IntParam(offset)])
    }

    /** selectAccessAbleGroups(user, offset, limit): user id, then limit, then offset. */
    static function SelectAccessAbleGroups(userId: int, offset: Int32, limit: Int32): (q: Query)
      ensures q.sql == Resource(GroupsAccessAbleSql)
      ensures PagedBinding(q.params, [IntParam(userId)], limit, offset)
    {
      Query(Resource(GroupsAccessAbleSql), [IntParam(userId), IntParam(limit), IntParam(offset)])
    }

    /** The query of selectOnGroupIds: one `?` per id inside `IN (...)`, no leading or
        trailing comma, the ids bound in list order. */
    method SelectOnGroupIds(groupids: seq<int>) returns (q: Query)
      ensures q.sql == Inline(GroupsInHead + Placeholders(|groupids|) + GroupsInTail)
      ensures q.params == IntParams(groupids)
      ensures BindsEveryPlaceholder(q)
    {
      var builder := GroupsInHead;
      var cnt := 0;
      while cnt < |groupids|
        invariant 0 <= cnt <= |groupids|
        invariant builder == GroupsInHead + Placeholders(cnt)
      {
        if cnt > 0 {
          builder := builder + ",";
        }
        builder := builder + "?";
        cnt := cnt + 1;
      }
      builder := builder + GroupsInTail;
      GroupsInPlaceholders();
      InClausePlaceholders(GroupsInHead, |groupids|, GroupsInTail);
      q := Query(Inline(builder), IntParams(groupids));
    }
  }
}
