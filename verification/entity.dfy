/** The entities of the web package. `UsersEntity` is an object whose flags the DAO and
    the application update in place; roles, groups and locales are read-only values here. */
module Entity {
  import opened Wrappers
  import opened Password

  /** A java.util.Locale: language, country, variant. */
  datatype Locale = Locale(language: string, country: string, variant: string)

  /** Locale.JAPAN, the fallback locale of a user. */
  const Japan: Locale := Locale("ja", "JP", "")

  /** A row of the LOCALES table. */
  datatype LocalesRow = LocalesRow(language: string, country: string, variant: string)

  /** A row of the ROLES table, as assigned to a user. */
  datatype Role = Role(roleId: int, roleKey: string)

  /** A row of the GROUPS table (the transient edit/status flags of GroupsEntity are
      not part of this model). */
  datatype Group = Group(groupId: int, groupName: string)

  /** The label that `convLabelName` renames. */
  const UserKeyLabel: string := "User Key"
  const MailAddressLabel: string := "Mail Address"

  class UsersEntity {
    // Columns of the USERS table (from the generated base class).
    var userId: int
    var userKey: string
    var userName: string
    var password: string
    var salt: string
    var localeKey: string
    /** The password column already holds a stretched hash. */
    var encrypted: bool
    /** The user is an administrator. */
    var admin: bool

    /** Stands for the no-argument constructor (or the one taking the user id) followed
        by the generated base class's setters for the other columns, as the query
        executor and callers fill an entity: both flags start out false. */
    constructor (userId: int, userKey: string, userName: string, password: string,
                 salt: string, localeKey: string)
      ensures this.userId == userId && this.userKey == userKey && this.userName == userName
      ensures this.password == password && this.salt == salt && this.localeKey == localeKey
      ensures !encrypted && !admin
    {
      this.userId := userId;
      this.userKey := userKey;
      this.userName := userName;
      this.password := password;
      this.salt := salt;
      this.localeKey := localeKey;
      encrypted := false;
      admin := false;
    }

    /** The password and salt columns. */
    function StoredCredential(): Credential
      reads this
    {
      Credential(password, salt)
    }

    function GetEncrypted(): bool
      reads this
    {
      encrypted
    }

    method SetEncrypted(b: bool)
      modifies this`encrypted
      ensures GetEncrypted() == b
    {
      encrypted := b;
    }

    function GetAdmin(): bool
      reads this
    {
      admin
    }

    method SetAdmin(b: bool)
      modifies this`admin
      ensures GetAdmin() == b
    {
      admin := b;
    }

    /** The display label of a column: "User Key" is shown as "Mail Address"; every other
        label is left to the generated base class, given here as `inherited`. */
    function ConvLabelName(columnLabel: string, inherited: string -> string): (r: string)
      ensures columnLabel == UserKeyLabel ==> r == MailAddressLabel
      ensures columnLabel != UserKeyLabel ==> r == inherited(columnLabel)
    {
      if columnLabel == UserKeyLabel then MailAddressLabel else inherited(columnLabel)
    }

    /** The user's locale: the LOCALES row for the user's locale key, or Locale.JAPAN
        when there is none. `locales` stands for the rows the locale DAO can find. */
    function GetLocale(locales: map<string, LocalesRow>): (l: Locale)
      reads this
      ensures localeKey !in locales ==> l == Japan
      ensures localeKey in locales ==>
                l == Locale(locales[localeKey].language, locales[localeKey].country,
                            locales[localeKey].variant)
    {
      var row := if localeKey in locales then Some(locales[localeKey]) else None;
      match row
      case None => Japan
      case Some(r) => Locale(r.language, r.country, r.variant)
    }
  }
}
