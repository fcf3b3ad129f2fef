/** Password storage and checking. The stretching hash (`getStretchedPassword`) and the
    salt generator are not part of this model: the hash is a parameter of type `Stretch`,
    a deterministic function that answers None when the hash algorithm is unavailable on
    the host (NoSuchAlgorithmException); a salt is an argument of the operation that
    draws it. */
module Password {
  import opened Wrappers

  /** getStretchedPassword(password, salt, iterations); None when it throws. */
  type Stretch = (string, string, int) -> Option<string>

  /** The two columns of a user row that authentication reads. */
  datatype Credential = Credential(password: string, salt: string)

  /** The encryption guard applied before a user row is written: unless the entity is
      marked as already encrypted, it gets the fresh salt and its password is replaced by
      the stretched password. None: the hash algorithm is unavailable. */
  function Guard(c: Credential, encrypted: bool, newSalt: string, iterations: int, stretch: Stretch)
    : (r: Option<Credential>)
    ensures encrypted ==> r == Some(c)
    ensures !encrypted ==> (r.None? <==> stretch(c.password, newSalt, iterations).None?)
    ensures !encrypted && r.Some? ==>
              r.value.salt == newSalt && Some(r.value.password) == stretch(c.password, newSalt, iterations)
  {
    if encrypted then Some(c)
    else
      match stretch(c.password, newSalt, iterations)
      case None => None
      case Some(h) => Some(Credential(h, newSalt))
  }

  /** The password check of `auth`: stretch the submitted password with the stored salt
      and compare with the stored hash. None: the hash algorithm is unavailable. */
  function Verify(stored: Credential, password: string, iterations: int, stretch: Stretch)
    : (r: Option<bool>)
    ensures r == Some(true) <==> stretch(password, stored.salt, iterations) == Some(stored.password)
    ensures r.None? <==> stretch(password, stored.salt, iterations).None?
  {
    match stretch(password, stored.salt, iterations)
    case None => None
    case Some(h) => Some(stored.password == h)
  }

  /** Round trip: a plaintext password stored through the guard is accepted by the
      check, with the same iteration count. */
  lemma GuardThenVerify(c: Credential, newSalt: string, iterations: int, stretch: Stretch)
    requires stretch(c.password, newSalt, iterations).Some?
    ensures Guard(c, false, newSalt, iterations, stretch).Some?
    ensures Verify(Guard(c, false, newSalt, iterations, stretch).value, c.password, iterations, stretch)
            == Some(true)
  {
  }

  /** A password whose stretch differs from that of the stored one is refused. */
  lemma VerifyRefusesOtherPassword(c: Credential, newSalt: string, iterations: int,
                                   stretch: Stretch, other: string)
    requires stretch(c.password, newSalt, iterations).Some?
    requires stretch(other, newSalt, iterations).Some?
    requires stretch(other, newSalt, iterations) != stretch(c.password, newSalt, iterations)
    ensures Verify(Guard(c, false, newSalt, iterations, stretch).value, other, iterations, stretch)
            == Some(false)
  {
  }

  /** The guard never marks the entity itself, so applying it twice to an entity that
      nobody marked stretches the stored hash a second time: the row then holds the
      stretch of the hash, not of the plaintext. */
  lemma UnmarkedEntityIsStretchedTwice(c: Credential, salt1: string, salt2: string,
                                       iterations: int, stretch: Stretch)
    requires stretch(c.password, salt1, iterations).Some?
    requires stretch(stretch(c.password, salt1, iterations).value, salt2, iterations).Some?
    ensures Guard(c, false, salt1, iterations, stretch).Some?
    ensures Guard(Guard(c, false, salt1, iterations, stretch).value, false, salt2, iterations, stretch)
            == Some(Credential(stretch(stretch(c.password, salt1, iterations).value, salt2, iterations).value,
                               salt2))
  {
  }

  /** The consequence for login: once an unmarked entity is written a second time, its
      plaintext is refused unless its stretch with the new salt happens to equal that of
      the first hash. */
  lemma RewrittenEntityRefusesPlaintext(c: Credential, salt1: string, salt2: string,
                                        iterations: int, stretch: Stretch)
    requires stretch(c.password, salt1, iterations).Some?
    requires stretch(stretch(c.password, salt1, iterations).value, salt2, iterations).Some?
    requires stretch(c.password, salt2, iterations).Some?
    requires stretch(c.password, salt2, iterations)
             != stretch(stretch(c.password, salt1, iterations).value, salt2, iterations)
    ensures Guard(c, false, salt1, iterations, stretch).Some?
    ensures Guard(Guard(c, false, salt1, iterations, stretch).value, false, salt2, iterations, stretch).Some?
    ensures Verify(Guard(Guard(c, false, salt1, iterations, stretch).value, false, salt2, iterations, stretch).value,
                   c.password, iterations, stretch)
            == Some(false)
  {
    UnmarkedEntityIsStretchedTwice(c, salt1, salt2, iterations, stretch);
  }
}
