/**
 * The API's `User` model: value equality over its three properties and a
 * hash code consistent with it. `HashCode.Combine` is runtime-seeded and
 * not visible here, so it is the parameter `combine`: any deterministic
 * function of the three fields.
 */
module Users {

  datatype User = User(id: int, name: string, email: string)

  /** `new User()`: Id 0 and empty strings, the client's "not found" placeholder. */
  const DefaultUser := User(0, "", "")

  /** What `Equals(object? obj)` may be handed: null, a `User`, or an object of another type. */
  datatype Object = Null | UserObject(user: User) | OtherObject

  /** `Equals`: a `User` equal in `Id`, `Name` and `Email`. */
  predicate Equals(self: User, obj: Object)
  {
    match obj
    case UserObject(other) => self.id == other.id && self.name == other.name && self.email == other.email
    case _ => false
  }

  function GetHashCode(self: User, combine: (int, string, string) -> int): int
  {
    combine(self.id, self.name, self.email)
  }

  /** Equal exactly when the argument is a `User` with the same three fields; never for null or a foreign type. */
  lemma EqualsMeans(self: User, obj: Object)
    ensures Equals(self, obj) <==> obj.UserObject? && obj.user == self
    ensures obj.Null? || obj.OtherObject? ==> !Equals(self, obj)
  {
  }

  lemma EqualsIsEquivalence(a: User, b: User, c: User)
    ensures Equals(a, UserObject(a))
    ensures Equals(a, UserObject(b)) ==> Equals(b, UserObject(a))
    ensures Equals(a, UserObject(b)) && Equals(b, UserObject(c)) ==> Equals(a, UserObject(c))
  {
  }

  /** Equal users hash alike, whatever `HashCode.Combine` computes. */
  lemma EqualUsersHashAlike(a: User, b: User, combine: (int, string, string) -> int)
    requires Equals(a, UserObject(b))
    ensures GetHashCode(a, combine) == GetHashCode(b, combine)
  {
  }

  /** The placeholder is recognised by its fields alone, and its Id is not a valid positive identifier. */
  lemma DefaultUserIsPlaceholder(u: User)
    ensures Equals(u, UserObject(DefaultUser)) <==> u.id == 0 && u.name == "" && u.email == ""
    ensures !(DefaultUser.id > 0)
  {
  }
}
