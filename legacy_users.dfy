/**
  The first version of the user store (tracker/model/user.py). It differs
  from the service's store in that the database, not the caller, assigns the
  id of a new row, so only a duplicate username can make the insert fail.
  Rows, lookups and `check_password` are those of `Users`.
*/
module LegacyUsers {
  import opened Wrappers
  import opened Users

  class LegacyUserStore {
    /** The `user` table, in insertion order. */
    var rows: seq<User>
    /** The next id the database will assign. */
    var nextId: nat

    ghost predicate Valid()
      reads this
    {
      UniqueRows(rows) && forall u :: u in rows ==> u.id < nextId
    }

    constructor ()
      ensures Valid() && rows == []
    {
      rows := [];
      nextId := 1;
    }

    /** `User.find_by_username`, the same lookup as the service's store. */
    function FindByUsername(username: string): Option<User>
      reads this
    {
      WithUsername(rows, username)
    }

    /**
      `User.create`: inserts the username, email and the hash of the password;
      a username already present violates the table's constraint and becomes
      `UserAlreadyExistsError`.
    */
    method Create(username: string, email: string, password: string, hash: string -> string)
      returns (err: Option<CreateError>)
      requires Valid()
      modifies this
      ensures Valid()
      ensures err.Some? <==> exists u :: u in old(rows) && u.username == username
      ensures err.Some? ==> err.value == UserAlreadyExists && rows == old(rows)
      ensures err.None? ==> rows == old(rows) + [User(old(nextId), username, hash(password), email)]
      ensures err.None? ==> FindByUsername(username) == Some(User(old(nextId), username, hash(password), email))
    {
      if exists u :: u in rows && u.username == username {
        return Some(UserAlreadyExists);
      }
      AppendFreshKeepsUnique(rows, User(nextId, username, hash(password), email));
      rows := rows + [User(nextId, username, hash(password), email)];
      nextId := nextId + 1;
      FindsTheOnlyMatch(rows, (u: User) => u.username == username, |rows| - 1);
      err := None;
    }
  }
}
