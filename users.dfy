/**
  The tracking service's user store (grasshopper/tracker/model/user.py).

  The `user` table is a sequence of rows in insertion order; a lookup returns
  the first matching row, as `fetchone` does. The table is assumed to keep
  ids and usernames unique, which is what turns a duplicate insert into an
  `IntegrityError`. Password hashing is a deterministic function `hash`
  supplied by the caller; `check_password` compares `hash(password)` with the
  stored hash.
*/
module Users {
  import opened Wrappers

  /** One row of the `user` table; `password` holds the password's hash. */
  datatype User = User(id: nat, username: string, password: string, email: string)

  /** `UserAlreadyExistsError`. */
  datatype CreateError = UserAlreadyExists

  /** The first row that matches, or None when no row does. */
  function FirstWhere(rows: seq<User>, matches: User -> bool): (r: Option<User>)
    ensures r.None? <==> forall u :: u in rows ==> !matches(u)
    ensures r.Some? ==> r.value in rows && matches(r.value)
    ensures r.Some? ==> exists i :: 0 <= i < |rows| && rows[i] == r.value &&
                                    forall j :: 0 <= j < i ==> !matches(rows[j])
    decreases |rows|
  {
    if rows == [] then None
    else if matches(rows[0]) then Some(rows[0])
    else
      var rest := FirstWhere(rows[1..], matches);
      assert rows == [rows[0]] + rows[1..];
      if rest.Some? then
        var i :| 0 <= i < |rows[1..]| && rows[1..][i] == rest.value &&
                 forall j :: 0 <= j < i ==> !matches(rows[1..][j]);
        assert rows[i + 1] == rest.value;
        assert forall j :: 0 <= j < i + 1 ==> !matches(rows[j]) by {
          forall j | 0 <= j < i + 1 ensures !matches(rows[j]) {
            if j > 0 { assert rows[j] == rows[1..][j - 1]; }
          }
        }
        rest
      else rest
  }

  /** No two rows share an id, and no two rows share a username. */
  predicate UniqueRows(rows: seq<User>)
  {
    forall i, j :: 0 <= i < j < |rows| ==> rows[i].id != rows[j].id && rows[i].username != rows[j].username
  }

  /** When exactly the k-th row matches, the k-th row is the one found. */
  lemma FindsTheOnlyMatch(rows: seq<User>, matches: User -> bool, k: nat)
    requires k < |rows| && matches(rows[k])
    requires forall j :: 0 <= j < |rows| && j != k ==> !matches(rows[j])
    ensures FirstWhere(rows, matches) == Some(rows[k])
  {
  }

  /** Appending a row whose id and username are both new keeps the rows unique. */
  lemma AppendFreshKeepsUnique(rows: seq<User>, u: User)
    requires UniqueRows(rows)
    requires forall v :: v in rows ==> v.id != u.id && v.username != u.username
    ensures UniqueRows(rows + [u])
  {
    var all := rows + [u];
    forall i, j | 0 <= i < j < |all| ensures all[i].id != all[j].id && all[i].username != all[j].username {
      if j == |rows| {
        assert all[i] == rows[i] && rows[i] in rows;
      } else {
        assert all[i] == rows[i] && all[j] == rows[j];
      }
    }
  }

  /**
    `find_by_username`: None when no row has the username, otherwise a stored
    row with that username, carrying exactly its id, password hash and email.
  */
  function WithUsername(rows: seq<User>, username: string): (r: Option<User>)
    ensures r.None? <==> forall u :: u in rows ==> u.username != username
    ensures r.Some? ==> r.value in rows && r.value.username == username
  {
    FirstWhere(rows, (u: User) => u.username == username)
  }

  /** `check_password`: the given password hashes to the stored hash. */
  function CheckPassword(user: User, password: string, hash: string -> string): bool
  {
    hash(password) == user.password
  }

  /**
    For a user stored with the hash of `stored`, and a hash function that does
    not collide, `check_password` accepts exactly `stored`.
  */
  lemma CheckPasswordAcceptsOnlyStored(user: User, stored: string, given: string, hash: string -> string)
    requires user.password == hash(stored)
    requires forall a, b :: hash(a) == hash(b) ==> a == b
    ensures CheckPassword(user, given, hash) <==> given == stored
  {
  }

  class UserStore {
    /** The `user` table, in insertion order. */
    var rows: seq<User>

    ghost predicate Valid()
      reads this
    {
      UniqueRows(rows)
    }

    constructor ()
      ensures Valid() && rows == []
    {
      rows := [];
    }

    /** `User.find_by_id`: None when no user has that id, otherwise that user's row. */
    function FindById(id: nat): (r: Option<User>)
      reads this
      ensures r.None? <==> forall u :: u in rows ==> u.id != id
      ensures r.Some? ==> r.value in rows && r.value.id == id
    {
      FirstWhere(rows, (u: User) => u.id == id)
    }

    /** `User.find_by_username`. */
    function FindByUsername(username: string): Option<User>
      reads this
    {
      WithUsername(rows, username)
    }

    /** An insert of this id and username would violate the table's uniqueness. */
    predicate Conflicts(id: nat, username: string)
      reads this
    {
      exists u :: u in rows && (u.id == id || u.username == username)
    }

    /**
      `User.create`: inserts a row with the fresh random id `newId` and the
      hash of the password. A duplicate id or username raises
      `UserAlreadyExistsError` and commits nothing.
    */
    method Create(username: string, email: string, password: string, newId: nat, hash: string -> string)
      returns (err: Option<CreateError>)
      requires Valid()
      modifies this
      ensures Valid()
      ensures err.Some? <==> old(Conflicts(newId, username))
      ensures err.Some? ==> err.value == UserAlreadyExists && rows == old(rows)
      ensures err.None? ==> rows == old(rows) + [User(newId, username, hash(password), email)]
      ensures err.None? ==> FindByUsername(username) == Some(User(newId, username, hash(password), email))
      ensures err.None? ==> FindById(newId) == Some(User(newId, username, hash(password), email))
      ensures err.None? ==> CheckPassword(FindByUsername(username).value, password, hash)
    {
      if Conflicts(newId, username) {
        return Some(UserAlreadyExists);
      }
      AppendFreshKeepsUnique(rows, User(newId, username, hash(password), email));
      rows := rows + [User(newId, username, hash(password), email)];
      FindsTheOnlyMatch(rows, (u: User) => u.username == username, |rows| - 1);
      FindsTheOnlyMatch(rows, (u: User) => u.id == newId, |rows| - 1);
      err := None;
    }
  }
}
