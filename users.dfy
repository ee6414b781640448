/** The `users` table and the user service that reads and writes it:
    `create` hashes the password with a fresh salt and saves a row,
    `findOneByUsername` looks a row up by its unique username. */
module Users {
  import opened JsValues

  /** A row of the `users` table. `id` stands for the uuid the database
      generates; the timestamps are not modelled. */
  datatype User = User(id: nat, name: string, username: string, password: string, isActive: bool)

  /** The columns findOneByUsername selects: id, username and the password
      hash (the `password` column is otherwise hidden from reads). */
  datatype Credentials = Credentials(id: nat, username: string, password: string)

  function Select(u: User): (c: Credentials)
    ensures c.id == u.id && c.username == u.username && c.password == u.password
  {
    Credentials(u.id, u.username, u.password)
  }

  /** bcrypt's `hash(password, salt)` and `compare(password, hash)`, as
      functions the model knows nothing about except HashChecks. */
  datatype Crypto = Crypto(hash: (string, string) -> string, compare: (string, string) -> bool)

  /** A password always matches its own salted hash. */
  ghost predicate HashChecks(c: Crypto) {
    forall p, s :: c.compare(p, c.hash(p, s))
  }

  /** The unique constraint on `username` rejects a second row with the
      same username. */
  datatype SaveError = UniqueViolation

  predicate HasUsername(rows: seq<User>, username: string) {
    exists i :: 0 <= i < |rows| && rows[i].username == username
  }

  ghost predicate UniqueUsernames(rows: seq<User>) {
    forall i, j :: 0 <= i < |rows| && 0 <= j < |rows| && rows[i].username == rows[j].username ==> i == j
  }

  /** findOneByUsername: the row whose username equals the argument exactly,
      projected to its id, username and password; None when there is none. */
  function FindOneByUsername(rows: seq<User>, username: string): (r: Option<Credentials>)
    ensures r.None? <==> !HasUsername(rows, username)
    ensures r.Some? ==> exists i :: 0 <= i < |rows| && rows[i].username == username && r.value == Select(rows[i])
  {
    if |rows| == 0 then None
    else if rows[0].username == username then Some(Select(rows[0]))
    else
      var r := FindOneByUsername(rows[1..], username);
      assert HasUsername(rows, username) <==> HasUsername(rows[1..], username) by {
        if HasUsername(rows, username) {
          var i :| 0 <= i < |rows| && rows[i].username == username;
          assert rows[1..][i - 1] == rows[i];
        }
        if HasUsername(rows[1..], username) {
          var i :| 0 <= i < |rows| - 1 && rows[1..][i].username == username;
          assert rows[i + 1] == rows[1..][i];
        }
      }
      if r.Some? then
        assert exists i :: 0 <= i < |rows| && rows[i].username == username && r.value == Select(rows[i]) by {
          var i :| 0 <= i < |rows| - 1 && rows[1..][i].username == username && r.value == Select(rows[1..][i]);
          assert rows[i + 1] == rows[1..][i];
        }
        r
      else r
  }

  /** With usernames unique, the lookup finds exactly the row holding that
      username. */
  lemma FindOneByUsernameExact(rows: seq<User>, i: nat)
    requires UniqueUsernames(rows)
    requires i < |rows|
    ensures FindOneByUsername(rows, rows[i].username) == Some(Select(rows[i]))
  {
    var r := FindOneByUsername(rows, rows[i].username);
    var j :| 0 <= j < |rows| && rows[j].username == rows[i].username && r.value == Select(rows[j]);
  }

  /** After a row with a new username is appended, looking that username up
      finds the new row, and every other lookup is as before. */
  lemma {:induction false} FindAfterAppend(rows: seq<User>, u: User, username: string)
    requires !HasUsername(rows, u.username)
    ensures FindOneByUsername(rows + [u], username) ==
      if username == u.username then Some(Select(u)) else FindOneByUsername(rows, username)
  {
    if |rows| > 0 {
      assert (rows + [u])[1..] == rows[1..] + [u];
      FindAfterAppend(rows[1..], u, username);
    }
  }

  /** The user service over the `users` repository. */
  class UserService {
    var rows: seq<User>
    /** The id the database hands out next; stands for uuid generation. */
    var nextId: nat

    ghost predicate Valid()
      reads this
    {
      && UniqueUsernames(rows)
      && (forall i :: 0 <= i < |rows| ==> rows[i].id < nextId)
      && (forall i, j :: 0 <= i < |rows| && 0 <= j < |rows| && rows[i].id == rows[j].id ==> i == j)
    }

    constructor ()
      ensures Valid() && rows == []
    {
      rows := [];
      nextId := 0;
    }

    /** create: hashes `password` with `salt` (a fresh salt per call) and
        saves a new active row holding the hash, never the password itself.
        The save fails, changing nothing, when the username is taken. */
    method Create(fullname: string, username: string, password: string, salt: string, crypto: Crypto)
      returns (r: Result<User, SaveError>)
      requires Valid()
      modifies this
      ensures Valid()
      ensures HasUsername(old(rows), username) ==>
        r == Failure(UniqueViolation) && rows == old(rows) && nextId == old(nextId)
      ensures !HasUsername(old(rows), username) ==>
        && r == Success(User(old(nextId), fullname, username, crypto.hash(password, salt), true))
        && rows == old(rows) + [r.value]
        && nextId == old(nextId) + 1
    {
      var hashedPassword := crypto.hash(password, salt);
      var newUser := User(nextId, fullname, username, hashedPassword, true);
      if HasUsername(rows, username) {
        r := Failure(UniqueViolation);
      } else {
        rows := rows + [newUser];
        nextId := nextId + 1;
        r := Success(newUser);
      }
    }
  }
}
