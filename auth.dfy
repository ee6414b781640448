/** The authentication service: sign-up (a uniqueness check, then the user
    service's create) and sign-in (a lookup, a hash comparison, then a signed
    token whose payload is the user's id and username). */
module Auth {
  import opened JsValues
  import opened Users

  datatype AuthError = Conflict(message: string) | Unauthorized(message: string)

  const UserExistsMessage: string := "User already exists with given username."
  const InvalidCredentials: string := "Invalid credentials"

  /** The claims the token carries. */
  datatype Payload = Payload(userId: nat, username: string)

  /** The body sign-in answers with. */
  datatype SignInResponse = SignInResponse(access_token: string)

  /** JwtService.signAsync with the configured secret and expiry: a function
      of the payload and of the time of issue, nothing more is known of it. */
  datatype Jwt = Jwt(sign: (Payload, int) -> string)

  class AuthService {
    const users: UserService

    constructor (users: UserService)
      ensures this.users == users
    {
      this.users := users;
    }

    /** signUp: Conflict, with the table untouched, when the username is
        taken; otherwise the row create saved, appended to the table. */
    method SignUp(name: string, username: string, password: string, salt: string, crypto: Crypto)
      returns (r: Result<User, AuthError>)
      requires users.Valid()
      modifies users
      ensures users.Valid()
      ensures HasUsername(old(users.rows), username) ==>
        && r == Failure(Conflict(UserExistsMessage))
        && users.rows == old(users.rows) && users.nextId == old(users.nextId)
      ensures !HasUsername(old(users.rows), username) ==>
        && r == Success(User(old(users.nextId), name, username, crypto.hash(password, salt), true))
        && users.rows == old(users.rows) + [r.value]
    {
      var userExists := FindOneByUsername(users.rows, username);
      if userExists.Some? {
        return Failure(Conflict(UserExistsMessage));
      }
      var created := users.Create(name, username, password, salt, crypto);
      r := Success(created.value);
    }

    /** signIn: an unknown username and a wrong password give the same
        Unauthorized error; a matching password gives a token signed over
        exactly the stored user's id and username. It changes nothing. */
    method SignIn(username: string, password: string, crypto: Crypto, jwt: Jwt, now: int)
      returns (r: Result<SignInResponse, AuthError>)
      requires users.Valid()
      ensures !HasUsername(users.rows, username) ==> r == Failure(Unauthorized(InvalidCredentials))
      ensures forall i :: 0 <= i < |users.rows| && users.rows[i].username == username ==>
        r == if crypto.compare(password, users.rows[i].password)
             then Success(SignInResponse(jwt.sign(Payload(users.rows[i].id, users.rows[i].username), now)))
             else Failure(Unauthorized(InvalidCredentials))
    {
      var user := FindOneByUsername(users.rows, username);
      if user.Some? {
        ghost var i :| 0 <= i < |users.rows| && users.rows[i].username == username && user.value == Select(users.rows[i]);
        assert forall j :: 0 <= j < |users.rows| && users.rows[j].username == username ==> j == i;
        var checkPassword := crypto.compare(password, user.value.password);
        if !checkPassword {
          return Failure(Unauthorized(InvalidCredentials));
        }
        var payload := Payload(user.value.id, user.value.username);
        return Success(SignInResponse(jwt.sign(payload, now)));
      } else {
        return Failure(Unauthorized(InvalidCredentials));
      }
    }
  }

  /** Signing up and then signing in with the same username and password
      succeeds, with a token for the new user, provided the hash function
      verifies its own output. */
  method SignUpThenSignIn(auth: AuthService, name: string, username: string, password: string,
                          salt: string, crypto: Crypto, jwt: Jwt, now: int)
    returns (signedUp: Result<User, AuthError>, signedIn: Result<SignInResponse, AuthError>)
    requires auth.users.Valid()
    requires HashChecks(crypto)
    modifies auth.users
    ensures !HasUsername(old(auth.users.rows), username) ==> signedUp.Success?
    ensures signedUp.Success? ==>
      signedIn == Success(SignInResponse(jwt.sign(Payload(signedUp.value.id, username), now)))
  {
    signedUp := auth.SignUp(name, username, password, salt, crypto);
    signedIn := auth.SignIn(username, password, crypto, jwt, now);
    if signedUp.Success? {
      var last := |auth.users.rows| - 1;
      assert auth.users.rows[last] == signedUp.value;
    }
  }
}
