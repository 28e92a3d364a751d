/** The session of `src/contexts/AuthContext.tsx`: the signed-in user, a
    loading flag and the token kept in the browser's storage under `authToken`.
    Decoding a token's payload (`JSON.parse(atob(token.split('.')[1]))`) is a
    given partial function: `None` stands for a payload that does not parse. */
module AuthContext {
  import opened Common

  /** The claims the session reads from a token's payload. */
  datatype Claims = Claims(email: string, perfil: string)

  /** `User` as the session builds it. */
  datatype User = User(id: string, email: string, nome: string, role: string)

  /** The storage key of the token. */
  const TokenKey: string := "authToken"

  /** Why `login` throws: the login request failed, the reply had no
      `access_token` ("Token não recebido"), or the token did not decode. */
  datatype LoginError = RequestFailed | TokenMissing | DecodeFailed

  /** What `userService.login` produced: a failure, or a reply whose
      `access_token` may be missing. */
  datatype LoginReply = Failed | Replied(accessToken: Option<string>)

  /** The user a token's claims describe: the email serves as id and email,
      the name is left empty and the role is the profile claim. */
  function UserOf(c: Claims): (u: User)
    ensures u.id == c.email && u.email == c.email
    ensures u.nome == ""
    ensures u.role == c.perfil
  {
    User(c.email, c.email, "", c.perfil)
  }

  /** `localStorage.getItem(key)`: `null` when nothing is stored. */
  function GetItem(storage: map<string, string>, key: string): (r: Option<string>)
    ensures r.Some? <==> key in storage
    ensures r.Some? ==> r.value == storage[key]
  {
    if key in storage then Some(storage[key]) else None
  }

  class AuthProvider {
    var user: Option<User>
    var loading: bool
    var storage: map<string, string>
    const decode: string -> Option<Claims>

    /** The user, when there is one, is the one the stored token describes. */
    predicate Consistent()
      reads this
    {
      user.Some? ==>
        TokenKey in storage && decode(storage[TokenKey]).Some? && user == Some(UserOf(decode(storage[TokenKey]).value))
    }

    /** The provider mounts with no user, still loading, over the browser's storage. */
    constructor(decode: string -> Option<Claims>, storage: map<string, string>)
      ensures this.decode == decode && this.storage == storage
      ensures user == None && loading
      ensures Consistent()
    {
      this.decode := decode;
      this.storage := storage;
      user := None;
      loading := true;
    }

    /** `logout`: forgets the token and the user. */
    method Logout()
      modifies this
      ensures storage == old(storage) - {TokenKey}
      ensures user == None
      ensures loading == old(loading)
      ensures Consistent()
    {
      storage := storage - {TokenKey};
      user := None;
    }

    /** The mount effect: a stored token that decodes gives the user its claims
        describe, one that does not decode logs out, and without a token
        nothing changes. Loading is over in every case. */
    method Init()
      modifies this
      ensures !loading
      ensures var t := GetItem(old(storage), TokenKey);
        if t.Some? && Truthy(t.value) then
          if decode(t.value).Some? then user == Some(UserOf(decode(t.value).value)) && storage == old(storage)
          else user == None && storage == old(storage) - {TokenKey}
        else user == old(user) && storage == old(storage)
      ensures old(Consistent()) ==> Consistent()
    {
      var token := GetItem(storage, TokenKey);
      if token.Some? && Truthy(token.value) {
        var claims := decode(token.value);
        if claims.Some? {
          user := Some(UserOf(claims.value));
        } else {
          Logout();
        }
      }
      loading := false;
    }

    /** `login` once `userService.login` settled. With an `access_token` the
        token is stored first and decoded after: an undecodable one is left
        stored while the user stays as it was. Without a token, or when the
        request failed, nothing changes. */
    method Login(reply: LoginReply) returns (outcome: Outcome<LoginError>)
      modifies this
      ensures reply.Failed? ==> outcome == Fail(RequestFailed)
      ensures reply.Replied? && !(reply.accessToken.Some? && Truthy(reply.accessToken.value)) ==>
        outcome == Fail(TokenMissing)
      ensures outcome == Fail(RequestFailed) || outcome == Fail(TokenMissing) ==>
        storage == old(storage) && user == old(user)
      ensures reply.Replied? && reply.accessToken.Some? && Truthy(reply.accessToken.value) ==>
        storage == old(storage)[TokenKey := reply.accessToken.value] &&
        (var claims := decode(reply.accessToken.value);
         if claims.Some? then outcome == Pass && user == Some(UserOf(claims.value))
         else outcome == Fail(DecodeFailed) && user == old(user))
      ensures loading == old(loading)
      ensures old(Consistent()) && outcome != Fail(DecodeFailed) ==> Consistent()
      ensures outcome == Fail(DecodeFailed) ==> (Consistent() <==> user == None)
    {
      match reply
      case Failed =>
        outcome := Fail(RequestFailed);
      case Replied(accessToken) =>
        if accessToken.Some? && Truthy(accessToken.value) {
          storage := storage[TokenKey := accessToken.value];
          var claims := decode(accessToken.value);
          if claims.Some? {
            user := Some(UserOf(claims.value));
            outcome := Pass;
          } else {
            outcome := Fail(DecodeFailed);
          }
        } else {
          outcome := Fail(TokenMissing);
        }
    }
  }

  const UseAuthError: string := "useAuth must be used within an AuthProvider"

  /** `useAuth`: the context of the nearest provider, and an error outside any provider. */
  function UseAuth<C>(context: Option<C>): (r: Result<C, string>)
    ensures r.Err? <==> context.None?
    ensures r.Ok? ==> r.value == context.value
    ensures r.Err? ==> r.error == UseAuthError
  {
    match context
    case None => Err(UseAuthError)
    case Some(c) => Ok(c)
  }
}
