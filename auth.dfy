/**
 * The session provider (`AuthProvider`): restores a saved session from
 * secure storage, signs in, registers and signs out against the REST API.
 */
module Auth {
  import opened Common

  /** The signed-in user as the server describes it. */
  datatype User = User(id: string, name: string, email: string, isAdmin: bool)

  /** The two reads of secure storage ('userToken', 'userData'; absent when unset), or a thrown error. */
  datatype StoredSession = Stored(token: Option<string>, userData: Option<string>) | StorageFailed

  /**
   * What the login or register endpoint answers: a JSON body with the HTTP
   * status's `ok` flag, or a thrown error (network failure, unreadable body).
   */
  datatype AuthReply = Replied(ok: bool, message: Option<string>, token: Option<string>, user: Option<User>)
                     | Thrown(error: string)

  /** The outcome the caller of an auth operation sees: resolved (with an optional message) or rejected with an error message. */
  datatype Outcome = Resolved(message: Option<string>) | Rejected(error: string)

  const LoginFallback := "Erro ao fazer login"
  const RegisterFallback := "Erro ao registrar"

  /** `data.message || fallback`: an absent or empty message gives the fallback. */
  function ErrorText(message: Option<string>, fallback: string): (r: string)
    ensures message.Some? && message.value != "" ==> r == message.value
    ensures message.None? || message.value == "" ==> r == fallback
  {
    if message.Some? && message.value != "" then message.value else fallback
  }

  /** JavaScript truthiness of a stored string: present and non-empty. */
  predicate Truthy(s: Option<string>) {
    s.Some? && s.value != ""
  }

  class AuthSession {
    var user: Option<User>
    var token: Option<string>
    var isLoading: bool

    /** The session as the app starts: logged out, loading. */
    constructor ()
      ensures user.None? && token.None? && isLoading
    {
      user := None;
      token := None;
      isLoading := true;
    }

    /**
     * `loadStorageData`: with both stored values present the token is
     * restored and then the user (`parsedUser` is what `JSON.parse` makes of
     * the stored user, absent when it throws; the token is set before the
     * parse, so a corrupt user record restores the token alone). Otherwise
     * nothing is restored. Loading ends whatever happened.
     */
    method LoadStorageData(stored: StoredSession, parsedUser: Option<User>)
      modifies this
      ensures stored.Stored? && Truthy(stored.token) && Truthy(stored.userData) ==>
                token == stored.token && user == (if parsedUser.Some? then parsedUser else old(user))
      ensures !(stored.Stored? && Truthy(stored.token) && Truthy(stored.userData)) ==>
                token == old(token) && user == old(user)
      ensures !isLoading
    {
      if stored.Stored? && Truthy(stored.token) && Truthy(stored.userData) {
        token := stored.token;
        if parsedUser.Some? {
          user := parsedUser;
        }
      }
      isLoading := false;
    }

    /**
     * `signIn`: a rejected login raises the server's message (or the fallback)
     * and changes nothing; an accepted one sets the token and the user from the
     * response, then saves them (`saveError` is the error a write to secure
     * storage threw, if one did; it is raised, but the session stays set).
     */
    method SignIn(reply: AuthReply, saveError: Option<string>) returns (outcome: Outcome)
      modifies this`user, this`token
      ensures reply.Thrown? ==> outcome == Rejected(reply.error) && user == old(user) && token == old(token)
      ensures reply.Replied? && !reply.ok ==>
                outcome == Rejected(ErrorText(reply.message, LoginFallback)) && user == old(user) && token == old(token)
      ensures reply.Replied? && reply.ok ==> token == reply.token && user == reply.user
      ensures reply.Replied? && reply.ok ==> outcome == if saveError.Some? then Rejected(saveError.value) else Resolved(None)
    {
      match reply {
        case Thrown(e) =>
          return Rejected(e);
        case Replied(ok, message, t, u) =>
          if !ok {
            return Rejected(ErrorText(message, LoginFallback));
          }
          token := t;
          user := u;
          if saveError.Some? {
            outcome := Rejected(saveError.value);
          } else {
            outcome := Resolved(None);
          }
      }
    }

    /** `register`: never signs in; resolves with the server's message, or raises its message (or the fallback). */
    method Register(reply: AuthReply) returns (outcome: Outcome)
      ensures reply.Thrown? ==> outcome == Rejected(reply.error)
      ensures reply.Replied? && reply.ok ==> outcome == Resolved(reply.message)
      ensures reply.Replied? && !reply.ok ==> outcome == Rejected(ErrorText(reply.message, RegisterFallback))
    {
      match reply {
        case Thrown(e) =>
          outcome := Rejected(e);
        case Replied(ok, message, _, _) =>
          if ok {
            outcome := Resolved(message);
          } else {
            outcome := Rejected(ErrorText(message, RegisterFallback));
          }
      }
    }

    /**
     * `signOut`: the user and the token are cleared first, then both stored
     * values are deleted (`deleteError` is the error a delete threw, if one
     * did; it is raised, but the session stays cleared).
     */
    method SignOut(deleteError: Option<string>) returns (outcome: Outcome)
      modifies this`user, this`token
      ensures user.None? && token.None?
      ensures outcome == if deleteError.Some? then Rejected(deleteError.value) else Resolved(None)
    {
      user := None;
      token := None;
      if deleteError.Some? {
        outcome := Rejected(deleteError.value);
      } else {
        outcome := Resolved(None);
      }
    }
  }
}
