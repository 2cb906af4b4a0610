/** The two external services, reduced to the state the app reads and writes:
    one path of the realtime database, and the authentication provider. A
    call's completion error, which the service decides, is a parameter. */
module Store {
  import opened Wire

  /** The fields of a child, or none if it is not a dictionary. */
  function FieldsOf(v: Value): Fields
  {
    if v.Dict? then v.fields else map[]
  }

  /** One path of the realtime database (`tasks`, `posts`, `calendarEvents`,
      `users`): its children by key. */
  class Collection {
    var children: map<string, Value>

    constructor (initial: map<string, Value>)
      ensures children == initial
    {
      children := initial;
    }

    /** `snapshot.value` of a read of the whole path: a path without children
        reads as null, not as an empty dictionary. */
    function Snapshot(): (v: Value)
      reads this
      ensures v.Dict? <==> children != map[]
      ensures v.Dict? ==> v.fields == children
      ensures !v.Dict? ==> v == Null
    {
      if children == map[] then Null else Dict(children)
    }

    /** `snapshot.value` of a read of `path/key`. */
    function Child(key: string): (v: Value)
      reads this
      ensures key !in children ==> v == Null
      ensures key in children ==> v == children[key]
    {
      if key in children then children[key] else Null
    }

    /** `child(key).setValue(v)`. */
    method SetValue(key: string, v: Value, failure: Option<string>) returns (error: Option<string>)
      modifies this
      ensures error == failure
      ensures children == if failure.None? then old(children)[key := v] else old(children)
    {
      error := failure;
      if failure.None? {
        children := children[key := v];
      }
    }

    /** `child(key).updateChildValues(updates)`: the listed fields are
        overwritten, the child's other fields stay, and a missing child is
        created. */
    method UpdateChildValues(key: string, updates: Fields, failure: Option<string>) returns (error: Option<string>)
      modifies this
      ensures error == failure
      ensures children == if failure.None? then old(children)[key := Dict(FieldsOf(old(Child(key))) + updates)]
                          else old(children)
    {
      error := failure;
      if failure.None? {
        children := children[key := Dict(FieldsOf(Child(key)) + updates)];
      }
    }

    /** `child(key).removeValue()`. */
    method RemoveValue(key: string, failure: Option<string>) returns (error: Option<string>)
      modifies this
      ensures error == failure
      ensures children == if failure.None? then old(children) - {key} else old(children)
    {
      error := failure;
      if failure.None? {
        children := children - {key};
      }
    }
  }

  /** `Auth.auth().currentUser`: the signed-in identity. */
  datatype Session = Session(uid: string, email: Option<string>)

  /** The authentication provider: who is signed in, and which identities exist. */
  class Auth {
    var currentUser: Option<Session>
    var accounts: set<string>

    constructor (session: Option<Session>, accounts: set<string>)
      ensures currentUser == session && this.accounts == accounts
    {
      currentUser := session;
      this.accounts := accounts;
    }

    /** A successful `signIn(withEmail:password:)`: `session` becomes the
        signed-in identity. */
    method SignIn(session: Session)
      modifies this`currentUser
      ensures currentUser == Some(session)
    {
      currentUser := Some(session);
    }

    /** A successful `createUser(withEmail:password:)`: the new identity
        exists and, as the provider does, becomes the signed-in one. */
    method CreateAccount(session: Session)
      modifies this
      ensures accounts == old(accounts) + {session.uid} && currentUser == Some(session)
    {
      accounts := accounts + {session.uid};
      currentUser := Some(session);
    }

    /** `Auth.auth().signOut()`, with `failure` for the error it may throw:
        a sign-out that throws leaves the session signed in. */
    method SignOut(failure: Option<string>) returns (error: Option<string>)
      modifies this`currentUser
      ensures error == failure
      ensures currentUser == if failure.None? then None else old(currentUser)
    {
      error := failure;
      if failure.None? {
        currentUser := None;
      }
    }

    /** `Auth.auth().currentUser?.delete { error in ... }`: deletes the
        signed-in identity, which signs it out; with nobody signed in nothing
        happens and the completion never runs. */
    method DeleteCurrentUser(failure: Option<string>) returns (error: Option<string>)
      modifies this
      ensures old(currentUser).None? ==> error == None && currentUser == None && accounts == old(accounts)
      ensures old(currentUser).Some? && failure.Some? ==>
        error == failure && currentUser == old(currentUser) && accounts == old(accounts)
      ensures old(currentUser).Some? && failure.None? ==>
        error == None && currentUser == None && accounts == old(accounts) - {old(currentUser).value.uid}
    {
      error := None;
      if currentUser.Some? {
        error := failure;
        if failure.None? {
          accounts := accounts - {currentUser.value.uid};
          currentUser := None;
        }
      }
    }

    /** An administrative deletion of the identity `uid`, whoever is signed
        in; deleting the signed-in identity signs it out. */
    method DeleteAccount(uid: string, failure: Option<string>) returns (error: Option<string>)
      modifies this
      ensures error == failure
      ensures failure.Some? ==> accounts == old(accounts) && currentUser == old(currentUser)
      ensures failure.None? ==> accounts == old(accounts) - {uid}
      ensures failure.None? ==>
        currentUser == if old(currentUser).Some? && old(currentUser).value.uid == uid then None else old(currentUser)
    {
      error := failure;
      if failure.None? {
        accounts := accounts - {uid};
        if currentUser.Some? && currentUser.value.uid == uid {
          currentUser := None;
        }
      }
    }
  }
}
