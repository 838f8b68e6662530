/**
 * The registration screen's `handleRegister`: the name checks, then creating
 * the credential, then writing the profile, then going to the login screen.
 * The backend appears only as the results its calls return.
 */
module Registration {
  import opened Options
  import opened Profiles

  const NameRequired := "Name is required"
  const NameTaken := "Name already taken"
  const LoginScreen := "Login"

  /** The new account the auth service returns. */
  datatype Credential = Credential(uid: string, email: string)

  /** What `createUserWithEmailAndPassword` did. */
  datatype AuthResult = Created(credential: Credential) | AuthFailed(message: string)

  /** What `setDoc` did. */
  datatype WriteResult = Stored | WriteFailed(message: string)

  /**
   * What `getDocs` on the `users` collection saw (the collection, keyed by
   * document id), or that it rejected.
   */
  datatype QueryResult = Users(profiles: map<string, UserData>) | QueryFailed

  /** A request the handler makes of the backend or of the navigator, in the order made. */
  datatype Request =
    | QueryByName(name: string)
    | CreateCredential(email: string, password: string)
    | SetProfile(uid: string, profile: UserData)
    | Navigate(screen: string)

  /** The position of each kind of request in the fixed sequence of steps. */
  function Step(r: Request): nat {
    match r
    case QueryByName(_) => 0
    case CreateCredential(_, _) => 1
    case SetProfile(_, _) => 2
    case Navigate(_) => 3
  }

  /**
   * The result of one `handleRegister`: the message passed to `setError`, if it
   * was called; the requests made; and whether the handler's promise rejected
   * (the uniqueness query sits outside the `try`).
   */
  datatype Outcome = Outcome(error: Option<string>, requests: seq<Request>, rejected: bool)

  /** `where('name', '==', name)` finds a document: some profile has exactly this name. */
  predicate Taken(profiles: map<string, UserData>, name: string): (t: bool)
    ensures t ==> |profiles| > 0
    ensures forall id :: id in profiles && profiles[id].name == Some(name) ==> t
  {
    exists id :: id in profiles && profiles[id].name == Some(name)
  }

  /** The name check is exact: a different letter case or surrounding space is a different name. */
  lemma TakenIsExact(profile: UserData)
    requires profile.name == Some("Alice")
    ensures Taken(map["uid1" := profile], "Alice")
    ensures !Taken(map["uid1" := profile], "alice") && !Taken(map["uid1" := profile], " Alice")
  {
    assert map["uid1" := profile]["uid1"].name == Some("Alice");
    assert "alice" != "Alice" && " Alice" != "Alice" by {
      assert "alice"[0] != "Alice"[0];
      assert |" Alice"| != |"Alice"|;
    }
  }

  /** The profile written for a new account. */
  function NewProfile(name: string, credential: Credential): (p: UserData)
    ensures p.name == Some(name) && p.email == Some(credential.email) && p.uid == Some(credential.uid)
  {
    UserData(Some(name), Some(credential.email), Some(credential.uid))
  }

  /** Did the registration go all the way to the login screen? */
  predicate Succeeded(o: Outcome) {
    |o.requests| == 4
  }

  function Register(name: string, email: string, password: string,
                    query: QueryResult, auth: AuthResult, write: WriteResult): (o: Outcome)
    // The steps always run in the same order and stop at the first failure.
    ensures forall i :: 0 <= i < |o.requests| ==> Step(o.requests[i]) == i
    ensures o.rejected ==> o.error == None && |o.requests| == 1
    ensures o.error.None? <==> o.rejected || Succeeded(o)
    // `!name` is the only local check: the empty string, and nothing else, is refused before any request.
    ensures name == "" <==> o.requests == []
    ensures name == "" ==> o.error == Some(NameRequired) && !o.rejected
    ensures name != "" ==> o.requests[0] == QueryByName(name)
    // A name some profile already has, compared exactly, stops before the credential is created.
    ensures name != "" && query.Users? && Taken(query.profiles, name) ==>
              o == Outcome(Some(NameTaken), [QueryByName(name)], false)
    // A failed uniqueness query rejects the handler's promise and shows nothing.
    ensures name != "" && query.QueryFailed? ==> o == Outcome(None, [QueryByName(name)], true)
    // A free name goes on to create the credential.
    ensures name != "" && query.Users? && !Taken(query.profiles, name) ==>
              |o.requests| > 1
    ensures |o.requests| > 1 ==> query.Users? && !Taken(query.profiles, name)
    ensures |o.requests| > 1 ==> o.requests[1] == CreateCredential(email, password)
    // A failure of the auth service or of the profile write is shown verbatim.
    ensures |o.requests| == 2 ==> auth.AuthFailed? && o.error == Some(auth.message)
    ensures |o.requests| > 2 ==> auth.Created?
    ensures |o.requests| == 3 ==> write.WriteFailed? && o.error == Some(write.message)
    ensures name != "" && query.Users? && !Taken(query.profiles, name) && auth.AuthFailed? ==>
              o == Outcome(Some(auth.message), [QueryByName(name), CreateCredential(email, password)], false)
    ensures name != "" && query.Users? && !Taken(query.profiles, name) && auth.Created? && write.WriteFailed? ==>
              o == Outcome(Some(write.message),
                           [QueryByName(name), CreateCredential(email, password),
                            SetProfile(auth.credential.uid, NewProfile(name, auth.credential))], false)
    // Success writes exactly one profile, under the new uid, then goes to the login screen.
    ensures Succeeded(o) <==> name != "" && query.Users? && !Taken(query.profiles, name) && auth.Created? && write.Stored?
    ensures Succeeded(o) ==>
              o.requests[2] == SetProfile(auth.credential.uid, NewProfile(name, auth.credential)) &&
              o.requests[3] == Navigate(LoginScreen)
  {
    if name == "" then Outcome(Some(NameRequired), [], false)
    else
      var asked := [QueryByName(name)];
      match query
      case QueryFailed => Outcome(None, asked, true)
      case Users(profiles) =>
        if Taken(profiles, name) then Outcome(Some(NameTaken), asked, false)
        else
          var creating := asked + [CreateCredential(email, password)];
          match auth
          case AuthFailed(message) => Outcome(Some(message), creating, false)
          case Created(credential) =>
            var writing := creating + [SetProfile(credential.uid, NewProfile(name, credential))];
            match write
            case WriteFailed(message) => Outcome(Some(message), writing, false)
            case Stored => Outcome(None, writing + [Navigate(LoginScreen)], false)
  }

  /** The profiles collection after the requests of one registration took effect. */
  function Apply(profiles: map<string, UserData>, requests: seq<Request>): map<string, UserData> {
    if requests == [] then profiles
    else
      var rest := Apply(profiles, requests[..|requests| - 1]);
      match requests[|requests| - 1]
      case SetProfile(uid, profile) => rest[uid := profile]
      case _ => rest
  }

  /** Once a registration succeeded, registering the same name again is refused as taken. */
  lemma NameTakenAfterRegistering(profiles: map<string, UserData>, name: string, email: string, password: string,
                                  auth: AuthResult, email': string, password': string,
                                  query': QueryResult, auth': AuthResult, write': WriteResult)
    requires Succeeded(Register(name, email, password, Users(profiles), auth, Stored))
    requires query' == Users(Apply(profiles, Register(name, email, password, Users(profiles), auth, Stored).requests))
    ensures Register(name, email', password', query', auth', write') ==
              Outcome(Some(NameTaken), [QueryByName(name)], false)
  {
    var requests := Register(name, email, password, Users(profiles), auth, Stored).requests;
    var uid := auth.credential.uid;
    // Unroll `Apply` over the four requests of the successful registration.
    assert requests[..3][..2][..1][..0] == [];
    assert Apply(profiles, requests)[uid].name == Some(name);
  }

  /** The state of the registration screen. */
  class RegisterScreen {
    var name: string
    var email: string
    var password: string
    /** The message under the form; shown when it is not empty. */
    var error: string
    /** The requests made to the backend and the navigator so far. */
    var requests: seq<Request>

    constructor ()
      ensures name == "" && email == "" && password == "" && error == "" && requests == []
    {
      name, email, password, error := "", "", "", "";
      requests := [];
    }

    /**
     * `handleRegister`, step by step with its early returns: `error` changes only
     * when `setError` is called (a success leaves it as it was), and the requests
     * made are those of `Register`.
     */
    method HandleRegister(query: QueryResult, auth: AuthResult, write: WriteResult) returns (rejected: bool)
      modifies this`error, this`requests
      ensures var o := Register(name, email, password, query, auth, write);
              && error == (if o.error.Some? then o.error.value else old(error))
              && requests == old(requests) + o.requests
              && rejected == o.rejected
    {
      rejected := false;
      if name == "" {
        error := NameRequired;
        return;
      }
      requests := requests + [QueryByName(name)];
      if query.QueryFailed? {
        rejected := true;
        return;
      }
      if Taken(query.profiles, name) {
        error := NameTaken;
        return;
      }
      requests := requests + [CreateCredential(email, password)];
      if auth.AuthFailed? {
        error := auth.message;
        return;
      }
      var credential := auth.credential;
      requests := requests + [SetProfile(credential.uid, NewProfile(name, credential))];
      if write.WriteFailed? {
        error := write.message;
        return;
      }
      requests := requests + [Navigate(LoginScreen)];
    }
  }
}
