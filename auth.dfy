/** The authentication context of the front end: a single user record that
    `login` and `logout` replace, and the hook that reads it. */
module Auth {
  import opened Wrappers

  /** The user record: whether signed in, and the bearer token (`null` is None). */
  datatype User = User(isAuthenticated: bool, token: Option<string>)

  /** The record the provider starts with and `logout` restores. */
  const SignedOut := User(false, None)

  /** The flag says signed in exactly when there is a token. */
  predicate Consistent(user: User) {
    user.isAuthenticated <==> user.token.Some?
  }

  /** What a component can ask of the provider. */
  datatype Action = Login(token: string) | Logout

  /** The record after one action: the new record does not depend on the old one. */
  function Apply(user: User, action: Action): (r: User)
    ensures Consistent(r)
    ensures action.Login? ==> r.isAuthenticated && r.token == Some(action.token)
    ensures action.Logout? ==> r == SignedOut
  {
    match action
    case Login(token) => User(true, Some(token))
    case Logout => SignedOut
  }

  function ApplyAll(user: User, actions: seq<Action>): User
    decreases |actions|
  {
    if actions == [] then user else ApplyAll(Apply(user, actions[0]), actions[1..])
  }

  /** Logging out twice is logging out once. */
  lemma LogoutIdempotent(user: User)
    ensures Apply(Apply(user, Logout), Logout) == Apply(user, Logout)
  {
  }

  /** After any actions from the initial record, the flag and the token agree, and
      the record is the one the last action set. */
  lemma {:induction false} ApplyAllConsistent(user: User, actions: seq<Action>)
    requires Consistent(user)
    ensures Consistent(ApplyAll(user, actions))
    ensures actions != [] ==> ApplyAll(user, actions) == Apply(user, actions[|actions| - 1])
    decreases |actions|
  {
    if actions != [] {
      ApplyAllConsistent(Apply(user, actions[0]), actions[1..]);
      if |actions| > 1 {
        assert actions[1..][|actions[1..]| - 1] == actions[|actions| - 1];
      }
    }
  }

  /** The authentication provider component. */
  class AuthProvider {
    var user: User

    constructor ()
      ensures user == SignedOut && Consistent(user)
    {
      user := SignedOut;
    }

    /** `login(token)` */
    method Login(token: string)
      modifies this
      ensures user == Apply(old(user), Action.Login(token))
      ensures user.isAuthenticated && user.token == Some(token)
    {
      user := User(true, Some(token));
    }

    /** `logout()` */
    method Logout()
      modifies this
      ensures user == Apply(old(user), Action.Logout)
      ensures user == SignedOut
    {
      user := User(false, None);
    }
  }

  /** The context value a provider publishes. */
  datatype ContextValue = ContextValue(user: User)

  /** A JavaScript call that returns a value or throws an `Error` with a message. */
  datatype Thrown<+T> = Returned(value: T) | Threw(message: string)

  const OutsideProviderMessage := "useAuth must be used within an AuthProvider"

  /** `useAuth()`, given the value of the nearest provider, if any. */
  function UseAuth(context: Option<ContextValue>): (r: Thrown<ContextValue>)
    ensures r.Threw? <==> context.None?
    ensures r.Threw? ==> r.message == OutsideProviderMessage
    ensures r.Returned? ==> r.value == context.value
  {
    match context
    case None => Threw(OutsideProviderMessage)
    case Some(value) => Returned(value)
  }
}
