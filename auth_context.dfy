/** The authentication context: the signed-in user and whether the provider has answered yet. */
module AuthContext {
  import opened Wrappers

  /** The identity provider's user object, reduced to what the app reads. */
  datatype FirebaseUser = FirebaseUser(uid: string, email: Option<string>)

  /** The value the context shares. */
  datatype AuthState = AuthState(user: Option<FirebaseUser>, loading: bool)

  /** The context's default value and the provider's initial state. */
  const Initial: AuthState := AuthState(None, true)

  /** One auth-state callback: the user becomes the reported one and loading ends. */
  function Step(s: AuthState, current: Option<FirebaseUser>): (r: AuthState)
    ensures r.user == current && !r.loading
  {
    AuthState(current, false)
  }

  /** The state after a series of callbacks, oldest first. */
  function Replay(s: AuthState, events: seq<Option<FirebaseUser>>): AuthState
    decreases |events|
  {
    if events == [] then s else Replay(Step(s, events[0]), events[1..])
  }

  /** Loading holds after a series of callbacks exactly when it held before and there were none. */
  lemma {:induction false} ReplayLoading(s: AuthState, events: seq<Option<FirebaseUser>>)
    ensures Replay(s, events).loading <==> s.loading && events == []
    decreases |events|
  {
    if events != [] {
      ReplayLoading(Step(s, events[0]), events[1..]);
    }
  }

  /** After at least one callback the user is the one the latest callback reported. */
  lemma {:induction false} ReplayUser(s: AuthState, events: seq<Option<FirebaseUser>>)
    requires events != []
    ensures Replay(s, events).user == events[|events| - 1]
    decreases |events|
  {
    if |events| > 1 {
      ReplayUser(Step(s, events[0]), events[1..]);
    }
  }

  /** Once loading is false it stays false, whatever callbacks follow. */
  lemma {:induction false} LoadingNeverReturns(s: AuthState, events: seq<Option<FirebaseUser>>)
    requires !s.loading
    ensures !Replay(s, events).loading
  {
    ReplayLoading(s, events);
  }

  /** The provider renders its children only once loading is over. */
  predicate RendersChildren(s: AuthState) {
    !s.loading
  }

  /** From the initial state, children appear exactly when at least one callback has arrived. */
  lemma ChildrenAfterFirstCallback(events: seq<Option<FirebaseUser>>)
    ensures RendersChildren(Replay(Initial, events)) <==> events != []
  {
    ReplayLoading(Initial, events);
  }

  class AuthProvider {
    var user: Option<FirebaseUser>
    var loading: bool
    /** The callbacks received so far, oldest first. */
    ghost var events: seq<Option<FirebaseUser>>

    ghost predicate Valid()
      reads this
    {
      AuthState(user, loading) == Replay(Initial, events)
    }

    constructor ()
      ensures Valid() && events == []
      ensures user.None? && loading
    {
      user, loading := None, true;
      events := [];
    }

    /** The `onAuthStateChanged` callback. */
    method OnAuthStateChanged(currentUser: Option<FirebaseUser>)
      requires Valid()
      modifies this
      ensures Valid() && events == old(events) + [currentUser]
      ensures user == currentUser && !loading
    {
      ReplayAppend(Initial, events, currentUser);
      user := currentUser;
      loading := false;
      events := events + [currentUser];
    }
  }

  /** One more callback on top of a replay is one more step. */
  lemma {:induction false} ReplayAppend(s: AuthState, events: seq<Option<FirebaseUser>>,
                                        current: Option<FirebaseUser>)
    ensures Replay(s, events + [current]) == Step(Replay(s, events), current)
    decreases |events|
  {
    if events == [] {
      assert [] + [current] == [current];
    } else {
      assert (events + [current])[1..] == events[1..] + [current];
      ReplayAppend(Step(s, events[0]), events[1..], current);
    }
  }
}
