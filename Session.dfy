/**
 * The global session store of app/lib/puter.ts: platform readiness, the signed-in user and the
 * last error, changed only by the store's own operations.
 *
 * Each operation is specified by an effect function of the state before the call and the
 * platform's answers; the effect is the list of states the operation hands to zustand's `set`,
 * in order, because each of them is seen by subscribers. The `Store` class performs the
 * operation field by field and is proved to publish exactly that list.
 */
module Session {
  import opened Remote

  /** A Puter account; only the user name is read by the rest of the application. */
  datatype User = User(uuid: string, username: Option<string>)

  /** How the four `puter.auth` calls settle during one store operation. */
  datatype AuthApi = AuthApi(isSignedIn: Outcome<bool>, getUser: Outcome<User>, signIn: Ack, signOut: Ack)

  /** `getPuter()`: `None` while `window.puter` is missing. */
  type Platform = Option<AuthApi>

  /** The data fields of the store. */
  datatype StoreState = StoreState(
    isAuthenticating: bool,
    error: Option<string>,
    puterReady: bool,
    user: Option<User>,
    isAuthenticated: bool)

  const Initial := StoreState(true, None, false, None, false)

  const NotAvailable := "Puter.js not available"
  const LoadTimeout := "Puter.js failed to load within 10 seconds"
  const CheckFailed := "Failed to check auth status"
  const SignInFailed := "Sign in failed"
  const SignOutFailed := "Sign out failed"
  const RefreshFailed := "Failed to refresh user"

  /** `init` looks for the platform every 100 ms and gives up after 10 000 ms. */
  const PollIntervalMs: nat := 100
  const LoadBudgetMs: nat := 10000
  /**
   * Ticks count poll intervals: tick 0 is the synchronous check inside `init`, tick k for
   * 0 < k < DeadlineTick is the k-th interval callback (at k * 100 ms), and DeadlineTick is the
   * timeout callback (at 10 000 ms). The 100th interval callback is due at that same instant; the
   * model runs the timeout first, so a platform that first appears after the 9 900 ms callback and
   * by 10 000 ms stops the search without being marked ready.
   */
  const DeadlineTick: nat := LoadBudgetMs / PollIntervalMs

  /** The store's invariant: a user is present exactly when the store says it is authenticated. */
  predicate Consistent(s: StoreState) {
    s.isAuthenticated <==> s.user.Some?
  }

  predicate AllConsistent(states: seq<StoreState>) {
    forall i :: 0 <= i < |states| ==> Consistent(states[i])
  }

  function Last(states: seq<StoreState>): StoreState
    requires |states| > 0
  {
    states[|states| - 1]
  }

  /** What every failure path leaves behind. */
  predicate FailedWith(s: StoreState, msg: string) {
    s.error == Some(msg) && !s.isAuthenticating && s.user.None? && !s.isAuthenticated
  }

  /** `setError(msg)`. */
  function SetErrorEffect(s: StoreState, msg: string): (t: StoreState)
    ensures FailedWith(t, msg) && Consistent(t)
    ensures t.puterReady == s.puterReady
  {
    s.(error := Some(msg), isAuthenticating := false, user := None, isAuthenticated := false)
  }

  /** `set({ isAuthenticating: true, error: null })`, done before every platform call. */
  function Begin(s: StoreState): StoreState {
    s.(isAuthenticating := true, error := None)
  }

  function SignedInAs(s: StoreState, u: User): StoreState {
    s.(user := Some(u), isAuthenticated := true, isAuthenticating := false)
  }

  function SignedOut(s: StoreState): StoreState {
    s.(user := None, isAuthenticated := false, isAuthenticating := false)
  }

  /** The states `checkAuthStatus` publishes and the boolean it resolves to. */
  datatype Probe = Probe(published: seq<StoreState>, signedIn: bool)

  /** Whether the platform answers "signed in" and then hands over the user. */
  predicate ProbeSucceeds(p: Platform) {
    p.Some? && p.value.isSignedIn == Resolved(true) && p.value.getUser.Resolved?
  }

  /** Whether `checkAuthStatus` ends in `setError`. */
  predicate ProbeFails(p: Platform) {
    || p.None?
    || p.value.isSignedIn.Rejected?
    || (p.value.isSignedIn == Resolved(true) && p.value.getUser.Rejected?)
  }

  function CheckAuthStatusEffect(s: StoreState, p: Platform): (r: Probe)
    ensures |r.published| >= 1
    ensures Consistent(s) ==> AllConsistent(r.published)
    // the promise resolves to exactly the flag the store holds afterwards, with the probe finished
    ensures r.signedIn == Last(r.published).isAuthenticated
    ensures !Last(r.published).isAuthenticating
    ensures Last(r.published).puterReady == s.puterReady
    ensures r.signedIn <==> ProbeSucceeds(p)
    ensures r.signedIn ==> Last(r.published).user == Some(p.value.getUser.value)
    // an error is recorded exactly on the failure paths, and always with the full failure shape
    ensures Last(r.published).error.Some? <==> ProbeFails(p)
    ensures ProbeFails(p) ==> FailedWith(Last(r.published), Last(r.published).error.value)
    ensures p.None? ==> r.published == [SetErrorEffect(s, NotAvailable)]
    ensures p.Some? ==> r.published[0] == Begin(s) && |r.published| == 2
    ensures p.Some? && p.value.isSignedIn.Rejected? ==>
      Last(r.published).error == Some(MessageOf(p.value.isSignedIn.reason, CheckFailed))
    ensures p.Some? && p.value.isSignedIn == Resolved(true) && p.value.getUser.Rejected? ==>
      Last(r.published).error == Some(MessageOf(p.value.getUser.reason, CheckFailed))
  {
    match p
    case None => Probe([SetErrorEffect(s, NotAvailable)], false)
    case Some(api) =>
      var b := Begin(s);
      match api.isSignedIn
      case Rejected(e) => Probe([b, SetErrorEffect(b, MessageOf(e, CheckFailed))], false)
      case Resolved(false) => Probe([b, SignedOut(b)], false)
      case Resolved(true) =>
        match api.getUser
        case Rejected(e) => Probe([b, SetErrorEffect(b, MessageOf(e, CheckFailed))], false)
        case Resolved(u) => Probe([b, SignedInAs(b, u)], true)
  }

  /** The states `signIn` publishes: sign in remotely, then probe again. */
  function SignInEffect(s: StoreState, p: Platform): (t: seq<StoreState>)
    ensures |t| >= 1
    ensures Consistent(s) ==> AllConsistent(t)
    ensures !Last(t).isAuthenticating && Last(t).puterReady == s.puterReady
    ensures p.None? ==> t == [SetErrorEffect(s, NotAvailable)]
    ensures p.Some? ==> t[0] == Begin(s)
    ensures Last(t).isAuthenticated <==> p.Some? && p.value.signIn.Resolved? && ProbeSucceeds(p)
    ensures Last(t).isAuthenticated ==> Last(t).user == Some(p.value.getUser.value)
    // an error is left exactly when the platform is missing, the sign-in rejects or the probe fails
    ensures Last(t).error.Some? <==> p.None? || p.value.signIn.Rejected? || ProbeFails(p)
    ensures Last(t).error.Some? ==> FailedWith(Last(t), Last(t).error.value)
    ensures p.Some? && p.value.signIn.Rejected? ==>
      Last(t).error == Some(MessageOf(p.value.signIn.reason, SignInFailed))
    // after a resolved sign-in the rest is the probe's own states, started from the cleared error
    ensures p.Some? && p.value.signIn.Resolved? ==> t[1..] == CheckAuthStatusEffect(Begin(s), p).published
  {
    match p
    case None => [SetErrorEffect(s, NotAvailable)]
    case Some(api) =>
      var b := Begin(s);
      match api.signIn
      case Rejected(e) => [b, SetErrorEffect(b, MessageOf(e, SignInFailed))]
      case Resolved(_) => [b] + CheckAuthStatusEffect(b, p).published
  }

  /** The states `signOut` publishes. */
  function SignOutEffect(s: StoreState, p: Platform): (t: seq<StoreState>)
    ensures |t| >= 1
    ensures Consistent(s) ==> AllConsistent(t)
    // signed out afterwards whatever the platform answered
    ensures !Last(t).isAuthenticated && Last(t).user.None? && !Last(t).isAuthenticating
    ensures Last(t).puterReady == s.puterReady
    ensures p.None? ==> t == [SetErrorEffect(s, NotAvailable)]
    ensures p.Some? ==> t[0] == Begin(s)
    ensures Last(t).error.None? <==> p.Some? && p.value.signOut.Resolved?
    ensures p.Some? && p.value.signOut.Rejected? ==>
      Last(t).error == Some(MessageOf(p.value.signOut.reason, SignOutFailed))
  {
    match p
    case None => [SetErrorEffect(s, NotAvailable)]
    case Some(api) =>
      var b := Begin(s);
      match api.signOut
      case Rejected(e) => [b, SetErrorEffect(b, MessageOf(e, SignOutFailed))]
      case Resolved(_) => [b, SignedOut(b)]
  }

  /** The states `refreshUser` publishes: it trusts `getUser` without asking `isSignedIn`. */
  function RefreshUserEffect(s: StoreState, p: Platform): (t: seq<StoreState>)
    ensures |t| >= 1
    ensures Consistent(s) ==> AllConsistent(t)
    ensures !Last(t).isAuthenticating && Last(t).puterReady == s.puterReady
    ensures p.None? ==> t == [SetErrorEffect(s, NotAvailable)]
    ensures p.Some? ==> t[0] == Begin(s)
    ensures Last(t).isAuthenticated <==> p.Some? && p.value.getUser.Resolved?
    ensures Last(t).isAuthenticated ==> Last(t).user == Some(p.value.getUser.value) && Last(t).error.None?
    ensures !Last(t).isAuthenticated ==> Last(t).error.Some? && FailedWith(Last(t), Last(t).error.value)
    ensures p.Some? && p.value.getUser.Rejected? ==>
      Last(t).error == Some(MessageOf(p.value.getUser.reason, RefreshFailed))
  {
    match p
    case None => [SetErrorEffect(s, NotAvailable)]
    case Some(api) =>
      var b := Begin(s);
      match api.getUser
      case Rejected(e) => [b, SetErrorEffect(b, MessageOf(e, RefreshFailed))]
      case Resolved(u) => [b, SignedInAs(b, u)]
  }

  /** `clearError`. */
  function ClearErrorEffect(s: StoreState): (t: StoreState)
    ensures t.error.None?
    ensures t.(error := s.error) == s
    ensures Consistent(s) ==> Consistent(t)
  {
    s.(error := None)
  }

  /** The first tick in [from, DeadlineTick) at which the platform is present, if any. */
  function FirstTick(present: nat -> bool, from: nat): (d: Option<nat>)
    ensures d.Some? ==> from <= d.value < DeadlineTick && present(d.value)
    ensures forall k :: from <= k < (if d.Some? then d.value else DeadlineTick) ==> !present(k)
    decreases DeadlineTick - from
  {
    if from >= DeadlineTick then None
    else if present(from) then Some(from)
    else FirstTick(present, from + 1)
  }

  /** What `init` publishes, and the tick at which it found the platform. */
  datatype Boot = Boot(published: seq<StoreState>, detectedAt: Option<nat>)

  function InitEffect(s: StoreState, present: nat -> bool, api: AuthApi): (r: Boot)
    ensures Consistent(s) ==> AllConsistent(r.published)
    // present at the call: detected at once, no poll runs
    ensures present(0) ==> r.detectedAt == Some(0)
    // detection is the first tick that sees the platform, and readiness is published before the probe
    ensures r.detectedAt == FirstTick(present, 0)
    ensures r.detectedAt.Some? ==>
      && 3 <= |r.published| <= 4
      && r.published[0] == s.(puterReady := true)
      && r.published[1..3] == CheckAuthStatusEffect(s.(puterReady := true), Some(api)).published
      && Last(r.published).puterReady
    // found by an interval callback but gone again at 10 000 ms: the pending timeout still sets its error
    ensures r.detectedAt.Some? ==>
      (|r.published| == 4 <==> r.detectedAt.value > 0 && !present(DeadlineTick))
    ensures r.detectedAt.Some? && |r.published| == 4 ==> r.published[3] == SetErrorEffect(r.published[2], LoadTimeout)
    // never seen before the deadline and still missing then: the timeout error
    ensures r.detectedAt.None? && !present(DeadlineTick) ==>
      r.published == [SetErrorEffect(s, LoadTimeout)] && Last(r.published).puterReady == s.puterReady
    // first seen exactly at the deadline: the poll is cancelled and nothing at all is published
    ensures r.detectedAt.None? && present(DeadlineTick) ==> r.published == []
  {
    var detectedAt := FirstTick(present, 0);
    Boot(Settled(s, detectedAt, present(DeadlineTick), api), detectedAt)
  }

  /**
   * What `init` publishes once the search has ended: readiness and the probe after a sighting;
   * the timeout error whenever the timeout was set up (no sighting at tick 0) and the platform is
   * missing at the deadline. The probe is taken to settle before the deadline.
   */
  function Settled(s: StoreState, detectedAt: Option<nat>, presentAtDeadline: bool, api: AuthApi): seq<StoreState> {
    if detectedAt.Some? then
      var ready := s.(puterReady := true);
      var probed := [ready] + CheckAuthStatusEffect(ready, Some(api)).published;
      if detectedAt.value > 0 && !presentAtDeadline then probed + [SetErrorEffect(Last(probed), LoadTimeout)]
      else probed
    else if presentAtDeadline then []
    else [SetErrorEffect(s, LoadTimeout)]
  }

  /** One call on the store, with the platform it sees. */
  datatype Op =
    | SetErrorOp(msg: string)
    | CheckAuthStatusOp(p: Platform)
    | SignInOp(p: Platform)
    | SignOutOp(p: Platform)
    | RefreshUserOp(p: Platform)
    | InitOp(present: nat -> bool, api: AuthApi)
    | ClearErrorOp

  /** The states one call publishes. */
  function OpEffect(s: StoreState, op: Op): (t: seq<StoreState>)
    ensures Consistent(s) ==> AllConsistent(t)
  {
    match op
    case SetErrorOp(msg) => [SetErrorEffect(s, msg)]
    case CheckAuthStatusOp(p) => CheckAuthStatusEffect(s, p).published
    case SignInOp(p) => SignInEffect(s, p)
    case SignOutOp(p) => SignOutEffect(s, p)
    case RefreshUserOp(p) => RefreshUserEffect(s, p)
    case InitOp(present, api) => InitEffect(s, present, api).published
    case ClearErrorOp => [ClearErrorEffect(s)]
  }

  /** Every state published by the calls `ops`, made one after another from `s`. */
  function Replay(s: StoreState, ops: seq<Op>): seq<StoreState>
    decreases |ops|
  {
    if ops == [] then []
    else
      var t := OpEffect(s, ops[0]);
      t + Replay(if t == [] then s else Last(t), ops[1..])
  }

  /**
   * Whatever calls are made, in whatever order and however the platform answers, no subscriber
   * ever sees an authenticated store without a user or a user in a signed-out store.
   */
  lemma {:induction false} ReplayKeepsInvariant(s: StoreState, ops: seq<Op>)
    requires Consistent(s)
    ensures AllConsistent(Replay(s, ops))
    decreases |ops|
  {
    if ops != [] {
      var t := OpEffect(s, ops[0]);
      var next := if t == [] then s else Last(t);
      ReplayKeepsInvariant(next, ops[1..]);
      assert Replay(s, ops) == t + Replay(next, ops[1..]);
    }
  }

  /** The same from the store `create` builds. */
  lemma InitialReplayKeepsInvariant(ops: seq<Op>)
    ensures Consistent(Initial)
    ensures AllConsistent(Replay(Initial, ops))
  {
    ReplayKeepsInvariant(Initial, ops);
  }

  /**
   * The interval callbacks of `init`: at ticks 1, 2, ... before the deadline, look for the platform
   * and stop at the first sighting. Returns that tick and how many callbacks ran.
   */
  method Poll(present: nat -> bool) returns (detected: Option<nat>, polls: nat)
    ensures detected == FirstTick(present, 1)
    ensures polls == if detected.Some? then detected.value else DeadlineTick - 1
  {
    var tick := 1;
    polls := 0;
    while tick < DeadlineTick
      invariant 1 <= tick <= DeadlineTick
      invariant polls == tick - 1
      invariant FirstTick(present, tick) == FirstTick(present, 1)
    {
      polls := polls + 1;
      if present(tick) {
        return Some(tick), polls;
      }
      tick := tick + 1;
    }
    return None, polls;
  }

  class Store {
    var isAuthenticating: bool
    var error: Option<string>
    var puterReady: bool
    var user: Option<User>
    var isAuthenticated: bool
    /** Every state handed to `set` so far, oldest first; the last one is the current state. */
    ghost var published: seq<StoreState>

    function State(): StoreState
      reads this
    {
      StoreState(isAuthenticating, error, puterReady, user, isAuthenticated)
    }

    /** Every state a subscriber has seen, the current one included, keeps the user invariant. */
    ghost predicate Valid()
      reads this
    {
      |published| >= 1 && Last(published) == State() && AllConsistent(published)
    }

    /** The store as `create` builds it. */
    constructor ()
      ensures Valid() && State() == Initial && published == [Initial]
    {
      isAuthenticating, error, puterReady, user, isAuthenticated := true, None, false, None, false;
      published := [Initial];
    }

    /** Hands the current fields to subscribers, as one `set` call does. */
    method Publish()
      modifies this
      ensures State() == old(State())
      ensures published == old(published) + [State()]
    {
      published := published + [State()];
    }

    method SetError(msg: string)
      requires Valid()
      modifies this
      ensures Valid()
      ensures published == old(published) + [SetErrorEffect(old(State()), msg)]
    {
      error, isAuthenticating, user, isAuthenticated := Some(msg), false, None, false;
      Publish();
    }

    /** Clears the error and marks a platform call in progress. */
    method BeginCall()
      requires Valid()
      modifies this
      ensures Valid()
      ensures published == old(published) + [Begin(old(State()))]
    {
      isAuthenticating, error := true, None;
      Publish();
    }

    method CheckAuthStatus(p: Platform) returns (signedIn: bool)
      requires Valid()
      modifies this
      ensures Valid()
      ensures published == old(published) + CheckAuthStatusEffect(old(State()), p).published
      ensures signedIn == CheckAuthStatusEffect(old(State()), p).signedIn
    {
      if p.None? {
        SetError(NotAvailable);
        return false;
      }
      BeginCall();
      match p.value.isSignedIn
      case Rejected(e) =>
        SetError(MessageOf(e, CheckFailed));
        signedIn := false;
      case Resolved(yes) =>
        if yes {
          match p.value.getUser
          case Rejected(e) =>
            SetError(MessageOf(e, CheckFailed));
            signedIn := false;
          case Resolved(u) =>
            user, isAuthenticated, isAuthenticating := Some(u), true, false;
            Publish();
            signedIn := true;
        } else {
          user, isAuthenticated, isAuthenticating := None, false, false;
          Publish();
          signedIn := false;
        }
    }

    method SignIn(p: Platform)
      requires Valid()
      modifies this
      ensures Valid()
      ensures published == old(published) + SignInEffect(old(State()), p)
    {
      if p.None? {
        SetError(NotAvailable);
        return;
      }
      BeginCall();
      match p.value.signIn
      case Rejected(e) =>
        SetError(MessageOf(e, SignInFailed));
      case Resolved(_) =>
        var _ := CheckAuthStatus(p);
    }

    method SignOut(p: Platform)
      requires Valid()
      modifies this
      ensures Valid()
      ensures published == old(published) + SignOutEffect(old(State()), p)
    {
      if p.None? {
        SetError(NotAvailable);
        return;
      }
      BeginCall();
      match p.value.signOut
      case Rejected(e) =>
        SetError(MessageOf(e, SignOutFailed));
      case Resolved(_) =>
        user, isAuthenticated, isAuthenticating := None, false, false;
        Publish();
    }

    method RefreshUser(p: Platform)
      requires Valid()
      modifies this
      ensures Valid()
      ensures published == old(published) + RefreshUserEffect(old(State()), p)
    {
      if p.None? {
        SetError(NotAvailable);
        return;
      }
      BeginCall();
      match p.value.getUser
      case Rejected(e) =>
        SetError(MessageOf(e, RefreshFailed));
      case Resolved(u) =>
        user, isAuthenticated, isAuthenticating := Some(u), true, false;
        Publish();
    }

    method ClearError()
      requires Valid()
      modifies this
      ensures Valid()
      ensures published == old(published) + [ClearErrorEffect(old(State()))]
    {
      error := None;
      Publish();
    }

    /**
     * `init`, with `present(k)` telling whether `window.puter` exists at tick k and `api` how the
     * auth calls settle once it does. Returns the tick of detection and the number of interval
     * callbacks that ran.
     */
    method Init(present: nat -> bool, api: AuthApi) returns (detectedAt: Option<nat>, polls: nat)
      requires Valid()
      modifies this
      ensures Valid()
      ensures published == old(published) + InitEffect(old(State()), present, api).published
      ensures detectedAt == InitEffect(old(State()), present, api).detectedAt
      ensures polls == if detectedAt.Some? then detectedAt.value else DeadlineTick - 1
    {
      if present(0) {
        // found at the call: no interval and no timeout are set up
        detectedAt, polls := Some(0), 0;
      } else {
        detectedAt, polls := Poll(present);
      }
      assert detectedAt == FirstTick(present, 0);
      Settle(detectedAt, present(DeadlineTick), api);
    }

    /** The end of `init`: what it does once the platform is seen, or once the timeout fires. */
    method Settle(detectedAt: Option<nat>, presentAtDeadline: bool, api: AuthApi)
      requires Valid()
      modifies this
      ensures Valid()
      ensures published == old(published) + Settled(old(State()), detectedAt, presentAtDeadline, api)
    {
      if detectedAt.Some? {
        OnDetected(api);
        // the timeout was set up unless the platform was there at the call
        if detectedAt.value > 0 && !presentAtDeadline {
          SetError(LoadTimeout);
        }
      } else if !presentAtDeadline {
        SetError(LoadTimeout);
      }
    }

    /** What `init` does once it sees the platform: mark it ready, then probe the session. */
    method OnDetected(api: AuthApi)
      requires Valid()
      modifies this
      ensures Valid()
      ensures published == old(published) + [old(State()).(puterReady := true)]
        + CheckAuthStatusEffect(old(State()).(puterReady := true), Some(api)).published
    {
      puterReady := true;
      Publish();
      var _ := CheckAuthStatus(Some(api));
    }
  }
}
