/**
 * What a screen handler does to the outside world, recorded in order:
 * alerts it shows, changes to its `loading` flag, calls into the auth
 * service and navigation requests. A screen's log of effects is the
 * observable behaviour of its handlers.
 */
module Ui {
  import opened Common

  /** The route every signed-in screen sends the user to. */
  const TabsRoute: string := "/(tabs)"

  datatype Effect =
    | Alert(title: string, message: string)
    | SetLoading(on: bool)
    | RegisterCall(email: string, password: string, fullName: string)
    | LoginCall(email: string, password: string)
    | Replace(route: string)

  /** How an awaited auth-service call settles: the promise resolves, or rejects with an error. */
  datatype CallOutcome = Resolved | Rejected(message: string)

  /** The value of a `loading` flag that started at `start` after the effects `fx` were applied in order. */
  function LoadingAfter(start: bool, fx: seq<Effect>): bool
    decreases fx
  {
    if fx == [] then start
    else LoadingAfter(if fx[0].SetLoading? then fx[0].on else start, fx[1..])
  }

  /** Applying two logs one after the other is applying their concatenation. */
  lemma {:induction false} LoadingAfterAppend(start: bool, a: seq<Effect>, b: seq<Effect>)
    ensures LoadingAfter(start, a + b) == LoadingAfter(LoadingAfter(start, a), b)
    decreases a
  {
    if a == [] {
      assert a + b == b;
    } else {
      assert (a + b)[1..] == a[1..] + b;
      LoadingAfterAppend(if a[0].SetLoading? then a[0].on else start, a[1..], b);
    }
  }

  /** The flag is decided by the last `SetLoading` effect, whatever came before it. */
  lemma {:induction false} LoadingAfterLastSet(start: bool, fx: seq<Effect>, on: bool)
    ensures LoadingAfter(start, fx + [SetLoading(on)]) == on
  {
    LoadingAfterAppend(start, fx, [SetLoading(on)]);
  }

  /** A log with no `SetLoading` effect leaves the flag where it was. */
  lemma {:induction false} LoadingAfterNoSet(start: bool, fx: seq<Effect>)
    requires forall k :: 0 <= k < |fx| ==> !fx[k].SetLoading?
    ensures LoadingAfter(start, fx) == start
    decreases fx
  {
    if fx != [] {
      LoadingAfterNoSet(start, fx[1..]);
    }
  }

  /**
   * The redirect effect both auth screens run whenever the session's
   * `user` changes: a signed-in user is sent to the tabs, and nothing
   * happens for a signed-out one.
   */
  function RedirectEffects(user: Option<Uid>): (fx: seq<Effect>)
    ensures fx != [] <==> user.Some?
    ensures forall k :: 0 <= k < |fx| ==> fx[k] == Replace(TabsRoute)
    ensures |fx| <= 1
  {
    if user.Some? then [Replace(TabsRoute)] else []
  }

  /**
   * The state of an auth screen: its `loading` hook and the log of every
   * effect its handlers have had. The flag always agrees with the last
   * `SetLoading` in the log.
   */
  class ScreenState {
    var loading: bool
    var effects: seq<Effect>

    ghost predicate Valid()
      reads this
    {
      loading == LoadingAfter(false, effects)
    }

    /** `useState(false)`: a freshly mounted screen is not loading and has done nothing. */
    constructor ()
      ensures Valid() && !loading && effects == []
    {
      loading := false;
      effects := [];
    }

    /** Records an effect that is not a change of the flag. */
    method Emit(e: Effect)
      requires Valid() && !e.SetLoading?
      modifies this
      ensures Valid()
      ensures effects == old(effects) + [e] && loading == old(loading)
    {
      LoadingAfterAppend(false, effects, [e]);
      effects := effects + [e];
    }

    /** `setLoading(on)`. */
    method SetLoadingFlag(on: bool)
      requires Valid()
      modifies this
      ensures Valid()
      ensures effects == old(effects) + [SetLoading(on)] && loading == on
    {
      LoadingAfterLastSet(false, effects, on);
      effects := effects + [SetLoading(on)];
      loading := on;
    }

    /** The effect on `user`: a signed-in user is sent to the tabs with `router.replace`. */
    method OnUserChanged(user: Option<Uid>)
      requires Valid()
      modifies this
      ensures Valid()
      ensures effects == old(effects) + RedirectEffects(user) && loading == old(loading)
    {
      if user.Some? {
        Emit(Replace(TabsRoute));
      }
    }
  }
}
