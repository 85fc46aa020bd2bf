/** The turns of the dashboard's `api.ts`, `token-store.ts` and `AuthProvider`'s bootstrap, field by field as the
    source runs them. Each turn is one event of `DashboardSession`, recorded in `history`: a `Valid` page is one its
    theorems speak of. */
module DashboardClient {
  import opened Api
  import opened DashboardSession
  import opened DashboardSafety

  /** What goes on outside the page: the server's side of the session, and the refreshes of other tabs. */
  class World {
    var live: Option<nat>
    var issued: nat
    var others: seq<Other>

    constructor (serial: nat)
      ensures live == Some(serial) && issued == serial + 1 && others == []
    {
      live, issued, others := Some(serial), serial + 1, [];
    }
  }

  predicate IsOutside(e: Event) {
    e.LoseRequest? || e.ServerHandles? || e.OtherStarts? || e.OtherHandled? || e.OtherSettles?
  }

  /** What goes on outside touches neither the page's slot nor its calls nor its bootstrap. */
  lemma OutsideShape(s: State, e: Event)
    requires IsOutside(e)
    ensures var s' := Step(s, e);
      s' == s.(refresh := s'.refresh, clears := s'.clears, live := s'.live, issued := s'.issued,
               attempts := s'.attempts, others := s'.others)
  {
  }

  class Page {
    var accessToken: Option<nat>
    var storedRefresh: Option<nat>
    var clears: nat
    var refreshInFlight: Option<nat>
    var attempts: seq<Attempt>
    var calls: seq<Call>
    var boot: Boot
    const world: World
    var toLogin: nat // how often `window.location.assign('/login')` has been called
    ghost const first: nat
    ghost var history: seq<Event>

    function View(): State
      reads this, world
    {
      State(accessToken, storedRefresh, clears, world.live, world.issued, refreshInFlight, attempts, calls, boot, world.others)
    }

    /** This page has come about by its history. */
    ghost predicate Valid()
      reads this, world
    {
      View() == Run(Init(first), history)
    }

    constructor (serial: nat)
      ensures Valid() && fresh(world) && first == serial && history == [] && toLogin == 0
    {
      accessToken, storedRefresh, clears := None, Some(serial), 0;
      world := new World(serial);
      refreshInFlight, attempts, calls, boot, toLogin := None, [], [], Mounted, 0;
      first, history := serial, [];
    }

    /** A page asks for data. */
    method Fetch()
      requires Valid()
      modifies this`calls, this`history
      ensures Valid() && history == old(history) + [StartFetch] && View() == Step(old(View()), StartFetch)
    {
      history := history + [StartFetch];
      calls := calls + [Call(false, accessToken, Fetching)];
    }

    /** The network loses a refresh request, the server acts on it, or another tab refreshes. */
    method Elsewhere(e: Event)
      requires Valid() && IsOutside(e)
      modifies world, this`storedRefresh, this`clears, this`attempts, this`history
      ensures Valid() && history == old(history) + [e] && View() == Step(old(View()), e)
    {
      OutsideShape(View(), e);
      var s := Step(View(), e);
      world.live, world.issued, world.others := s.live, s.issued, s.others;
      storedRefresh, clears, attempts := s.refresh, s.clears, s.attempts;
      RunLast(Init(first), history, e);
      history := history + [e];
    }

    /** `tokenStore.setTokens` */
    method SetTokens(serial: nat)
      modifies this`accessToken, this`storedRefresh
      ensures accessToken == Some(serial) && storedRefresh == Some(serial)
    {
      accessToken := Some(serial);
      storedRefresh := Some(serial);
    }

    /** `tokenStore.clear` */
    method ClearTokens()
      modifies this`accessToken, this`storedRefresh, this`clears
      ensures View() == Clear(old(View()))
    {
      accessToken := None;
      storedRefresh := None;
      clears := clears + 1;
    }

    /** `refreshTokens` and the first turn of `performRefresh`. */
    method RefreshTokens() returns (attempt: nat)
      modifies this`refreshInFlight, this`attempts
      ensures (View(), attempt) == Join(old(View()))
    {
      if refreshInFlight.None? {
        refreshInFlight := Some(|attempts|);
        if storedRefresh.None? {
          attempts := attempts + [Attempt(None, Returning(NoToken))];
        } else {
          attempts := attempts + [Attempt(storedRefresh, Posting)];
        }
      }
      attempt := refreshInFlight.value;
    }

    /** `apiFetch` from its `await rawFetch` on. */
    method FetchAnswered(c: nat, reply: Reply)
      requires Valid()
      requires c < |calls| && calls[c].phase.Fetching?
      modifies this`refreshInFlight, this`attempts, this`calls, this`history
      ensures Valid() && history == old(history) + [CallAnswered(c, reply)] && View() == Step(old(View()), CallAnswered(c, reply))
    {
      history := history + [CallAnswered(c, reply)];
      if reply.NoReply? {
        calls := calls[c := calls[c].(phase := Ended(Unreachable))];
        return;
      }
      if reply.code == 401 && !calls[c].retry {
        var a := RefreshTokens();
        calls := calls[c := calls[c].(phase := Waiting(a))];
        return;
      }
      calls := calls[c := calls[c].(phase := Ended(Settle(reply.code, reply.readable)))];
    }

    /** `apiFetch` from its `await refreshTokens` on. */
    method FetchResumed(c: nat)
      requires Valid()
      requires c < |calls| && calls[c].phase.Waiting? && calls[c].phase.attempt < |attempts|
      requires attempts[calls[c].phase.attempt].phase.Done?
      modifies this`accessToken, this`storedRefresh, this`clears, this`calls, this`toLogin, this`history
      ensures Valid() && history == old(history) + [Resume(c)] && View() == Step(old(View()), Resume(c))
      ensures toLogin == old(toLogin) + (if calls[c].phase == Ended(SessionExpired) then 1 else 0)
    {
      history := history + [Resume(c)];
      var end := attempts[calls[c].phase.attempt].phase.end;
      if end == Threw {
        calls := calls[c := calls[c].(phase := Ended(Unreachable))];
        return;
      }
      if end == Saved {
        calls := calls[c := Call(true, accessToken, Fetching)];
        return;
      }
      ClearTokens();
      toLogin := toLogin + 1;
      calls := calls[c := calls[c].(phase := Ended(SessionExpired))];
    }

    /** `performRefresh` from its `await rawFetch` on. */
    method RefreshAnswered(a: nat, d: Delivery)
      requires Valid()
      requires a < |attempts| && attempts[a].phase.Answered?
      modifies this`attempts, this`history
      ensures Valid() && history == old(history) + [Deliver(a, d)] && View() == Step(old(View()), Deliver(a, d))
    {
      history := history + [Deliver(a, d)];
      var reply := attempts[a].phase.reply;
      var phase := Returning(Threw);
      if d != Lost {
        if !reply.Issued? {
          phase := Returning(NotOk);
        } else if d == Intact {
          phase := Parsing(reply.serial);
        }
      }
      attempts := attempts[a := attempts[a].(phase := phase)];
    }

    method RefreshParsed(a: nat)
      requires Valid()
      requires a < |attempts| && attempts[a].phase.Parsing?
      modifies this`accessToken, this`storedRefresh, this`attempts, this`history
      ensures Valid() && history == old(history) + [StoreTokens(a)] && View() == Step(old(View()), StoreTokens(a))
    {
      history := history + [StoreTokens(a)];
      SetTokens(attempts[a].phase.serial);
      attempts := attempts[a := attempts[a].(phase := Returning(Saved))];
    }

    method ReleaseSlot(a: nat)
      requires Valid()
      requires a < |attempts| && attempts[a].phase.Returning?
      modifies this`refreshInFlight, this`attempts, this`history
      ensures Valid() && history == old(history) + [Finally(a)] && View() == Step(old(View()), Finally(a))
    {
      history := history + [Finally(a)];
      refreshInFlight := None;
      attempts := attempts[a := attempts[a].(phase := Done(attempts[a].phase.end))];
    }

    /** `bootstrap` up to its first `await`. */
    method Bootstrap()
      requires Valid()
      requires boot.Mounted?
      modifies this`boot, this`refreshInFlight, this`attempts, this`history
      ensures Valid() && history == old(history) + [BootStart] && View() == Step(old(View()), BootStart)
    {
      history := history + [BootStart];
      if storedRefresh.None? {
        boot := Unauthenticated;
        return;
      }
      var a := RefreshTokens();
      boot := Refreshing(a);
    }

    method BootstrapRefreshed()
      requires Valid()
      requires boot.Refreshing? && boot.attempt < |attempts| && attempts[boot.attempt].phase.Done?
      modifies this`boot, this`accessToken, this`storedRefresh, this`clears, this`calls, this`history
      ensures Valid() && history == old(history) + [BootResume] && View() == Step(old(View()), BootResume)
    {
      history := history + [BootResume];
      var end := attempts[boot.attempt].phase.end;
      if end == Threw {
        ClearTokens();
        boot := Unauthenticated;
        return;
      }
      if end != Saved {
        ClearTokens();
        boot := Unauthenticated;
        return;
      }
      boot := LoadingUser(|calls|);
      calls := calls + [Call(false, accessToken, Fetching)];
    }

    method BootstrapLoaded()
      requires Valid()
      requires boot.LoadingUser? && boot.call < |calls| && calls[boot.call].phase.Ended?
      modifies this`boot, this`accessToken, this`storedRefresh, this`clears, this`history
      ensures Valid() && history == old(history) + [BootLoaded] && View() == Step(old(View()), BootLoaded)
    {
      history := history + [BootLoaded];
      if calls[boot.call].phase.result == Success {
        boot := Authenticated;
      } else {
        ClearTokens();
        boot := Unauthenticated;
      }
    }
  }

  /** A page that has met only fair events, whose refreshes never overlapped another tab's and whose user was loaded,
      has its session. */
  lemma EveryFairPage(page: Page)
    requires page.Valid()
    requires FairRun(page.first, page.history) && ApartRun(page.first, page.history) && LoadsRun(page.first, page.history)
    ensures page.clears == 0 && page.storedRefresh.Some? && page.boot != Unauthenticated
  {
    AliveRun(page.first, page.history);
  }
}
