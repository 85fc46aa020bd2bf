/** The turns of `api.ts` and the token half of `storage.ts`, field by field as the source runs them. Every turn is one
    event of the protocol, recorded in `history`: a `Valid` client is one the theorems about runs speak of. */
module MobileClient {
  import opened Api
  import opened MobileSession
  import opened SessionSafety
  import opened SessionTheorems
  import opened SessionSurvival

  /** The server's side of a session. */
  class Server {
    var live: Option<nat>
    var issued: nat

    constructor (serial: nat)
      ensures live == Some(serial) && issued == serial + 1
    {
      live, issued := Some(serial), serial + 1;
    }
  }

  class Client {
    var access: Option<nat>
    var refresh: Option<nat>
    var refreshInFlight: map<nat, nat>
    var attempts: seq<Attempt>
    var calls: seq<Call>
    const server: Server
    var expiries: nat // how often `onSessionExpired` has been called
    ghost const first: nat
    ghost var history: seq<Event>

    function View(): State
      reads this, server
    {
      State(access, refresh, server.live, server.issued, refreshInFlight, attempts, calls)
    }

    /** This client has come about by its history. */
    ghost predicate Valid()
      reads this, server
    {
      View() == Run(Init(first), history)
    }

    constructor (serial: nat)
      ensures Valid() && fresh(server) && first == serial && history == [] && expiries == 0
    {
      access, refresh := Some(serial), Some(serial);
      server := new Server(serial);
      refreshInFlight, attempts, calls, expiries := map[], [], [], 0;
      first, history := serial, [];
    }

    /** What is not a turn of this code: a call begins or sends its request, or the network or the server acts. */
    method Elsewhere(e: Event)
      requires Valid()
      requires e.StartCall? || e.ReadAccess? || e.LoseRequest? || e.ServerHandles? || e.Revoke?
      modifies server, this`attempts, this`calls, this`history
      ensures Valid() && history == old(history) + [e] && View() == Step(old(View()), e)
    {
      var s := Step(View(), e);
      server.live, server.issued := s.live, s.issued;
      attempts, calls := s.attempts, s.calls;
      history := history + [e];
    }

    /** `multiSet` of both keys: one storage write. */
    method SaveTokens(serial: nat)
      modifies this`access, this`refresh
      ensures access == Some(serial) && refresh == Some(serial)
    {
      access := Some(serial);
      refresh := Some(serial);
    }

    /** `multiRemove` of both keys: one storage write. */
    method ClearTokens()
      modifies this`access, this`refresh
      ensures access == None && refresh == None
    {
      access := None;
      refresh := None;
    }

    /** `refreshTokens`: start an attempt unless one is in flight. */
    method RefreshTokens(process: nat) returns (attempt: nat)
      modifies this`refreshInFlight, this`attempts
      ensures (View(), attempt) == Join(old(View()), process)
    {
      if process !in refreshInFlight {
        refreshInFlight := refreshInFlight[process := |attempts|];
        attempts := attempts + [Attempt(process, None, Reading)];
      }
      attempt := refreshInFlight[process];
    }

    method MoveAttempt(a: nat, phase: AttemptPhase)
      requires a < |attempts|
      modifies this`attempts
      ensures attempts == old(attempts)[a := old(attempts)[a].(phase := phase)]
    {
      attempts := attempts[a := attempts[a].(phase := phase)];
    }

    /** `resolveResponse` from its `await rawFetch` on. */
    method ResolveResponse(c: nat, reply: Reply)
      requires Valid()
      requires c < |calls| && calls[c].phase.Fetching?
      modifies this`refreshInFlight, this`attempts, this`calls, this`history
      ensures Valid() && history == old(history) + [CallAnswered(c, reply)] && View() == Step(old(View()), CallAnswered(c, reply))
    {
      history := history + [CallAnswered(c, reply)];
      var call := calls[c];
      call := call.(answers := call.answers + [reply]);
      if reply.NoReply? {
        calls := calls[c := call.(phase := Ended(Unreachable))];
        return;
      }
      if reply.code == 401 && call.via.None? {
        var a := RefreshTokens(call.process);
        calls := calls[c := call.(phase := Waiting(a))];
        return;
      }
      calls := calls[c := call.(phase := Ended(Settle(reply.code, reply.readable)))];
    }

    /** `resolveResponse` from its `await refreshTokens` on. */
    method AfterRefresh(c: nat)
      requires Valid()
      requires c < |calls| && calls[c].phase.Waiting? && calls[c].phase.attempt < |attempts|
      requires attempts[calls[c].phase.attempt].phase.Done?
      modifies this`calls, this`history
      ensures Valid() && history == old(history) + [Resume(c)] && View() == Step(old(View()), Resume(c))
    {
      history := history + [Resume(c)];
      var a := calls[c].phase.attempt;
      var refreshed := Outcome(attempts[a].phase.end);
      var call := calls[c].(via := Some(a), header := None);
      if refreshed.None? {
        call := call.(phase := Ended(Unreachable));
      } else if refreshed.value {
        call := call.(phase := Preparing);
      } else {
        call := call.(phase := Clearing);
      }
      calls := calls[c := call];
    }

    method EndSession(c: nat)
      requires Valid()
      requires c < |calls| && calls[c].phase.Clearing?
      modifies this`access, this`refresh, this`calls, this`expiries, this`history
      ensures Valid() && history == old(history) + [CommitClear(c)] && View() == Step(old(View()), CommitClear(c))
      ensures expiries == old(expiries) + 1
    {
      history := history + [CommitClear(c)];
      ClearTokens();
      expiries := expiries + 1;
      calls := calls[c := calls[c].(phase := Ended(SessionExpired))];
    }

    /** `performRefresh` up to its request. */
    method BeginRefresh(a: nat)
      requires Valid()
      requires a < |attempts| && attempts[a].phase.Reading?
      modifies this`attempts, this`history
      ensures Valid() && history == old(history) + [ReadRefresh(a)] && View() == Step(old(View()), ReadRefresh(a))
    {
      history := history + [ReadRefresh(a)];
      var usedToken := refresh;
      if usedToken.None? {
        MoveAttempt(a, Returning(NoToken));
        return;
      }
      attempts := attempts[a := Attempt(attempts[a].process, usedToken, Posting)];
    }

    /** `performRefresh` from its `await rawFetch` on. */
    method RefreshAnswered(a: nat, d: Delivery)
      requires Valid()
      requires a < |attempts| && attempts[a].phase.Answered?
      modifies this`attempts, this`history
      ensures Valid() && history == old(history) + [Deliver(a, d)] && View() == Step(old(View()), Deliver(a, d))
    {
      history := history + [Deliver(a, d)];
      var reply := attempts[a].phase.reply;
      if d == Lost {
        MoveAttempt(a, Returning(Threw));
        return;
      }
      if reply.Denied? {
        MoveAttempt(a, Rereading);
        return;
      }
      if reply.Failed? {
        MoveAttempt(a, Returning(NotOk));
        return;
      }
      if d == Garbled {
        MoveAttempt(a, Returning(Threw));
        return;
      }
      MoveAttempt(a, Saving(reply.serial));
    }

    /** The second read of storage after a 401. */
    method InterpretRefusal(a: nat)
      requires Valid()
      requires a < |attempts| && attempts[a].phase.Rereading?
      modifies this`attempts, this`history
      ensures Valid() && history == old(history) + [Reread(a)] && View() == Step(old(View()), Reread(a))
    {
      history := history + [Reread(a)];
      var currentToken := refresh;
      if currentToken.Some? && currentToken != attempts[a].used {
        MoveAttempt(a, Returning(Adopted));
        return;
      }
      MoveAttempt(a, Returning(Refused));
    }

    method StoreRotation(a: nat)
      requires Valid()
      requires a < |attempts| && attempts[a].phase.Saving?
      modifies this`access, this`refresh, this`attempts, this`history
      ensures Valid() && history == old(history) + [CommitSave(a)] && View() == Step(old(View()), CommitSave(a))
    {
      history := history + [CommitSave(a)];
      var serial := attempts[a].phase.serial;
      SaveTokens(serial);
      MoveAttempt(a, Returning(Saved(serial)));
    }

    /** The `finally` that empties the slot, on every way out of `performRefresh`. */
    method ReleaseSlot(a: nat)
      requires Valid()
      requires a < |attempts| && attempts[a].phase.Returning?
      modifies this`refreshInFlight, this`attempts, this`history
      ensures Valid() && history == old(history) + [Finally(a)] && View() == Step(old(View()), Finally(a))
    {
      history := history + [Finally(a)];
      refreshInFlight := refreshInFlight - {attempts[a].process};
      MoveAttempt(a, Done(attempts[a].phase.end));
    }
  }

  /** What holds of every client, whatever has happened to it. */
  lemma EveryClient(c: Client)
    requires c.Valid()
    ensures Safe(c.View()) && c.access == c.refresh
  {
    SafeRun(c.first, c.history);
    TokensIssuedTogether(c.first, c.history);
  }

  /** As long as no hypothesis has been broken, `EndSession` has nothing to be called for, and there is a token to
      refresh with. */
  lemma NothingEnds(c: Client)
    requires c.Valid() && Allowed(c.first, c.history)
    ensures c.refresh.Some? && forall k | 0 <= k < |c.calls| :: !c.calls[k].phase.Clearing?
  {
    AllowedIsAlive(c.first, c.history);
    var s := c.View();
    assert forall k | 0 <= k < |s.calls| :: CallAlive(s.refresh.value, s.attempts, s.calls[k]);
  }
}
