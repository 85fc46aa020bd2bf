/** The dashboard's refresh protocol: one page, a refresh token in local storage, an access token in memory only, the
    shared `refreshInFlight` slot, any number of page fetches, and the bootstrap of `AuthProvider` racing them; and the
    refreshes of any number of other tabs, which share local storage but neither the slot nor the access token.
    A refused refresh is obeyed, not interpreted. An event that is not enabled leaves the state alone. */
module DashboardSession {
  import opened Api

  datatype End = NoToken | Saved | NotOk | Threw
  datatype RefreshReply = Issued(serial: nat) | Denied | Failed
  datatype AttemptPhase =
    | Posting
    | Answered(reply: RefreshReply)
    | Parsing(serial: nat)
    | Returning(end: End)
    | Done(end: End)
  datatype Attempt = Attempt(used: Option<nat>, phase: AttemptPhase)

  datatype CallPhase = Fetching | Waiting(attempt: nat) | Ended(result: CallResult)
  datatype Call = Call(retry: bool, header: Option<nat>, phase: CallPhase)

  datatype Boot = Mounted | Refreshing(attempt: nat) | LoadingUser(call: nat) | Authenticated | Unauthenticated

  /** A refresh in another tab: its request is out, it holds the new pair, it was refused, or it is over. */
  datatype OtherPhase = Asking | Holding(serial: nat) | Turned | Over
  datatype Other = Other(used: Option<nat>, phase: OtherPhase)

  datatype State = State(
    access: Option<nat>,   // token-store: the module variable
    refresh: Option<nat>,  // token-store: the local storage key, which all tabs share
    clears: nat,           // how often tokenStore.clear has run, in any tab
    live: Option<nat>,     // server
    issued: nat,           // server
    slot: Option<nat>,
    attempts: seq<Attempt>,
    calls: seq<Call>,
    boot: Boot,
    others: seq<Other>)

  datatype Fault = Handles | FailsFirst | FailsAfter
  datatype Delivery = Intact | Lost | Garbled

  datatype Event =
    | StartFetch
    | CallAnswered(call: nat, reply: Reply)
    | Resume(call: nat)
    | BootStart
    | BootResume
    | BootLoaded
    | LoseRequest(attempt: nat)
    | ServerHandles(attempt: nat, fault: Fault)
    | Deliver(attempt: nat, delivery: Delivery)
    | StoreTokens(attempt: nat)
    | Finally(attempt: nat)
    | OtherStarts
    | OtherHandled(other: nat)
    | OtherSettles(other: nat)

  /** A freshly loaded page of a signed-in user. */
  function Init(serial: nat): State {
    State(None, Some(serial), 0, Some(serial), serial + 1, None, [], [], Mounted, [])
  }

  function Clear(s: State): State {
    s.(access := None, refresh := None, clears := s.clears + 1)
  }

  function SetCall(s: State, c: nat, call: Call): State
    requires c < |s.calls|
  {
    s.(calls := s.calls[c := call])
  }

  function SetPhase(s: State, a: nat, phase: AttemptPhase): State
    requires a < |s.attempts|
  {
    s.(attempts := s.attempts[a := s.attempts[a].(phase := phase)])
  }

  /** `refreshTokens`, which reads local storage in the same turn. */
  function Join(s: State): (State, nat) {
    if s.slot.Some? then (s, s.slot.value)
    else
      var started := Attempt(s.refresh, if s.refresh.None? then Returning(NoToken) else Posting);
      (s.(slot := Some(|s.attempts|), attempts := s.attempts + [started]), |s.attempts|)
  }

  function OnAnswer(s: State, c: nat, reply: Reply): State
    requires c < |s.calls|
  {
    var call := s.calls[c];
    match reply
    case NoReply => SetCall(s, c, call.(phase := Ended(Unreachable)))
    case Status(code, readable) =>
      if code == 401 && !call.retry then
        var (s', a) := Join(s);
        SetCall(s', c, call.(phase := Waiting(a)))
      else SetCall(s, c, call.(phase := Ended(Settle(code, readable))))
  }

  function OnResume(s: State, c: nat, end: End): State
    requires c < |s.calls|
  {
    match end
    case Saved => SetCall(s, c, Call(true, s.access, Fetching))
    case Threw => SetCall(s, c, s.calls[c].(phase := Ended(Unreachable)))
    case _ => SetCall(Clear(s), c, s.calls[c].(phase := Ended(SessionExpired)))
  }

  /** `bootstrap` from its `await refreshTokens` on; a rejection lands in its `catch`. */
  function OnBootResume(s: State, end: End): State {
    if end == Saved
    then s.(calls := s.calls + [Call(false, s.access, Fetching)], boot := LoadingUser(|s.calls|))
    else Clear(s).(boot := Unauthenticated)
  }

  function OnServer(s: State, a: nat, fault: Fault): State
    requires a < |s.attempts|
  {
    if fault == FailsFirst then SetPhase(s, a, Answered(Failed))
    else if s.live.Some? && s.attempts[a].used == s.live then
      SetPhase(s.(live := Some(s.issued), issued := s.issued + 1), a,
               Answered(if fault == FailsAfter then Failed else Issued(s.issued)))
    else SetPhase(s, a, Answered(if fault == FailsAfter then Failed else Denied))
  }

  function OnDelivery(s: State, a: nat, reply: RefreshReply, d: Delivery): State
    requires a < |s.attempts|
  {
    if d == Lost then SetPhase(s, a, Returning(Threw))
    else if reply.Issued? then SetPhase(s, a, if d == Garbled then Returning(Threw) else Parsing(reply.serial))
    else SetPhase(s, a, Returning(NotOk))
  }

  function StepAttempt(s: State, e: Event, a: nat): State
    requires a < |s.attempts|
  {
    var phase := s.attempts[a].phase;
    match e
    case LoseRequest(_) => if phase.Posting? then SetPhase(s, a, Returning(Threw)) else s
    case ServerHandles(_, f) => if phase.Posting? then OnServer(s, a, f) else s
    case Deliver(_, d) => if phase.Answered? then OnDelivery(s, a, phase.reply, d) else s
    case StoreTokens(_) =>
      if phase.Parsing?
      then SetPhase(s.(access := Some(phase.serial), refresh := Some(phase.serial)), a, Returning(Saved)) else s
    case Finally(_) => if phase.Returning? then SetPhase(s.(slot := None), a, Done(phase.end)) else s
    case _ => s
  }

  function StepBoot(s: State, e: Event): State {
    match e
    case BootStart =>
      if !s.boot.Mounted? then s
      else if s.refresh.None? then s.(boot := Unauthenticated)
      else var (s', a) := Join(s); s'.(boot := Refreshing(a))
    case BootResume =>
      if s.boot.Refreshing? && s.boot.attempt < |s.attempts| && s.attempts[s.boot.attempt].phase.Done?
      then OnBootResume(s, s.attempts[s.boot.attempt].phase.end) else s
    case BootLoaded =>
      if s.boot.LoadingUser? && s.boot.call < |s.calls| && s.calls[s.boot.call].phase.Ended?
      then
        if s.calls[s.boot.call].phase.result == Success then s.(boot := Authenticated)
        else Clear(s).(boot := Unauthenticated)
      else s
    case _ => s
  }

  function StepCall(s: State, e: Event, c: nat): State
    requires c < |s.calls|
  {
    var phase := s.calls[c].phase;
    match e
    case CallAnswered(_, reply) => if phase.Fetching? then OnAnswer(s, c, reply) else s
    case Resume(_) =>
      if phase.Waiting? && phase.attempt < |s.attempts| && s.attempts[phase.attempt].phase.Done?
      then OnResume(s, c, s.attempts[phase.attempt].phase.end) else s
    case _ => s
  }

  function SetOther(s: State, i: nat, phase: OtherPhase): State
    requires i < |s.others|
  {
    s.(others := s.others[i := s.others[i].(phase := phase)])
  }

  /** The server honours or refuses another tab's token; that tab stores the new pair, or clears the shared key. */
  function StepOther(s: State, e: Event, i: nat): State
    requires i < |s.others|
  {
    match e
    case OtherHandled(_) =>
      if !s.others[i].phase.Asking? then s
      else if s.live.Some? && s.others[i].used == s.live
      then SetOther(s.(live := Some(s.issued), issued := s.issued + 1), i, Holding(s.issued))
      else SetOther(s, i, Turned)
    case OtherSettles(_) =>
      if s.others[i].phase.Holding? then SetOther(s.(refresh := Some(s.others[i].phase.serial)), i, Over)
      else if s.others[i].phase.Turned? then SetOther(s.(refresh := None, clears := s.clears + 1), i, Over)
      else s
    case _ => s
  }

  function Step(s: State, e: Event): State {
    if e.StartFetch? then s.(calls := s.calls + [Call(false, s.access, Fetching)])
    else if e.BootStart? || e.BootResume? || e.BootLoaded? then StepBoot(s, e)
    else if e.CallAnswered? || e.Resume? then if e.call < |s.calls| then StepCall(s, e, e.call) else s
    else if e.OtherStarts? then
      if s.refresh.Some? then s.(others := s.others + [Other(s.refresh, Asking)]) else s
    else if e.OtherHandled? || e.OtherSettles? then if e.other < |s.others| then StepOther(s, e, e.other) else s
    else if e.attempt < |s.attempts| then StepAttempt(s, e, e.attempt) else s
  }

  function Run(s: State, es: seq<Event>): State
    decreases |es|
  {
    if es == [] then s else Step(Run(s, es[..|es| - 1]), es[|es| - 1])
  }

  lemma RunLast(s: State, es: seq<Event>, e: Event)
    ensures Run(s, es + [e]) == Step(Run(s, es), e)
  {
    assert (es + [e])[..|es|] == es;
  }

  // ---- The hypotheses --------------------------------------------------------------------------------

  /** Every request is answered and every rotation delivered, and the server accepts every access token it has issued.
      Page fetches may fail in any other way. */
  predicate Fair(s: State, e: Event) {
    match e
    case LoseRequest(_) => false
    case ServerHandles(_, f) => f == Handles
    case Deliver(_, d) => d == Intact
    case CallAnswered(c, reply) => reply.Status? && (c < |s.calls| && s.calls[c].header.Some? ==> reply.code != 401)
    case _ => true
  }

  /** The request for a refresh is out, or its answer is not stored yet. */
  predicate PageBusy(s: State) {
    s.slot.Some? && s.slot.value < |s.attempts|
    && var phase := s.attempts[s.slot.value].phase; phase.Posting? || phase.Answered? || phase.Parsing?
  }

  predicate OthersIdle(s: State) {
    forall i | 0 <= i < |s.others| :: s.others[i].phase == Over
  }

  /** A refresh begins, in this tab or another. */
  predicate Starts(s: State, e: Event) {
    s.refresh.Some?
    && match e
       case OtherStarts => true
       case BootStart => s.slot.None? && s.boot.Mounted?
       case CallAnswered(c, reply) =>
         s.slot.None? && c < |s.calls| && s.calls[c].phase.Fetching? && !s.calls[c].retry
         && reply.Status? && reply.code == 401
       case _ => false
  }

  /** No refresh begins while another tab's, or this one's, is on its way. */
  predicate Apart(s: State, e: Event) {
    Starts(s, e) ==> !PageBusy(s) && OthersIdle(s)
  }

  /** The bootstrap's own `/auth/me` brings the user. */
  predicate Loads(s: State, e: Event) {
    e.BootLoaded? && s.boot.LoadingUser? && s.boot.call < |s.calls| && s.calls[s.boot.call].phase.Ended? ==>
      s.calls[s.boot.call].phase.result == Success
  }

  predicate FairRun(serial: nat, es: seq<Event>)
    decreases |es|
  {
    es == [] || (FairRun(serial, es[..|es| - 1]) && Fair(Run(Init(serial), es[..|es| - 1]), es[|es| - 1]))
  }

  predicate ApartRun(serial: nat, es: seq<Event>)
    decreases |es|
  {
    es == [] || (ApartRun(serial, es[..|es| - 1]) && Apart(Run(Init(serial), es[..|es| - 1]), es[|es| - 1]))
  }

  predicate LoadsRun(serial: nat, es: seq<Event>)
    decreases |es|
  {
    es == [] || (LoadsRun(serial, es[..|es| - 1]) && Loads(Run(Init(serial), es[..|es| - 1]), es[|es| - 1]))
  }
}
