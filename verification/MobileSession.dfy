/** The refresh protocol of the mobile client. Tokens are serial numbers: the server's n-th pair is access token n
    with refresh token n. Any number of processes share one token storage; each process has its own
    `refreshInFlight` slot. One event is one JavaScript turn, one storage access or one server action;
    an event that is not enabled leaves the state alone, so every list of events is a run. */
module MobileSession {
  import opened Api

  /** How a `performRefresh` ended. */
  datatype End =
    | NoToken             // nothing stored: false
    | Saved(serial: nat)  // rotated and stored: true
    | Adopted             // 401, but storage holds another token: true
    | Refused             // 401 and storage is unchanged: false
    | NotOk               // any other non-ok status: false
    | Threw               // rejected: no reply, or a reply that does not parse

  datatype RefreshReply = Issued(serial: nat) | Denied | Failed

  datatype AttemptPhase =
    | Reading
    | Posting
    | Answered(reply: RefreshReply)
    | Rereading
    | Saving(serial: nat)
    | Returning(end: End)
    | Done(end: End)

  /** One run of `performRefresh`; `used` is the token it presents. */
  datatype Attempt = Attempt(process: nat, used: Option<nat>, phase: AttemptPhase)

  datatype CallPhase =
    | Preparing
    | Fetching
    | Waiting(attempt: nat)
    | Clearing
    | Ended(result: CallResult)

  /** One `apiFetch`. `via` is the refresh attempt it has waited for, so `via.Some?` is `isRetry`;
      `header` is the access token of its latest request and `answers` is what became of its requests. */
  datatype Call = Call(process: nat, via: Option<nat>, header: Option<nat>, answers: seq<Reply>, phase: CallPhase)

  datatype State = State(
    access: Option<nat>,    // storage: bf.accessToken
    refresh: Option<nat>,   // storage: bf.refreshToken
    live: Option<nat>,      // server: the one refresh token it will honour
    issued: nat,            // server: the next serial to hand out
    slot: map<nat, nat>,    // process -> the attempt behind its refreshInFlight
    attempts: seq<Attempt>,
    calls: seq<Call>)

  datatype Fault = Handles | FailsFirst | FailsAfter
  datatype Delivery = Intact | Lost | Garbled

  datatype Event =
    | StartCall(process: nat)
    | ReadAccess(call: nat)
    | CallAnswered(call: nat, reply: Reply)
    | Resume(call: nat)
    | CommitClear(call: nat)
    | ReadRefresh(attempt: nat)
    | LoseRequest(attempt: nat)
    | ServerHandles(attempt: nat, fault: Fault)
    | Deliver(attempt: nat, delivery: Delivery)
    | Reread(attempt: nat)
    | CommitSave(attempt: nat)
    | Finally(attempt: nat)
    | Revoke

  /** The promise `performRefresh` returns: true, false, or (None) a rejection. */
  function Outcome(e: End): Option<bool> {
    match e
    case Saved(_) => Some(true)
    case Adopted => Some(true)
    case NoToken => Some(false)
    case Refused => Some(false)
    case NotOk => Some(false)
    case Threw => None
  }

  function Init(serial: nat): State {
    State(Some(serial), Some(serial), Some(serial), serial + 1, map[], [], [])
  }

  function SetCall(s: State, c: nat, call: Call): State
    requires c < |s.calls|
  {
    s.(calls := s.calls[c := call])
  }

  function SetPhase(s: State, a: nat, phase: AttemptPhase): State
    requires a < |s.attempts|
  {
    s.(attempts := s.attempts[a := s.attempts[a].(phase := phase)])
  }

  /** `refreshTokens`: the attempt to await, starting one if the slot is empty. */
  function Join(s: State, process: nat): (State, nat) {
    if process in s.slot then (s, s.slot[process])
    else
      var a := |s.attempts|;
      (s.(slot := s.slot[process := a], attempts := s.attempts + [Attempt(process, None, Reading)]), a)
  }

  function OnAnswer(s: State, c: nat, reply: Reply): State
    requires c < |s.calls|
  {
    var call := s.calls[c];
    var heard := call.(answers := call.answers + [reply]);
    match reply
    case NoReply => SetCall(s, c, heard.(phase := Ended(Unreachable)))
    case Status(code, readable) =>
      if code == 401 && call.via.None? then
        var (s', a) := Join(s, call.process);
        SetCall(s', c, heard.(phase := Waiting(a)))
      else
        SetCall(s, c, heard.(phase := Ended(Settle(code, readable))))
  }

  function OnResume(s: State, c: nat, a: nat, end: End): State
    requires c < |s.calls|
  {
    var call := s.calls[c].(via := Some(a), header := None);
    match Outcome(end)
    case Some(true) => SetCall(s, c, call.(phase := Preparing))
    case Some(false) => SetCall(s, c, call.(phase := Clearing))
    case None => SetCall(s, c, call.(phase := Ended(Unreachable)))
  }

  /** The server deletes the presented token and issues the next pair, or answers 401; a fault can hit
      before it has done anything or after. */
  function OnServer(s: State, a: nat, fault: Fault): State
    requires a < |s.attempts|
  {
    if fault == FailsFirst then SetPhase(s, a, Answered(Failed))
    else if s.live.Some? && s.attempts[a].used == s.live then
      SetPhase(s.(live := Some(s.issued), issued := s.issued + 1), a,
               Answered(if fault == FailsAfter then Failed else Issued(s.issued)))
    else SetPhase(s, a, Answered(if fault == FailsAfter then Failed else Denied))
  }

  function OnDelivery(s: State, a: nat, reply: RefreshReply, d: Delivery): State
    requires a < |s.attempts|
  {
    if d == Lost then SetPhase(s, a, Returning(Threw))
    else match reply
      case Issued(n) => SetPhase(s, a, if d == Garbled then Returning(Threw) else Saving(n))
      case Denied => SetPhase(s, a, Rereading)
      case Failed => SetPhase(s, a, Returning(NotOk))
  }

  function OnReread(s: State, a: nat): State
    requires a < |s.attempts|
  {
    SetPhase(s, a, Returning(if s.refresh.Some? && s.refresh != s.attempts[a].used then Adopted else Refused))
  }

  function StepCall(s: State, e: Event, c: nat): State
    requires c < |s.calls|
  {
    var call := s.calls[c];
    match e
    case ReadAccess(_) =>
      if call.phase.Preparing? then SetCall(s, c, call.(header := s.access, phase := Fetching)) else s
    case CallAnswered(_, reply) => if call.phase.Fetching? then OnAnswer(s, c, reply) else s
    case Resume(_) =>
      if call.phase.Waiting? && call.phase.attempt < |s.attempts| && s.attempts[call.phase.attempt].phase.Done?
      then OnResume(s, c, call.phase.attempt, s.attempts[call.phase.attempt].phase.end) else s
    case CommitClear(_) =>
      if call.phase.Clearing?
      then SetCall(s.(access := None, refresh := None), c, call.(phase := Ended(SessionExpired))) else s
    case _ => s
  }

  function StepAttempt(s: State, e: Event, a: nat): State
    requires a < |s.attempts|
  {
    var at := s.attempts[a];
    match e
    case ReadRefresh(_) =>
      if !at.phase.Reading? then s
      else if s.refresh.None? then SetPhase(s, a, Returning(NoToken))
      else s.(attempts := s.attempts[a := Attempt(at.process, s.refresh, Posting)])
    case LoseRequest(_) => if at.phase.Posting? then SetPhase(s, a, Returning(Threw)) else s
    case ServerHandles(_, f) => if at.phase.Posting? then OnServer(s, a, f) else s
    case Deliver(_, d) => if at.phase.Answered? then OnDelivery(s, a, at.phase.reply, d) else s
    case Reread(_) => if at.phase.Rereading? then OnReread(s, a) else s
    case CommitSave(_) =>
      if at.phase.Saving?
      then SetPhase(s.(access := Some(at.phase.serial), refresh := Some(at.phase.serial)), a,
                    Returning(Saved(at.phase.serial))) else s
    case Finally(_) =>
      if at.phase.Returning?
      then SetPhase(s.(slot := s.slot - {at.process}), a, Done(at.phase.end)) else s
    case _ => s
  }

  predicate AboutCall(e: Event) {
    e.ReadAccess? || e.CallAnswered? || e.Resume? || e.CommitClear?
  }

  function Step(s: State, e: Event): State {
    if e.StartCall? then s.(calls := s.calls + [Call(e.process, None, None, [], Preparing)])
    else if e.Revoke? then s.(live := None)
    else if AboutCall(e) then if e.call < |s.calls| then StepCall(s, e, e.call) else s
    else if e.attempt < |s.attempts| then StepAttempt(s, e, e.attempt) else s
  }

  function Run(s: State, es: seq<Event>): State
    decreases |es|
  {
    if es == [] then s else Step(Run(s, es[..|es| - 1]), es[|es| - 1])
  }

  lemma RunLast(s: State, es: seq<Event>, e: Event)
    ensures Run(s, es + [e]) == Step(Run(s, es), e)
  {
    assert (es + [e])[..|es|] == es;
  }
}
