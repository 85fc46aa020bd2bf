/** The offline payment queue as a step machine: storage reads and writes, the turns of `enqueuePayment` and
    `flushQueue` between them, the server, and the death of the app. A payment is the ticket it drew when its
    enqueue read storage. An event that is not enabled leaves the state alone. */
module QueueRuns {
  import opened Api

  /** What became of one POST of a payment. */
  datatype Fate =
    | Open                        // the flush awaits its answer
    | Judged(result: CallResult)  // answered; the shortened queue is not stored yet
    | Removed                     // 2xx, and the payment has left the stored queue
    | Refused(result: CallResult) // 4xx, and the payment has left the stored queue
    | GaveUp(result: CallResult)  // the flush stopped there; the payment stays queued
    | Orphaned(answered: bool)    // the app died first; the payment stays queued

  /** `call` names the `apiFetch` that made the request; `processed` says whether the server has recorded it. */
  datatype Request = Request(ticket: nat, call: nat, processed: bool, fate: Fate)

  /** Where `flushQueue` is; `flushing` is true in every phase but Idle. `copy` is its in-memory queue. */
  datatype Phase =
    | Idle
    | Loading
    | Ready(copy: seq<nat>)
    | Posting(copy: seq<nat>, request: nat)
    | Storing(copy: seq<nat>, request: nat)

  datatype State = State(
    stored: seq<nat>,             // storage: bf.paymentQueue
    writing: map<nat, seq<nat>>,  // enqueues between get and set: ticket -> the list to be stored
    next: nat,
    committed: set<nat>,          // tickets whose set has happened
    phase: Phase,
    rejected: seq<nat>,           // the running flush's `rejected`
    reported: set<nat>,           // tickets in the `rejected` of a flush that returned
    log: seq<Request>)

  datatype Event =
    | EnqueueReads(call: nat, processed: bool)
    | EnqueueStores(ticket: nat)
    | FlushStarts
    | FlushReads
    | FlushTurn(call: nat)
    | ServerProcesses(request: nat)
    | FlushAnswered(result: CallResult)
    | FlushStores
    | Crash

  function Init(): State {
    State([], map[], 0, {}, Idle, [], {}, [])
  }

  function SetFate(log: seq<Request>, i: nat, fate: Fate, processed: bool): seq<Request>
    requires i < |log|
  {
    log[i := log[i].(fate := fate, processed := processed)]
  }

  function Elements(q: seq<nat>): set<nat> {
    set t | t in q
  }

  function Finish(s: State): State {
    s.(phase := Idle, rejected := [], reported := s.reported + Elements(s.rejected))
  }

  function OnAnswer(s: State, r: CallResult): State {
    if !s.phase.Posting? || s.phase.copy == [] || s.phase.request >= |s.log| then s else
    var i, copy := s.phase.request, s.phase.copy;
    if r == Success then
      s.(phase := Storing(copy[1..], i), log := SetFate(s.log, i, Judged(r), true))
    else if ClientError(r) then
      if s.log[i].processed then s
      else s.(phase := Storing(copy[1..], i), log := SetFate(s.log, i, Judged(r), false),
              rejected := s.rejected + [s.log[i].ticket])
    else
      Finish(s.(log := SetFate(s.log, i, GaveUp(r), s.log[i].processed || r == Unreadable)))
  }

  /** The loop head: post the first payment of the in-memory queue, or return. */
  function OnTurn(s: State, call: nat): State {
    if !s.phase.Ready? then s
    else if s.phase.copy == [] then Finish(s)
    else s.(phase := Posting(s.phase.copy, |s.log|), log := s.log + [Request(s.phase.copy[0], call, false, Open)])
  }

  function OnStored(s: State): State {
    if !s.phase.Storing? || s.phase.request >= |s.log| || !s.log[s.phase.request].fate.Judged? then s else
    var i := s.phase.request;
    var r := s.log[i].fate.result;
    s.(stored := s.phase.copy, phase := Ready(s.phase.copy),
       log := SetFate(s.log, i, if r == Success then Removed else Refused(r), s.log[i].processed))
  }

  /** Memory is gone, storage is not. */
  function OnCrash(s: State): State {
    s.(phase := Idle, rejected := [], writing := map[],
       log := if (s.phase.Posting? || s.phase.Storing?) && s.phase.request < |s.log|
              then SetFate(s.log, s.phase.request, Orphaned(s.phase.Storing?), s.log[s.phase.request].processed)
              else s.log)
  }

  /** A request the server has not handled can still reach it, unless it has been answered. */
  predicate StillUnderway(req: Request) {
    !req.processed && req.fate in {Open, Orphaned(false), GaveUp(Unreachable)}
  }

  function Step(s: State, e: Event): State {
    match e
    case EnqueueReads(call, processed) =>
      s.(writing := s.writing[s.next := s.stored + [s.next]], next := s.next + 1,
         log := s.log + [Request(s.next, call, processed, GaveUp(Unreachable))])
    case EnqueueStores(t) =>
      if t !in s.writing then s
      else s.(stored := s.writing[t], writing := s.writing - {t}, committed := s.committed + {t})
    case FlushStarts => if s.phase.Idle? then s.(phase := Loading, rejected := []) else s
    case FlushReads => if s.phase.Loading? then s.(phase := Ready(s.stored)) else s
    case FlushTurn(call) => OnTurn(s, call)
    case ServerProcesses(i) =>
      if i < |s.log| && StillUnderway(s.log[i]) then s.(log := SetFate(s.log, i, s.log[i].fate, true)) else s
    case FlushAnswered(r) => OnAnswer(s, r)
    case FlushStores => OnStored(s)
    case Crash => OnCrash(s)
  }

  function Run(s: State, es: seq<Event>): State
    decreases |es|
  {
    if es == [] then s else Step(Run(s, es[..|es| - 1]), es[|es| - 1])
  }

  lemma RunLast(s: State, es: seq<Event>, e: Event)
    ensures Run(s, es + [e]) == Step(Run(s, es), e)
  {
    assert (es + [e])[..|es|] == es;
  }

  // ---- Order, in every interleaving ----------------------------------------------------------------

  ghost predicate Increasing(q: seq<nat>, bound: nat) {
    && (forall i, j | 0 <= i < j < |q| :: q[i] < q[j])
    && (forall i | 0 <= i < |q| :: q[i] < bound)
  }

  ghost predicate Ordered(s: State) {
    && Increasing(s.stored, s.next)
    && (forall t | t in s.writing :: Increasing(s.writing[t], s.next))
    && (s.phase.Ready? || s.phase.Posting? || s.phase.Storing? ==> Increasing(s.phase.copy, s.next))
  }

  lemma OrderedStep(s: State, e: Event)
    requires Ordered(s)
    ensures Ordered(Step(s, e))
  {
  }

  /** However enqueues, flushes, crashes and replies interleave, every list ever stored is strictly increasing in
      the order in which enqueues read storage: nothing is reordered and nothing is stored twice. */
  lemma {:induction false} StoredInOrder(es: seq<Event>)
    ensures Ordered(Run(Init(), es))
  {
    if es != [] {
      StoredInOrder(es[..|es| - 1]);
      OrderedStep(Run(Init(), es[..|es| - 1]), es[|es| - 1]);
    }
  }
}
