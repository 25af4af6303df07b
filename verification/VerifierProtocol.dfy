/** Every interleaving of enqueuers, workers and readers of the verifier.

    A state change is one atomic section of one goroutine. The clock counts steps, and an
    admitted job is named by the clock value at which its marker was set (its ticket).
    `history` records every published answer, and `seen` which object's reconcile has just
    read a refusal. Both only observe: no step depends on them. */
module VerifierProtocol {
  import opened Meta
  import opened Dialer
  import opened Verifier

  datatype Place =
    | Marked                          // marker set, send not yet attempted
    | Refused                         // queue was full, marker not yet cleared
    | Queued
    | Dialing(worker: nat)
    | Dialed(worker: nat, result: DialResult, doneAt: nat)

  datatype Flight = Flight(job: Job, place: Place) {
    function Owner(): NameKey { job.key.Owner() }
    predicate Held() { place.Dialing? || place.Dialed? }
  }

  datatype Record = Record(ticket: nat, job: Job, result: DialResult, doneAt: nat, at: nat) {
    function Owner(): NameKey { job.key.Owner() }
  }

  datatype State = State(
    clock: nat,
    shared: Shared<nat>,
    flights: map<nat, Flight>,
    history: seq<Record>,
    seen: map<NameKey, Key>)

  datatype Step =
    | Look(owner: NameKey, key: Key)
    | Mark(owner: NameKey, job: Job)
    | Send(ticket: nat)
    | RollBack(ticket: nat)
    | Take(worker: nat)
    | FinishDial(ticket: nat, result: DialResult)
    | Publish(ticket: nat)
    | Forget(owner: NameKey, key: Key)

  function Init(): State { State(0, Shared(map[], {}, []), map[], [], map[]) }

  /** A dial answers for the ports it was asked about, in order. */
  predicate Answers(result: DialResult, ports: seq<int>) {
    |result| == |ports| && forall i :: 0 <= i < |ports| ==> result[i].port == ports[i]
  }

  predicate Enabled(workers: nat, s: State, step: Step) {
    match step
    case Look(_, _) => true
    case Mark(_, _) => true
    case Send(t) => t in s.flights && s.flights[t].place.Marked?
    case RollBack(t) => t in s.flights && s.flights[t].place.Refused?
    case Take(w) => w < workers && s.shared.queue != [] && s.shared.queue[0] in s.flights
                    && forall t :: t in s.flights && s.flights[t].Held() ==> s.flights[t].place.worker != w
    case FinishDial(t, r) => t in s.flights && s.flights[t].place.Dialing? && Answers(r, s.flights[t].job.ports)
    case Publish(t) => t in s.flights && s.flights[t].place.Dialed?
    case Forget(_, _) => true
  }

  function Move(s: State, t: nat, place: Place): State
    requires t in s.flights
  {
    s.(flights := s.flights[t := s.flights[t].(place := place)])
  }

  function Effect(workers: nat, s: State, step: Step): State
    requires Enabled(workers, s, step)
  {
    match step
    case Look(o, key) =>
      var answer := Lookup(s.shared, key);
      s.(seen := if answer.Some? && !AllOpen(answer.value) then s.seen[o := key] else s.seen - {o})
    case Mark(_, job) =>
      if !Admits(s.shared, job.key) then s
      else s.(shared := SetMarker(s.shared, job.key), flights := s.flights[s.clock := Flight(job, Marked)])
    case Send(t) =>
      if HasRoom(s.shared) then Move(s, t, Queued).(shared := Push(s.shared, t)) else Move(s, t, Refused)
    case RollBack(t) =>
      s.(shared := ClearMarker(s.shared, s.flights[t].job.key), flights := s.flights - {t})
    case Take(w) =>
      Move(s, s.shared.queue[0], Dialing(w)).(shared := s.shared.(queue := s.shared.queue[1..]))
    case FinishDial(t, r) =>
      Move(s, t, Dialed(s.flights[t].place.worker, r, s.clock))
    case Publish(t) =>
      var f := s.flights[t];
      s.(shared := Store(s.shared, f.job.key, f.place.result),
         flights := s.flights - {t},
         history := s.history + [Record(t, f.job, f.place.result, f.place.doneAt, s.clock)])
    case Forget(o, key) =>
      s.(shared := Drop(s.shared, key), seen := s.seen - {o})
  }

  function Apply(workers: nat, s: State, step: Step): State
    requires Enabled(workers, s, step)
  {
    Effect(workers, s, step).(clock := s.clock + 1)
  }

  // ----- runs -----

  ghost predicate Legal(workers: nat, s: State, steps: seq<Step>)
    decreases |steps|
  {
    steps == [] || (Enabled(workers, s, steps[0]) && Legal(workers, Apply(workers, s, steps[0]), steps[1..]))
  }

  ghost function Run(workers: nat, s: State, steps: seq<Step>): State
    requires Legal(workers, s, steps)
    decreases |steps|
  {
    if steps == [] then s else Run(workers, Apply(workers, s, steps[0]), steps[1..])
  }

  // ----- single flight -----

  /** The markers are the names of the admitted jobs, one job per name. The place of a
      job says whether an enqueuer, the queue or a worker holds it, so the three groups
      are disjoint. */
  ghost predicate SingleFlight(s: State) {
    OneEach(s.shared.pending, s.flights)
  }

  ghost predicate OneEach(pending: set<NameKey>, flights: map<nat, Flight>) {
    && (forall t :: t in flights ==> flights[t].Owner() in pending)
    && (forall n :: n in pending ==> exists t :: t in flights && flights[t].Owner() == n)
    && (forall t, u :: t in flights && u in flights && t != u ==> flights[t].Owner() != flights[u].Owner())
  }

  /** The queue holds exactly the queued jobs, each once, within its bound. */
  ghost predicate QueueExact(s: State) {
    |s.shared.queue| <= QUEUE_DEPTH && HoldsQueued(s.shared.queue, s.flights)
  }

  ghost predicate HoldsQueued(q: seq<nat>, flights: map<nat, Flight>) {
    && (forall i :: 0 <= i < |q| ==> q[i] in flights && flights[q[i]].place.Queued?)
    && (forall i, j :: 0 <= i < j < |q| ==> q[i] != q[j])
    && (forall t :: t in flights && flights[t].place.Queued? ==> t in q)
  }

  /** A worker holds at most one job. */
  ghost predicate WorkersExact(workers: nat, s: State) {
    && (forall t :: t in s.flights && s.flights[t].Held() ==> s.flights[t].place.worker < workers)
    && (forall t, u :: t in s.flights && u in s.flights && t != u && s.flights[t].Held() && s.flights[u].Held()
                       ==> s.flights[t].place.worker != s.flights[u].place.worker)
  }

  /** No job in flight could answer a question that is already answered. */
  ghost predicate UnansweredInFlight(s: State) {
    forall t :: t in s.flights ==> Lookup(s.shared, s.flights[t].job.key).None?
  }

  // ----- order of answers -----

  ghost predicate Past(s: State) {
    && (forall t :: t in s.flights ==> t < s.clock)
    && (forall t :: t in s.flights && s.flights[t].place.Dialed? ==> t < s.flights[t].place.doneAt < s.clock)
    && (forall i :: 0 <= i < |s.history| ==> s.history[i].ticket < s.history[i].doneAt < s.history[i].at < s.clock)
  }

  /** Two jobs for one name never overlap: the earlier answer is published before the
      later job is admitted. */
  ghost predicate InAdmissionOrder(s: State) {
    Ordered(s.history, s.flights)
  }

  ghost predicate Ordered(history: seq<Record>, flights: map<nat, Flight>) {
    && (forall i,
        j :: 0 <= i < j < |history| && history[i].Owner() == history[j].Owner() ==> history[i].at < history[j].ticket)
    && (forall i,
        t :: 0 <= i < |history| && t in flights && history[i].Owner() == flights[t].Owner() ==> history[i].at < t)
  }

  function Latest(history: seq<Record>, n: NameKey): Option<Record> {
    if history == [] then None
    else if history[|history| - 1].Owner() == n then Some(history[|history| - 1])
    else Latest(history[..|history| - 1], n)
  }

  /** A stored answer is the last one published for its name, dialed for its revision. */
  ghost predicate StoredIsLatest(s: State) {
    forall n :: n in s.shared.results ==> FromLatest(s.shared.results[n], s.history, n)
  }

  ghost predicate FromLatest(stored: Stored, history: seq<Record>, n: NameKey) {
    var r := Latest(history, n);
    && r.Some?
    && stored == Stored(r.value.job.key.revision, r.value.result)
    && r.value.Owner() == n
    && Answers(r.value.result, r.value.job.ports)
  }

  ghost predicate DialsAnswer(s: State) {
    forall t :: t in s.flights && s.flights[t].place.Dialed? ==>
        Answers(s.flights[t].place.result, s.flights[t].job.ports)
  }

  ghost predicate Inv(workers: nat, s: State) {
    && SingleFlight(s)
    && QueueExact(s)
    && WorkersExact(workers, s)
    && UnansweredInFlight(s)
    && Past(s)
    && InAdmissionOrder(s)
    && StoredIsLatest(s)
    && DialsAnswer(s)
  }

  lemma AddedOnce(pending: set<NameKey>, flights: map<nat, Flight>, t: nat, f: Flight)
    requires OneEach(pending, flights) && t !in flights && f.Owner() !in pending
    ensures OneEach(pending + {f.Owner()}, flights[t := f])
  {
    var flights' := flights[t := f];
    forall n | n in pending + {f.Owner()} ensures exists u :: u in flights' && flights'[u].Owner() == n {
      if n in pending {
        var u :| u in flights && flights[u].Owner() == n;
        assert flights'[u].Owner() == n;
      } else {
        assert flights'[t].Owner() == n;
      }
    }
  }

  lemma MovedOnce(pending: set<NameKey>, flights: map<nat, Flight>, t: nat, place: Place)
    requires OneEach(pending, flights) && t in flights
    ensures OneEach(pending, flights[t := flights[t].(place := place)])
  {
    var flights' := flights[t := flights[t].(place := place)];
    forall n | n in pending ensures exists u :: u in flights' && flights'[u].Owner() == n {
      var u :| u in flights && flights[u].Owner() == n;
      assert flights'[u].Owner() == n;
    }
  }

  lemma RemovedOnce(pending: set<NameKey>, flights: map<nat, Flight>, t: nat)
    requires OneEach(pending, flights) && t in flights
    ensures OneEach(pending - {flights[t].Owner()}, flights - {t})
  {
    var flights' := flights - {t};
    forall n | n in pending - {flights[t].Owner()} ensures exists u :: u in flights' && flights'[u].Owner() == n {
      var u :| u in flights && flights[u].Owner() == n;
      assert u in flights' && flights'[u].Owner() == n;
    }
  }

  lemma SingleFlightStep(workers: nat, s: State, step: Step)
    requires SingleFlight(s) && Past(s) && Enabled(workers, s, step)
    ensures SingleFlight(Apply(workers, s, step))
  {
    var pending, flights := s.shared.pending, s.flights;
    match step
    case Mark(_, job) => if Admits(s.shared, job.key) { AddedOnce(pending, flights, s.clock, Flight(job, Marked)); }
    case Send(t) => MovedOnce(pending, flights, t, if HasRoom(s.shared) then Queued else Refused);
    case RollBack(t) => RemovedOnce(pending, flights, t);
    case Take(w) => MovedOnce(pending, flights, s.shared.queue[0], Dialing(w));
    case FinishDial(t, r) => MovedOnce(pending, flights, t, Dialed(flights[t].place.worker, r, s.clock));
    case Publish(t) => RemovedOnce(pending, flights, t);
    case Look(_, _) =>
    case Forget(_, _) =>
  }

  lemma QueuePushed(q: seq<nat>, flights: map<nat, Flight>, t: nat)
    requires HoldsQueued(q, flights) && t in flights && !flights[t].place.Queued?
    ensures HoldsQueued(q + [t], flights[t := flights[t].(place := Queued)])
  {
    assert t !in q;
    assert forall u :: u in q + [t] <==> u in q || u == t;
  }

  lemma QueuePopped(q: seq<nat>, flights: map<nat, Flight>, place: Place)
    requires HoldsQueued(q, flights) && q != [] && !place.Queued?
    ensures HoldsQueued(q[1..], flights[q[0] := flights[q[0]].(place := place)])
  {
    assert forall i :: 0 <= i < |q[1..]| ==> q[1..][i] == q[i + 1];
    assert forall t :: t in q ==> t == q[0] || t in q[1..];
  }

  lemma QueueKept(q: seq<nat>, flights: map<nat, Flight>, flights': map<nat, Flight>)
    requires HoldsQueued(q, flights)
    requires forall t :: t in flights && flights[t].place.Queued? ==> t in flights' && flights'[t].place.Queued?
    requires forall t :: t in flights' && flights'[t].place.Queued? ==> t in flights && flights[t].place.Queued?
    ensures HoldsQueued(q, flights')
  {
  }

  lemma QueueStep(workers: nat, s: State, step: Step)
    requires QueueExact(s) && Past(s) && Enabled(workers, s, step)
    ensures QueueExact(Apply(workers, s, step))
  {
    var q, flights := s.shared.queue, s.flights;
    if step.Send? && HasRoom(s.shared) {
      QueuePushed(q, flights, step.ticket);
    } else if step.Take? {
      QueuePopped(q, flights, Dialing(step.worker));
    } else {
      QueueKept(q, flights, Apply(workers, s, step).flights);
    }
  }

  lemma WorkersStep(workers: nat, s: State, step: Step)
    requires WorkersExact(workers, s) && Enabled(workers, s, step)
    ensures WorkersExact(workers, Apply(workers, s, step))
  {
  }

  /** Publishing answers one name, and no other job in flight is for that name. */
  lemma UnansweredPublish(workers: nat, s: State, t: nat)
    requires SingleFlight(s) && UnansweredInFlight(s) && Enabled(workers, s, Publish(t))
    ensures UnansweredInFlight(Apply(workers, s, Publish(t)))
  {
  }

  lemma UnansweredStep(workers: nat, s: State, step: Step)
    requires SingleFlight(s) && UnansweredInFlight(s) && Enabled(workers, s, step)
    ensures UnansweredInFlight(Apply(workers, s, step))
  {
    if step.Publish? {
      UnansweredPublish(workers, s, step.ticket);
    }
  }

  lemma DialsStep(workers: nat, s: State, step: Step)
    requires DialsAnswer(s) && Enabled(workers, s, step)
    ensures DialsAnswer(Apply(workers, s, step))
  {
  }

  lemma PastStep(workers: nat, s: State, step: Step)
    requires Past(s) && Enabled(workers, s, step)
    ensures Past(Apply(workers, s, step))
  {
  }

  lemma OrderPublished(history: seq<Record>, flights: map<nat, Flight>, t: nat, r: Record)
    requires Ordered(history, flights) && t in flights && r.ticket == t && r.Owner() == flights[t].Owner()
    requires forall u :: u in flights && u != t ==> flights[u].Owner() != flights[t].Owner()
    ensures Ordered(history + [r], flights - {t})
  {
  }

  lemma OrderKept(history: seq<Record>, flights: map<nat, Flight>, flights': map<nat, Flight>, clock: nat)
    requires Ordered(history, flights)
    requires forall i :: 0 <= i < |history| ==> history[i].at < clock
    requires forall t :: t in flights' ==> t == clock || (t in flights && flights[t].Owner() == flights'[t].Owner())
    ensures Ordered(history, flights')
  {
  }

  lemma OwnersKept(workers: nat, s: State, step: Step)
    requires Enabled(workers, s, step) && !step.Publish?
    ensures Apply(workers, s, step).history == s.history
    ensures var after := Apply(workers, s, step).flights;
            forall t :: t in after ==> t == s.clock || (t in s.flights && s.flights[t].Owner() == after[t].Owner())
  {
  }

  lemma OrderStep(workers: nat, s: State, step: Step)
    requires SingleFlight(s) && Past(s) && InAdmissionOrder(s) && Enabled(workers, s, step)
    ensures InAdmissionOrder(Apply(workers, s, step))
  {
    if step.Publish? {
      var f := s.flights[step.ticket];
      OrderPublished(s.history, s.flights, step.ticket,
                     Record(step.ticket, f.job, f.place.result, f.place.doneAt, s.clock));
    } else {
      OwnersKept(workers, s, step);
      OrderKept(s.history, s.flights, Apply(workers, s, step).flights, s.clock);
    }
  }

  lemma LatestAppended(history: seq<Record>, r: Record, n: NameKey)
    ensures Latest(history + [r], n) == if r.Owner() == n then Some(r) else Latest(history, n)
  {
    assert (history + [r])[..|history|] == history;
  }

  lemma StoredPublish(workers: nat, s: State, t: nat)
    requires StoredIsLatest(s) && DialsAnswer(s) && Enabled(workers, s, Publish(t))
    ensures StoredIsLatest(Apply(workers, s, Publish(t)))
  {
    var s' := Apply(workers, s, Publish(t));
    var f := s.flights[t];
    forall n | n in s'.shared.results ensures FromLatest(s'.shared.results[n], s'.history, n) {
      LatestAppended(s.history, Record(t, f.job, f.place.result, f.place.doneAt, s.clock), n);
    }
  }

  lemma StoredStep(workers: nat, s: State, step: Step)
    requires StoredIsLatest(s) && DialsAnswer(s) && Enabled(workers, s, step)
    ensures StoredIsLatest(Apply(workers, s, step))
  {
    if step.Publish? {
      StoredPublish(workers, s, step.ticket);
    } else {
      var s' := Apply(workers, s, step);
      assert s'.history == s.history;
      forall n | n in s'.shared.results ensures FromLatest(s'.shared.results[n], s'.history, n) {
        assert n in s.shared.results && s'.shared.results[n] == s.shared.results[n];
      }
    }
  }

  lemma InvStep(workers: nat, s: State, step: Step)
    requires Inv(workers, s) && Enabled(workers, s, step)
    ensures Inv(workers, Apply(workers, s, step))
  {
    SingleFlightStep(workers, s, step);
    QueueStep(workers, s, step);
    WorkersStep(workers, s, step);
    UnansweredStep(workers, s, step);
    DialsStep(workers, s, step);
    PastStep(workers, s, step);
    OrderStep(workers, s, step);
    StoredStep(workers, s, step);
  }

  /** The worker that dials or has dialed the job. */
  function WorkerOf(place: Place): Option<nat> {
    match place
    case Dialing(w) => Some(w)
    case Dialed(w, _, _) => Some(w)
    case _ => None
  }

  /** In every such state no two jobs are with one worker, and only the started workers work. */
  lemma OneJobPerWorker(workers: nat, s: State, t: nat, u: nat)
    requires Inv(workers, s) && t in s.flights && u in s.flights && t != u && WorkerOf(s.flights[t].place).Some?
    ensures WorkerOf(s.flights[t].place) != WorkerOf(s.flights[u].place)
    ensures WorkerOf(s.flights[t].place).value < workers
  {
  }

  /** Single flight, exact queue and admission order hold in every state of every
      interleaving. */
  lemma {:induction false} InvAlways(workers: nat, s: State, steps: seq<Step>)
    requires Inv(workers, s) && Legal(workers, s, steps)
    ensures Inv(workers, Run(workers, s, steps))
    decreases |steps|
  {
    if steps != [] {
      InvStep(workers, s, steps[0]);
      InvAlways(workers, Apply(workers, s, steps[0]), steps[1..]);
    }
  }
}
