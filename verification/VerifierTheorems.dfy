/** What every interleaving of the verifier guarantees its callers. */
module VerifierTheorems {
  import opened Dialer
  import opened Verifier
  import opened VerifierProtocol

  lemma InvInit(workers: nat)
    ensures Inv(workers, Init())
  {
  }

  // ----- what a hit means -----

  /** In any reachable state, an answer for a key was dialed for exactly that key and for
      the ports of its job, and no later answer for the name was published. Answers for one
      name appear in the order in which their jobs were admitted. */
  lemma HitMeaning(workers: nat, steps: seq<Step>, key: Key)
    requires Legal(workers, Init(), steps)
    ensures var s := Run(workers, Init(), steps);
            && (Lookup(s.shared, key).Some? ==>
                  exists i :: 0 <= i < |s.history|
                    && s.history[i].job.key == key
                    && s.history[i].result == Lookup(s.shared, key).value
                    && Answers(s.history[i].result, s.history[i].job.ports)
                    && forall j :: i < j < |s.history| ==> s.history[j].Owner() != key.Owner())
            && (forall i, j :: 0 <= i < j < |s.history| && s.history[i].Owner() == s.history[j].Owner()
                  ==> s.history[i].ticket < s.history[i].at < s.history[j].ticket < s.history[j].at)
  {
    InvInit(workers);
    InvAlways(workers, Init(), steps);
    var s := Run(workers, Init(), steps);
    if Lookup(s.shared, key).Some? {
      var i := LatestIndex(s.history, key.Owner());
      assert s.history[i].job.key == key;
    }
  }

  lemma {:induction false} LatestIndex(history: seq<Record>, n: NameKey) returns (i: nat)
    requires Latest(history, n).Some?
    ensures i < |history| && history[i] == Latest(history, n).value && history[i].Owner() == n
    ensures forall j :: i < j < |history| ==> history[j].Owner() != n
  {
    if history[|history| - 1].Owner() == n {
      i := |history| - 1;
    } else {
      i := LatestIndex(history[..|history| - 1], n);
    }
  }

  // ----- rolling back on a full queue -----

  /** A roll back releases the one name it marked. Every other admitted job keeps its
      marker, its place and its turn, and the released name is admitted again. */
  lemma RollBackReleasesOwnName(workers: nat, s: State, ticket: nat)
    requires Inv(workers, s) && Enabled(workers, s, RollBack(ticket))
    ensures var s' := Apply(workers, s, RollBack(ticket));
            && s.shared.pending == s'.shared.pending + {s.flights[ticket].Owner()}
            && s.flights[ticket].Owner() !in s'.shared.pending
            && s'.flights == s.flights - {ticket}
            && s'.shared.queue == s.shared.queue
            && (forall t :: t in s'.flights ==> s'.flights[t].Owner() in s'.shared.pending)
            && Admits(s'.shared, s.flights[ticket].job.key)
  {
    InvStep(workers, s, RollBack(ticket));
  }

  // ----- draining -----

  /** A step that moves an admitted job on. */
  predicate Advances(step: Step) {
    step.Send? || step.RollBack? || step.Take? || step.FinishDial? || step.Publish?
  }

  function Kind(p: Place): nat {
    match p case Marked => 0 case Refused => 1 case Queued => 2 case Dialing(_) => 3 case Dialed(_, _, _) => 4
  }

  function Where(flights: map<nat, Flight>, kind: nat): set<nat> {
    set t | t in flights && Kind(flights[t].place) == kind
  }

  /** Moves still owed to the jobs in flight. */
  function Debt(flights: map<nat, Flight>): nat {
    4 * |Where(flights, 0)| + |Where(flights, 1)| + 3 * |Where(flights, 2)|
    + 2 * |Where(flights, 3)| + |Where(flights, 4)|
  }

  function KindWeight(kind: nat): nat {
    if kind == 0 then 4 else if kind == 1 then 1 else if kind == 2 then 3 else if kind == 3 then 2 else 1
  }

  lemma CountMoved(flights: map<nat, Flight>, t: nat, place: Place, k: nat)
    requires t in flights && Kind(place) != Kind(flights[t].place)
    ensures |Where(flights[t := flights[t].(place := place)], k)|
         == |Where(flights, k)| - (if k == Kind(flights[t].place) then 1 else 0) + (if k == Kind(place) then 1 else 0)
  {
    var after := Where(flights[t := flights[t].(place := place)], k);
    if k == Kind(flights[t].place) {
      assert after == Where(flights, k) - {t};
    } else if k == Kind(place) {
      assert after == Where(flights, k) + {t};
    } else {
      assert after == Where(flights, k);
    }
  }

  lemma DebtMoved(flights: map<nat, Flight>, t: nat, place: Place)
    requires t in flights && Kind(place) != Kind(flights[t].place)
    ensures Debt(flights[t := flights[t].(place := place)])
         == Debt(flights) - KindWeight(Kind(flights[t].place)) + KindWeight(Kind(place))
  {
    CountMoved(flights, t, place, 0);
    CountMoved(flights, t, place, 1);
    CountMoved(flights, t, place, 2);
    CountMoved(flights, t, place, 3);
    CountMoved(flights, t, place, 4);
  }

  lemma DebtRemoved(flights: map<nat, Flight>, t: nat)
    requires t in flights
    ensures Debt(flights - {t}) == Debt(flights) - KindWeight(Kind(flights[t].place))
  {
    var from := Kind(flights[t].place);
    assert Where(flights - {t}, from) == Where(flights, from) - {t};
    forall k: nat | k != from ensures Where(flights - {t}, k) == Where(flights, k) { }
  }

  lemma DebtStep(workers: nat, s: State, step: Step)
    requires QueueExact(s) && Enabled(workers, s, step) && !step.Mark?
    ensures Debt(Apply(workers, s, step).flights) + (if Advances(step) then 1 else 0) <= Debt(s.flights)
  {
    match step
    case Send(t) => DebtMoved(s.flights, t, if HasRoom(s.shared) then Queued else Refused);
    case RollBack(t) => DebtRemoved(s.flights, t);
    case Take(w) => DebtMoved(s.flights, s.shared.queue[0], Dialing(w));
    case FinishDial(t, r) => DebtMoved(s.flights, t, Dialed(s.flights[t].place.worker, r, s.clock));
    case Publish(t) => DebtRemoved(s.flights, t);
    case Look(_, _) =>
    case Forget(_, _) =>
  }

  function Advanced(steps: seq<Step>): nat {
    if steps == [] then 0 else (if Advances(steps[0]) then 1 else 0) + Advanced(steps[1..])
  }

  /** Without new admissions the jobs in flight take a bounded number of steps. */
  lemma {:induction false} DebtBound(workers: nat, s: State, steps: seq<Step>)
    requires Inv(workers, s) && Legal(workers, s, steps)
    requires forall i :: 0 <= i < |steps| ==> !steps[i].Mark?
    ensures Advanced(steps) + Debt(Run(workers, s, steps).flights) <= Debt(s.flights)
    decreases |steps|
  {
    if steps != [] {
      DebtStep(workers, s, steps[0]);
      InvStep(workers, s, steps[0]);
      DebtBound(workers, Apply(workers, s, steps[0]), steps[1..]);
    }
  }

  /** Some job can always move while a marker is set. */
  lemma NeverStuck(workers: nat, s: State) returns (step: Step)
    requires workers > 0 && SingleFlight(s) && QueueExact(s) && s.shared.pending != {}
    ensures Advances(step) && Enabled(workers, s, step)
  {
    var n :| n in s.shared.pending;
    var t :| t in s.flights && s.flights[t].Owner() == n;
    match s.flights[t].place
    case Marked => step := Send(t);
    case Refused => step := RollBack(t);
    case Dialing(w) =>
      var ports := s.flights[t].job.ports;
      step := FinishDial(t, seq(|ports|, i requires 0 <= i < |ports| => PortResult(ports[i], true)));
    case Dialed(_, _, _) => step := Publish(t);
    case Queued =>
      if u :| u in s.flights && s.flights[u].Held() {
        var ports := s.flights[u].job.ports;
        step := if s.flights[u].place.Dialed? then Publish(u)
                else FinishDial(u, seq(|ports|, i requires 0 <= i < |ports| => PortResult(ports[i], true)));
      } else {
        step := Take(0);
      }
  }

  /** Whatever the scheduler does, once admissions stop a run either still has a job to
      move or has cleared every marker, and it moves jobs at most `Debt` times. */
  lemma WorkersDrainPending(workers: nat, s: State, steps: seq<Step>)
    requires workers > 0 && Inv(workers, s) && Legal(workers, s, steps)
    requires forall i :: 0 <= i < |steps| ==> !steps[i].Mark?
    ensures Advanced(steps) <= Debt(s.flights)
    ensures var e := Run(workers, s, steps);
            e.shared.pending == {} <==> !exists step :: Advances(step) && Enabled(workers, e, step)
    ensures Advanced(steps) == Debt(s.flights) ==> Run(workers, s, steps).shared.pending == {}
  {
    DebtBound(workers, s, steps);
    InvAlways(workers, s, steps);
    var e := Run(workers, s, steps);
    if e.shared.pending != {} {
      var step := NeverStuck(workers, e);
      DebtStep(workers, e, step);
    }
  }

  // ----- forgetting -----

  /** Every answer for `key` in this state comes from a dial that finished since. */
  ghost predicate DialedSince(s: State, key: Key, since: nat) {
    Lookup(s.shared, key).Some? ==>
      Latest(s.history, key.Owner()).Some? && Latest(s.history, key.Owner()).value.doneAt >= since
  }

  ghost predicate NoFinishedDial(s: State, key: Key, since: nat) {
    forall t :: t in s.flights && s.flights[t].job.key == key && s.flights[t].place.Dialed?
                ==> s.flights[t].place.doneAt >= since
  }

  ghost predicate FreshForever(workers: nat, s: State, key: Key, since: nat) {
    forall steps :: Legal(workers, s, steps) ==> DialedSince(Run(workers, s, steps), key, since)
  }

  lemma FreshStep(workers: nat, s: State, step: Step, key: Key, since: nat)
    requires Enabled(workers, s, step) && s.clock >= since
    requires DialedSince(s, key, since) && NoFinishedDial(s, key, since)
    ensures DialedSince(Apply(workers, s, step), key, since) && NoFinishedDial(Apply(workers, s, step), key, since)
  {
    if step.Publish? {
      assert Apply(workers, s, step).history[..|s.history|] == s.history;
    }
  }

  lemma {:induction false} StaysFresh(workers: nat, s: State, steps: seq<Step>, key: Key, since: nat)
    requires Legal(workers, s, steps) && s.clock >= since
    requires DialedSince(s, key, since) && NoFinishedDial(s, key, since)
    ensures DialedSince(Run(workers, s, steps), key, since)
    decreases |steps|
  {
    if steps != [] {
      FreshStep(workers, s, steps[0], key, since);
      StaysFresh(workers, Apply(workers, s, steps[0]), steps[1..], key, since);
    }
  }

  /** A finished dial is published whatever was forgotten in between. */
  lemma StaleDialSurvives(workers: nat, s: State, t: nat, key: Key, since: nat)
    requires t in s.flights && s.flights[t].job.key == key && s.flights[t].place.Dialed?
             && s.flights[t].place.doneAt < since
    ensures !FreshForever(workers, s, key, since)
  {
    var e := Apply(workers, s, Publish(t));
    LegalCons(workers, s, Publish(t), []);
    assert [Publish(t)] + [] == [Publish(t)];
    assert e.history[|s.history|].doneAt < since;
    assert !DialedSince(Run(workers, s, [Publish(t)]), key, since);
  }

  /** After `Forget(key)` every later hit comes from a dial that finished after it, in
      every continuation, exactly when no worker was holding a finished but unpublished
      dial for that very key. `Pending(key)` being false is enough to know that. */
  lemma ForgetIsFreshIff(workers: nat, s: State, o: NameKey, key: Key)
    requires SingleFlight(s) && Past(s)
    ensures FreshForever(workers, Apply(workers, s, Forget(o, key)), key, s.clock) <==> NoFinishedDial(s, key, s.clock)
    ensures key.Owner() !in s.shared.pending ==> NoFinishedDial(s, key, s.clock)
  {
    var s' := Apply(workers, s, Forget(o, key));
    if NoFinishedDial(s, key, s.clock) {
      forall steps | Legal(workers, s', steps) ensures DialedSince(Run(workers, s', steps), key, s.clock) {
        StaysFresh(workers, s', steps, key, s.clock);
      }
    } else {
      var t :| t in s.flights && s.flights[t].job.key == key && s.flights[t].place.Dialed?
               && s.flights[t].place.doneAt < s.clock;
      StaleDialSurvives(workers, s', t, key, s.clock);
    }
  }

  /** The stale case is reachable: one worker, one key, a refusal dialed before the
      `Forget` and published after it. */
  lemma ForgetCanMissADial(key: Key)
    ensures exists steps ::
              && Legal(1, Init(), steps)
              && !FreshForever(1, Apply(1, Run(1, Init(), steps), Forget(key.Owner(), key)), key,
                               Run(1, Init(), steps).clock)
  {
    var steps := DialBeforePublish(key);
    InvInit(1);
    InvAlways(1, Init(), steps);
    ForgetIsFreshIff(1, Run(1, Init(), steps), key.Owner(), key);
  }

  lemma DialBeforePublish(key: Key) returns (steps: seq<Step>)
    ensures Legal(1, Init(), steps)
    ensures !NoFinishedDial(Run(1, Init(), steps), key, Run(1, Init(), steps).clock)
  {
    var job := Job(key, "", [80]);
    var s1 := State(1, Shared(map[], {key.Owner()}, []), map[0 := Flight(job, Marked)], [], map[]);
    var s2 := State(2, Shared(map[], {key.Owner()}, [0]), map[0 := Flight(job, Queued)], [], map[]);
    var s3 := State(3, Shared(map[], {key.Owner()}, []), map[0 := Flight(job, Dialing(0))], [], map[]);
    var refusal := [PortResult(80, false)];
    var s4 := State(4, Shared(map[], {key.Owner()}, []), map[0 := Flight(job, Dialed(0, refusal, 3))], [], map[]);
    assert Apply(1, Init(), Mark(key.Owner(), job)) == s1;
    assert Apply(1, s1, Send(0)) == s2;
    assert Apply(1, s2, Take(0)) == s3;
    assert Apply(1, s3, FinishDial(0, refusal)) == s4;
    steps := [];
    LegalCons(1, s3, FinishDial(0, refusal), steps);
    steps := [FinishDial(0, refusal)] + steps;
    LegalCons(1, s2, Take(0), steps);
    steps := [Take(0)] + steps;
    LegalCons(1, s1, Send(0), steps);
    steps := [Send(0)] + steps;
    LegalCons(1, Init(), Mark(key.Owner(), job), steps);
    steps := [Mark(key.Owner(), job)] + steps;
    assert s4.flights[0].place.doneAt < 4;
  }

  lemma LegalCons(workers: nat, s: State, step: Step, rest: seq<Step>)
    requires Enabled(workers, s, step) && Legal(workers, Apply(workers, s, step), rest)
    ensures Legal(workers, s, [step] + rest)
    ensures Run(workers, s, [step] + rest) == Run(workers, Apply(workers, s, step), rest)
  {
    assert ([step] + rest)[1..] == rest;
  }

  ghost predicate AdmittedSince(s: State, key: Key, since: nat) {
    && (Lookup(s.shared, key).Some? ==>
          Latest(s.history, key.Owner()).Some? && Latest(s.history, key.Owner()).value.ticket >= since)
    && (forall t :: t in s.flights && s.flights[t].job.key == key ==> t >= since)
  }

  lemma AdmittedStep(workers: nat, s: State, step: Step, key: Key, since: nat)
    requires Enabled(workers, s, step) && s.clock >= since && AdmittedSince(s, key, since)
    ensures AdmittedSince(Apply(workers, s, step), key, since)
  {
    if step.Publish? {
      assert Apply(workers, s, step).history[..|s.history|] == s.history;
    }
  }

  lemma {:induction false} StaysAdmittedSince(workers: nat, s: State, steps: seq<Step>, key: Key, since: nat)
    requires Legal(workers, s, steps) && s.clock >= since
    requires AdmittedSince(s, key, since)
    ensures AdmittedSince(Run(workers, s, steps), key, since)
    decreases |steps|
  {
    if steps != [] {
      AdmittedStep(workers, s, steps[0], key, since);
      StaysAdmittedSince(workers, Apply(workers, s, steps[0]), steps[1..], key, since);
    }
  }

  /** The way the reconciler uses it, `Forget` is always fresh: dropping a stored answer
      means every later hit comes from a job admitted after the `Forget`. */
  lemma ForgetOfAnAnswer(workers: nat, s: State, o: NameKey, key: Key, steps: seq<Step>)
    requires Inv(workers, s) && Lookup(s.shared, key).Some?
    requires Legal(workers, Apply(workers, s, Forget(o, key)), steps)
    ensures AdmittedSince(Run(workers, Apply(workers, s, Forget(o, key)), steps), key, s.clock)
  {
    InvStep(workers, s, Forget(o, key));
    StaysAdmittedSince(workers, Apply(workers, s, Forget(o, key)), steps, key, s.clock);
  }

  // ----- an all-open answer is kept -----

  /** How reconciles use the verifier: one at a time per object, each about its own
      object, forgetting only the refusal it has just read and admitting nothing between. */
  ghost predicate Disciplined(s: State, step: Step) {
    match step
    case Look(o, key) => key.Owner() == o
    case Mark(o, job) => job.key.Owner() == o && o !in s.seen
    case Forget(o, key) => key.Owner() == o && o in s.seen && s.seen[o] == key
    case _ => true
  }

  ghost predicate DisciplinedRun(workers: nat, s: State, steps: seq<Step>)
    requires Legal(workers, s, steps)
    decreases |steps|
  {
    steps == [] || (Disciplined(s, steps[0]) && DisciplinedRun(workers, Apply(workers, s, steps[0]), steps[1..]))
  }

  /** An object about to forget a key has no all-open answer for it, stored or coming. */
  ghost predicate SeenRefused(s: State) {
    forall o :: o in s.seen ==> RefusedBy(s, o)
  }

  ghost predicate RefusedBy(s: State, o: NameKey)
    requires o in s.seen
  {
    && s.seen[o].Owner() == o
    && (Lookup(s.shared, s.seen[o]).Some? ==> !AllOpen(Lookup(s.shared, s.seen[o]).value))
    && (forall t :: t in s.flights ==> s.flights[t].job.key != s.seen[o])
  }

  lemma SeenStep(workers: nat, s: State, step: Step)
    requires UnansweredInFlight(s) && SeenRefused(s) && Enabled(workers, s, step) && Disciplined(s, step)
    ensures SeenRefused(Apply(workers, s, step))
  {
    var s' := Apply(workers, s, step);
    forall o | o in s'.seen ensures RefusedBy(s', o) {
      if o in s.seen {
        assert RefusedBy(s, o);
      }
      if step.Publish? {
        SeenPublish(workers, s, step.ticket, o);
      } else if step.Look? {
        SeenLook(workers, s, step.owner, step.key, o);
      } else if step.Mark? {
        SeenMark(workers, s, step.owner, step.job, o);
      }
    }
  }

  lemma SeenPublish(workers: nat, s: State, t: nat, o: NameKey)
    requires o in s.seen && RefusedBy(s, o) && Enabled(workers, s, Publish(t))
    ensures RefusedBy(Apply(workers, s, Publish(t)), o)
  {
  }

  lemma SeenLook(workers: nat, s: State, owner: NameKey, key: Key, o: NameKey)
    requires UnansweredInFlight(s) && key.Owner() == owner && (o in s.seen ==> RefusedBy(s, o))
    requires o in Apply(workers, s, Look(owner, key)).seen
    ensures RefusedBy(Apply(workers, s, Look(owner, key)), o)
  {
  }

  lemma SeenMark(workers: nat, s: State, owner: NameKey, job: Job, o: NameKey)
    requires o in s.seen && RefusedBy(s, o) && job.key.Owner() == owner && owner !in s.seen
    ensures RefusedBy(Apply(workers, s, Mark(owner, job)), o)
  {
  }

  /** Another revision's dial for the name is published by this step. */
  ghost predicate Replaces(s: State, step: Step, key: Key) {
    step.Publish? && step.ticket in s.flights
    && s.flights[step.ticket].Owner() == key.Owner() && s.flights[step.ticket].job.key != key
  }

  ghost predicate NeverReplaced(workers: nat, s: State, steps: seq<Step>, key: Key)
    requires Legal(workers, s, steps)
    decreases |steps|
  {
    steps == [] || (!Replaces(s, steps[0], key) && NeverReplaced(workers, Apply(workers, s, steps[0]), steps[1..], key))
  }

  lemma StickyStep(workers: nat, s: State, step: Step, key: Key)
    requires UnansweredInFlight(s) && SeenRefused(s)
    requires Enabled(workers, s, step) && Disciplined(s, step) && !Replaces(s, step, key)
    requires Lookup(s.shared, key).Some? && AllOpen(Lookup(s.shared, key).value)
    ensures Lookup(Apply(workers, s, step).shared, key) == Lookup(s.shared, key)
  {
    if step.Forget? {
      assert RefusedBy(s, step.owner);
    }
  }

  /** Once a dial for a revision found every port open, every later question about that
      revision gets that same answer and no new dial for it is admitted, until another
      revision's dial for the object is published. */
  lemma {:induction false} AllOpenIsSticky(workers: nat, s: State, steps: seq<Step>, key: Key)
    requires Inv(workers, s) && SeenRefused(s)
    requires Legal(workers, s, steps) && DisciplinedRun(workers, s, steps) && NeverReplaced(workers, s, steps, key)
    requires Lookup(s.shared, key).Some? && AllOpen(Lookup(s.shared, key).value)
    ensures var e := Run(workers, s, steps);
            && Lookup(e.shared, key) == Lookup(s.shared, key)
            && !Admits(e.shared, key)
            && Inv(workers, e) && SeenRefused(e)
    decreases |steps|
  {
    if steps != [] {
      InvStep(workers, s, steps[0]);
      SeenStep(workers, s, steps[0]);
      StickyStep(workers, s, steps[0], key);
      AllOpenIsSticky(workers, Apply(workers, s, steps[0]), steps[1..], key);
    }
  }

  /** The two invariants hold from start-up on. */
  lemma {:induction false} DisciplinedAlways(workers: nat, s: State, steps: seq<Step>)
    requires Inv(workers, s) && SeenRefused(s)
    requires Legal(workers, s, steps) && DisciplinedRun(workers, s, steps)
    ensures Inv(workers, Run(workers, s, steps)) && SeenRefused(Run(workers, s, steps))
    decreases |steps|
  {
    if steps != [] {
      InvStep(workers, s, steps[0]);
      SeenStep(workers, s, steps[0]);
      DisciplinedAlways(workers, Apply(workers, s, steps[0]), steps[1..]);
    }
  }
}
