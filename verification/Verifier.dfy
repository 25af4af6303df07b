/** The port verifier: answers, in-flight markers and a bounded queue behind one lock.

    Every critical section is a function on `Shared`, and a method of `Verifier` that is
    proved to have exactly that effect. `Enqueue` is two sections: mark, then send or
    roll back. `VerifierProtocol` interleaves the same functions. */
module Verifier {
  import opened Meta
  import opened Dialer

  const QUEUE_DEPTH := 512

  datatype NameKey = NameKey(namespace: string, name: string)
  datatype Key = Key(namespace: string, name: string, revision: string) {
    function Owner(): NameKey { NameKey(namespace, name) }
  }
  datatype Stored = Stored(revision: string, result: DialResult)
  datatype Job = Job(key: Key, podIP: string, ports: seq<int>)

  /** What the lock protects, together with the queue. `J` is what the queue carries. */
  datatype Shared<J> = Shared(results: map<NameKey, Stored>, pending: set<NameKey>, queue: seq<J>)

  function Lookup<J>(s: Shared<J>, key: Key): Option<DialResult> {
    if key.Owner() in s.results && s.results[key.Owner()].revision == key.revision
    then Some(s.results[key.Owner()].result) else None
  }

  predicate Admits<J>(s: Shared<J>, key: Key) {
    Lookup(s, key).None? && key.Owner() !in s.pending
  }

  function SetMarker<J>(s: Shared<J>, key: Key): Shared<J> {
    s.(pending := s.pending + {key.Owner()})
  }

  function ClearMarker<J>(s: Shared<J>, key: Key): Shared<J> {
    s.(pending := s.pending - {key.Owner()})
  }

  predicate HasRoom<J>(s: Shared<J>) { |s.queue| < QUEUE_DEPTH }

  function Push<J>(s: Shared<J>, j: J): Shared<J> { s.(queue := s.queue + [j]) }

  function Store<J>(s: Shared<J>, key: Key, result: DialResult): Shared<J> {
    ClearMarker(s, key).(results := s.results[key.Owner() := Stored(key.revision, result)])
  }

  function Drop<J>(s: Shared<J>, key: Key): Shared<J> {
    if Lookup(s, key).Some? then s.(results := s.results - {key.Owner()}) else s
  }

  /** A whole `Enqueue` that nothing interrupts. */
  function Enqueued(s: Shared<Job>, job: Job): (Shared<Job>, bool) {
    if !Admits(s, job.key) then (s, false)
    else if HasRoom(s) then (Push(SetMarker(s, job.key), job), true)
    else (s, false)
  }

  /** A dial is accepted exactly when no answer for its revision is stored, none is in flight for
      its name and the queue is not full; then it is marked and queued, else nothing changes. */
  lemma EnqueuedMeaning(s: Shared<Job>, job: Job)
    ensures var (s', accepted) := Enqueued(s, job);
            var name := NameKey(job.key.namespace, job.key.name);
            && (accepted <==>
                  && !(name in s.results && s.results[name].revision == job.key.revision)
                  && name !in s.pending && |s.queue| < 512)
            && s' == if accepted then Shared(s.results, s.pending + {name}, s.queue + [job]) else s
  {
  }

  class Verifier {
    var results: map<NameKey, Stored>
    var pending: set<NameKey>
    var queue: seq<Job>

    ghost function View(): Shared<Job> reads this { Shared(results, pending, queue) }

    constructor ()
      ensures View() == Shared(map[], {}, [])
    {
      results, pending, queue := map[], {}, [];
    }

    method Get(key: Key) returns (answer: Option<DialResult>)
      ensures answer == Lookup(View(), key)
    {
      if key.Owner() !in results || results[key.Owner()].revision != key.revision {
        return None;
      }
      return Some(results[key.Owner()].result);
    }

    /** First section of `Enqueue`. */
    method MarkPending(key: Key) returns (admitted: bool)
      modifies this
      ensures admitted == old(Admits(View(), key))
      ensures View() == if admitted then old(SetMarker(View(), key)) else old(View())
    {
      var done := key.Owner() in results && results[key.Owner()].revision == key.revision;
      if done || key.Owner() in pending {
        return false;
      }
      pending := pending + {key.Owner()};
      return true;
    }

    /** Second section of `Enqueue`: a full queue undoes the marker. */
    method SendOrRollBack(job: Job) returns (sent: bool)
      modifies this
      ensures sent == old(HasRoom(View()))
      ensures View() == if sent then old(Push(View(), job)) else old(ClearMarker(View(), job.key))
    {
      if |queue| < QUEUE_DEPTH {
        queue := queue + [job];
        return true;
      }
      pending := pending - {job.key.Owner()};
      return false;
    }

    method Enqueue(key: Key, podIP: string, ports: seq<int>) returns (accepted: bool)
      modifies this
      ensures (View(), accepted) == old(Enqueued(View(), Job(key, podIP, ports)))
    {
      var admitted := MarkPending(key);
      if !admitted {
        return false;
      }
      accepted := SendOrRollBack(Job(key, podIP, ports));
      assert !accepted ==> pending == old(pending);
    }

    method Pending(key: Key) returns (inFlight: bool)
      ensures inFlight == (key.Owner() in View().pending)
    {
      inFlight := key.Owner() in pending;
    }

    method Forget(key: Key)
      modifies this
      ensures View() == old(Drop(View(), key))
    {
      if key.Owner() !in results || results[key.Owner()].revision != key.revision {
        return;
      }
      results := results - {key.Owner()};
    }

    /** A worker receives the oldest job. */
    method Take() returns (job: Job)
      requires queue != []
      modifies this
      ensures job == old(queue[0])
      ensures View() == old(View()).(queue := old(queue[1..]))
    {
      job := queue[0];
      queue := queue[1..];
    }

    /** A worker publishes its answer and clears the marker under one lock. */
    method Publish(job: Job, result: DialResult)
      modifies this
      ensures View() == old(Store(View(), job.key, result))
    {
      results := results[job.key.Owner() := Stored(job.key.revision, result)];
      pending := pending - {job.key.Owner()};
    }
  }
}
