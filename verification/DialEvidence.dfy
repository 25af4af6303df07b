/** From a reported port failure back to a dial. */
module DialEvidence {
  import opened Meta
  import opened Dialer
  import opened Verifier
  import opened Resource
  import opened Readiness
  import opened Chain
  import opened PortRuns
  import Protocol = VerifierProtocol
  import Theorems = VerifierTheorems

  /** What the verifier did between the start of the operator process and the moment at which
      a pass asked it. After a restart this begins again from nothing. */
  datatype Life = Life(workers: nat, steps: seq<Protocol.Step>)

  ghost predicate Answered(life: Life, key: Key, answer: DialResult) {
    && Protocol.Legal(life.workers, Protocol.Init(), life.steps)
    && Lookup(Protocol.Run(life.workers, Protocol.Init(), life.steps).shared, key) == Some(answer)
  }

  /** Every refusal a pass judges is what the verifier of that moment answered for exactly the
      key of the resource and revision. */
  ghost predicate AnswersAreHits(passes: seq<Input>, lives: seq<Life>) {
    && |lives| == |passes|
    && forall k :: 0 <= k < |passes| && EventAt(passes, k).FoundClosed? && Answer(passes, k).Some? ==>
         Answered(lives[k], KeyOf(passes[k].obj, EventAt(passes, k).revision), Answer(passes, k).value)
  }

  function Answer(passes: seq<Input>, k: nat): Option<DialResult>
    requires k < |passes|
  {
    passes[k].sight.workload.ports.answer
  }

  lemma RefusalHasAnswer(obj: Object, status: Status, sight: PassSight)
    requires PassEvent(obj, status, sight).FoundClosed?
    ensures sight.workload.ports.answer.Some? && !AllOpen(sight.workload.ports.answer.value)
  {
  }

  /** A worker of this process finished a dial for the key, about the ports of its job, and
      found one of them refused. */
  ghost predicate DialedAndRefused(life: Life, key: Key, answer: DialResult) {
    && Protocol.Legal(life.workers, Protocol.Init(), life.steps)
    && var history := Protocol.Run(life.workers, Protocol.Init(), life.steps).history;
       exists r :: 0 <= r < |history| && RecordShows(history[r], key, answer)
  }

  ghost predicate RecordShows(record: Protocol.Record, key: Key, answer: DialResult) {
    && record.job.key == key && record.result == answer && Protocol.Answers(answer, record.job.ports)
    && exists i :: 0 <= i < |answer| && !answer[i].open && answer[i].port in record.job.ports
  }

  lemma HitWasDialed(life: Life, key: Key, answer: DialResult)
    requires Answered(life, key, answer) && !AllOpen(answer)
    ensures DialedAndRefused(life, key, answer)
  {
    Theorems.HitMeaning(life.workers, life.steps, key);
    var history := Protocol.Run(life.workers, Protocol.Init(), life.steps).history;
    var r :| 0 <= r < |history| && history[r].job.key == key && history[r].result == answer
             && Protocol.Answers(history[r].result, history[r].job.ports);
    var i :| 0 <= i < |answer| && !answer[i].open;
    assert answer[i].port == history[r].job.ports[i];
    assert RecordShows(history[r], key, answer);
  }

  lemma StartIsRefusal(passes: seq<Input>, i: nat, j: nat, revision: string)
    requires j < |passes| && Justifies(passes, i, revision, j)
    ensures EventAt(passes, i).FoundClosed? && EventAt(passes, i).revision == revision
  {
    assert passes[..j + 1][i] == passes[i] && passes[..j + 1][..i] == passes[..i];
  }

  /** Pass i judged this refusal, a real dial of exactly that resource and revision. */
  ghost predicate Evidence(passes: seq<Input>, lives: seq<Life>, i: nat, revision: string, j: nat)
    requires j < |passes| && |lives| == |passes|
  {
    && Justifies(passes, i, revision, j)
    && Answer(passes, i).Some?
    && DialedAndRefused(lives[i], KeyOf(passes[i].obj, revision), Answer(passes, i).value)
  }

  /** A reported port failure goes back to a finished dial: at least a grace period earlier
      a worker dialed exactly this resource at exactly this revision and found a port of its
      job refused, whatever restarts lie in between. */
  lemma PortFailureWasDialed(passes: seq<Input>, lives: seq<Life>, j: nat)
    requires j < |passes| && AnswersAreHits(passes, lives)
    requires PassAt(passes, j).persisted && PassAt(passes, j).state.verdicts.failed == Some(Verdict(PORT_NOT_LISTENING))
    ensures exists i: nat, revision :: Evidence(passes, lives, i, revision, j)
  {
    PortFailureIsNeverPremature(passes, j);
    var i: nat, revision :| Justifies(passes, i, revision, j);
    StartIsRefusal(passes, i, j, revision);
    RefusalHasAnswer(passes[i].obj, StatusAfter(passes[..i]), passes[i].sight);
    HitWasDialed(lives[i], KeyOf(passes[i].obj, revision), Answer(passes, i).value);
    assert Evidence(passes, lives, i, revision, j);
  }
}
