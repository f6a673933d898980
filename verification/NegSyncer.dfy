/** One NEG syncer: the restartable worker of pkg/networkendpointgroup/syncer.go. */
module NegSyncer {

  datatype ServiceKey = ServiceKey(namespace: string, name: string)

  datatype ServicePort = ServicePort(namespace: string, name: string, targetPort: string) {
    function Service(): (s: ServiceKey) { ServiceKey(namespace, name) }
  }

  /** A Go channel with a one-slot buffer. Sending to or closing a closed channel panics. */
  datatype Channel = NilChannel | Open(full: bool) | Closed(full: bool)

  const MIN_RETRY_DELAY := 5
  const MAX_RETRY_DELAY := 300
  const MAX_RETRIES := 15

  /** The mutable fields of a syncer; delays are in seconds. */
  datatype State = State(stopped: bool, shuttingDown: bool, syncCh: Channel, retryCount: nat, lastRetryDelay: nat) {

    predicate Live() { !stopped || shuttingDown }

    /** What every method keeps: a running syncer has an open channel, one that is shutting down a closed one. */
    predicate Consistent() {
      && (!stopped ==> syncCh.Open? && !shuttingDown)
      && (shuttingDown ==> syncCh.Closed?)
    }

    function Started(): (s: State) {
      this.(stopped := false, syncCh := Open(false))
    }

    function Stopped(): (s: State) {
      if stopped then this
      else this.(stopped := true, shuttingDown := true,
                 syncCh := if syncCh.Open? then Closed(syncCh.full) else syncCh)
    }

    /** `close` is reached on a channel that is nil or already closed. */
    predicate StopPanics() { !stopped && !syncCh.Open? }

    function Signalled(): (s: State) {
      if !stopped && syncCh == Open(false) then this.(syncCh := Open(true)) else this
    }

    /** The send of `Sync` is reached on a closed channel. */
    predicate SyncPanics() { !stopped && syncCh.Closed? }

    function Retrying(): (s: State) {
      var doubled := lastRetryDelay * 2;
      this.(retryCount := retryCount + 1,
            lastRetryDelay := if doubled < MIN_RETRY_DELAY then MIN_RETRY_DELAY
                              else if doubled > MAX_RETRY_DELAY then MAX_RETRY_DELAY else doubled)
    }

    function Reset(): (s: State) { this.(retryCount := 0, lastRetryDelay := 0) }

    predicate BackoffKept() { retryCount <= MAX_RETRIES + 1 && lastRetryDelay == Backoff(retryCount) }
  }

  const Fresh := State(true, false, NilChannel, 0, 0)

  function Pow2(n: nat): (p: nat)
    ensures p > 0
  {
    if n == 0 then 1 else 2 * Pow2(n - 1)
  }

  /** The closed form of the n-th delay since the last success: min(300, 5 * 2^(n-1)). */
  function Backoff(n: nat): (d: nat) {
    if n == 0 then 0 else if 5 * Pow2(n - 1) > 300 then 300 else 5 * Pow2(n - 1)
  }

  /** Doubling and clamping follows the closed form, for every number of failures. */
  lemma {:induction false} RetryFollowsBackoff(s: State)
    requires s.lastRetryDelay == Backoff(s.retryCount)
    ensures s.Retrying().lastRetryDelay == Backoff(s.retryCount + 1)
  {
    var n := s.retryCount;
    if n > 0 {
      assert Pow2(n) == 2 * Pow2(n - 1);
    } else {
      assert Pow2(0) == 1;
    }
  }

  /** The syncer object. Its worker goroutine is stepped in NegSystem; the methods here are the ones
      other goroutines call, each atomic under the manager's lock. */
  class Syncer {
    const key: ServicePort
    var stopped: bool
    var shuttingDown: bool
    var syncCh: Channel
    var retryCount: nat
    var lastRetryDelay: nat

    ghost function View(): (s: State)
      reads this
    {
      State(stopped, shuttingDown, syncCh, retryCount, lastRetryDelay)
    }

    ghost predicate Valid()
      reads this
    {
      View().Consistent()
    }

    constructor (key: ServicePort)
      ensures this.key == key && View() == Fresh && Valid()
    {
      this.key := key;
      stopped, shuttingDown, syncCh, retryCount, lastRetryDelay := true, false, NilChannel, 0, 0;
    }

    /** Refuses a running syncer and one whose previous worker has not left yet. The goroutine it spawns
        is the runner that NegSystem adds. */
    method Start() returns (err: bool)
      requires Valid()
      modifies this
      ensures Valid()
      ensures err <==> old(View()).Live()
      ensures View() == if err then old(View()) else old(View()).Started()
    {
      if !stopped {
        return true;
      }
      if shuttingDown {
        return true;
      }
      stopped := false;
      syncCh := Open(false);
      return false;
    }

    method Stop()
      requires Valid()
      modifies this
      ensures Valid()
      ensures View() == old(View()).Stopped() && View().stopped
      ensures old(View()).Live() <==> View().Live()
    {
      if !stopped {
        stopped := true;
        shuttingDown := true;
        syncCh := Closed(syncCh.full);
      }
    }

    /** A signal to a running syncer always leaves a token in the channel, also when it reports false. */
    method Sync() returns (sent: bool)
      requires Valid()
      modifies this
      ensures Valid()
      ensures View() == old(View()).Signalled()
      ensures !stopped ==> syncCh == Open(true)
      ensures sent <==> !old(stopped) && !old(syncCh).full
    {
      if stopped {
        return false;
      }
      if syncCh.full {
        return false;
      }
      syncCh := Open(true);
      return true;
    }

    method NextRetryDelay() returns (d: nat)
      requires lastRetryDelay == Backoff(retryCount)
      modifies this`retryCount, this`lastRetryDelay
      ensures View() == old(View()).Retrying()
      ensures retryCount == old(retryCount) + 1 && d == lastRetryDelay == Backoff(retryCount)
    {
      RetryFollowsBackoff(View());
      retryCount := retryCount + 1;
      lastRetryDelay := lastRetryDelay * 2;
      if lastRetryDelay < MIN_RETRY_DELAY {
        lastRetryDelay := MIN_RETRY_DELAY;
      } else if lastRetryDelay > MAX_RETRY_DELAY {
        lastRetryDelay := MAX_RETRY_DELAY;
      }
      return lastRetryDelay;
    }

    method ResetRetryDelay()
      modifies this`retryCount, this`lastRetryDelay
      ensures View() == old(View()).Reset() && lastRetryDelay == Backoff(retryCount)
    {
      retryCount := 0;
      lastRetryDelay := 0;
    }
  }
}
