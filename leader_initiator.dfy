/**
 * LeaderInitiator: registers a candidate for leader election with Curator
 * and adapts Curator's leadership callback into grant and revoke calls on
 * the candidate. The Curator client and LeaderSelector are foreign; they
 * appear here only as the state the initiator reads and changes.
 */
module Initiator {
  import opened Nullable
  import opened LeaderPath
  import opened LeaderListener

  /** Java int. */
  newtype int32 = x: int | -0x8000_0000 <= x < 0x8000_0000

  /** The application's Candidate: the role contested and this participant's id. */
  datatype Candidate = Candidate(role: string, id: string)

  /**
   * Abstract view of one Curator LeaderSelector: the election path, the
   * participant id, whether auto-requeue is on, whether it was started and
   * closed, Curator's own leadership flag, and how many times leadership
   * interruption was requested of it.
   */
  datatype Selector = Selector(
    path: string,
    id: string,
    autoRequeue: bool,
    started: bool,
    closed: bool,
    leader: bool,
    interrupts: nat)

  /** new LeaderSelector(client, path, listener): neither started nor leader, empty id. */
  function NewSelector(path: string): Selector {
    Selector(path, "", false, false, false, false, 0)
  }

  /** LeaderSelector.start: Curator refuses to start a selector twice. */
  function StartSelector(s: Selector): Selector
    requires !s.started && !s.closed
  {
    s.(started := true)
  }

  /** LeaderSelector.close: Curator refuses to close one that is not started or already closed. */
  function CloseSelector(s: Selector): Selector
    requires s.started && !s.closed
  {
    s.(closed := true)
  }

  /** How many selectors of `s` are still open. */
  function LiveCount(s: seq<Selector>): nat {
    if s == [] then 0 else (if s[0].closed then 0 else 1) + LiveCount(s[1..])
  }

  /** When every selector but the newest is closed, at most the newest is live. */
  lemma {:induction false} LiveCountOfClosedPrefix(s: seq<Selector>)
    requires forall i :: 0 <= i < |s| - 1 ==> s[i].closed
    ensures LiveCount(s) == if s == [] || s[|s| - 1].closed then 0 else 1
  {
    if |s| > 1 {
      LiveCountOfClosedPrefix(s[1..]);
    } else if |s| == 1 {
      assert s[1..] == [];
    }
  }

  /** How start ended: normally, or with the exception client.start() threw. */
  datatype StartResult = StartReturned | ClientStartFailed

  class LeaderInitiator {
    const candidate: Candidate
    /** The namespace given at construction; None is a null reference. */
    const namespace: Option<string>

    /** Whether the Curator client is in state STARTED. */
    var clientStarted: bool
    /** leaderSelector: null until the first start, never cleared by stop. */
    var leaderSelector: Option<Selector>
    var running: bool
    var autoStartup: bool
    var phase: int32
    /** Whether leaderEventPublisher is non-null. */
    var publisherSet: bool

    /** Every selector this initiator has created, oldest first. */
    ghost var created: seq<Selector>
    /** Calls made on the candidate and the publisher by takeLeadership, in order. */
    ghost var trace: seq<Event>
    /** Calls made to client.start(). */
    ghost var clientStarts: nat
    /** Callbacks run by stop(Runnable). */
    ghost var stopCallbacks: nat

    /** The election path every selector of this initiator is bound to. */
    function ElectionPath(): string {
      BuildLeaderPath(namespace, candidate.role)
    }

    /** A selector as start leaves it: this candidate's id, auto-requeue on, started. */
    predicate Registered(s: Selector) {
      s.id == candidate.id && s.autoRequeue && s.started
    }

    /**
     * The selectors: every one created is registered and all but the newest
     * are closed; the newest is the current one; running exactly when the
     * current one is open.
     */
    ghost predicate SelectorsValid()
      reads this`leaderSelector, this`created, this`running
    {
      (leaderSelector.None? <==> created == [])
      && (created != [] ==> leaderSelector == Some(created[|created| - 1]))
      && (forall i :: 0 <= i < |created| ==> Registered(created[i]) && (i < |created| - 1 ==> created[i].closed))
      && (running <==> leaderSelector.Some? && !leaderSelector.value.closed)
    }

    ghost predicate Valid()
      reads this
    {
      SelectorsValid() && (running ==> clientStarted) && WellPaired(trace)
    }

    /** LeaderInitiator(client, candidate, namespace). */
    constructor (clientStarted: bool, candidate: Candidate, namespace: Option<string>)
      ensures Valid()
      ensures this.candidate == candidate && this.namespace == namespace
      ensures this.clientStarted == clientStarted
      ensures leaderSelector.None? && !running && autoStartup && phase == 0 && !publisherSet
      ensures created == [] && trace == [] && clientStarts == 0 && stopCallbacks == 0
    {
      this.candidate := candidate;
      this.namespace := namespace;
      this.clientStarted := clientStarted;
      leaderSelector := None;
      running := false;
      autoStartup := true;
      phase := 0;
      publisherSet := false;
      created := [];
      trace := [];
      clientStarts := 0;
      stopCallbacks := 0;
    }

    /** LeaderInitiator(client, candidate): the default namespace. */
    constructor WithDefaultNamespace(clientStarted: bool, candidate: Candidate)
      ensures Valid()
      ensures this.candidate == candidate && namespace == Some(DefaultNamespace)
      ensures this.clientStarted == clientStarted
      ensures leaderSelector.None? && !running && autoStartup && phase == 0 && !publisherSet
      ensures created == [] && trace == [] && clientStarts == 0 && stopCallbacks == 0
    {
      this.candidate := candidate;
      namespace := Some(DefaultNamespace);
      this.clientStarted := clientStarted;
      leaderSelector := None;
      running := false;
      autoStartup := true;
      phase := 0;
      publisherSet := false;
      created := [];
      trace := [];
      clientStarts := 0;
      stopCallbacks := 0;
    }

    /** isRunning: the running flag. */
    function IsRunning(): (r: bool)
      reads this
      requires Valid()
      ensures r <==> leaderSelector.Some? && !leaderSelector.value.closed
    {
      running
    }

    /** getPhase: the phase last set, 0 initially. */
    function GetPhase(): (r: int32)
      reads this
      ensures r == phase
    {
      phase
    }

    /** setPhase: stores the phase and nothing else. */
    method SetPhase(phase: int32)
      modifies this`phase
      ensures this.phase == phase
    {
      this.phase := phase;
    }

    /** isAutoStartup: the flag last set, true initially. */
    function IsAutoStartup(): (r: bool)
      reads this
      ensures r == autoStartup
    {
      autoStartup
    }

    /** setAutoStartup: stores the flag and nothing else. */
    method SetAutoStartup(autoStartup: bool)
      modifies this`autoStartup
      ensures this.autoStartup == autoStartup
    {
      this.autoStartup := autoStartup;
    }

    /** setLeaderEventPublisher; `present` is false for a null publisher. */
    method SetLeaderEventPublisher(present: bool)
      modifies this`publisherSet
      ensures publisherSet == present
    {
      publisherSet := present;
    }

    /**
     * start: a no-op when running. Otherwise the client is started if it is
     * not, which may fail (`clientStartFails` is what client.start() would
     * do) and then nothing else happens; else the candidate is registered.
     */
    method Start(clientStartFails: bool) returns (result: StartResult)
      requires Valid()
      modifies this`clientStarted, this`clientStarts, this`leaderSelector, this`created, this`running
      ensures Valid()
      ensures old(running) ==> result == StartReturned && unchanged(this)
      ensures !old(running) && !old(clientStarted) && clientStartFails ==>
        result == ClientStartFailed && clientStarts == old(clientStarts) + 1
        && unchanged(this`clientStarted, this`leaderSelector, this`created, this`running)
      ensures !old(running) && (old(clientStarted) || !clientStartFails) ==>
        result == StartReturned && clientStarted
        && clientStarts == old(clientStarts) + (if old(clientStarted) then 0 else 1)
        && running && leaderSelector == Some(Selector(ElectionPath(), candidate.id, true, true, false, false, 0))
        && created == old(created) + [leaderSelector.value]
    {
      if running {
        return StartReturned;
      }
      if !clientStarted {
        clientStarts := clientStarts + 1;
        if clientStartFails {
          return ClientStartFailed;
        }
        clientStarted := true;
      }
      Register(ElectionPath());
      result := StartReturned;
    }

    /**
     * The registration part of start: one new selector for the election
     * path and this candidate's id, auto-requeue enabled, started, becomes
     * the current selector, and running is set.
     */
    method Register(path: string)
      requires Valid() && !running && clientStarted
      modifies this`leaderSelector, this`created, this`running
      ensures Valid()
      ensures running && leaderSelector == Some(Selector(path, candidate.id, true, true, false, false, 0))
      ensures created == old(created) + [leaderSelector.value]
    {
      var s := NewSelector(path);
      s := s.(id := candidate.id);
      s := s.(autoRequeue := true);
      s := StartSelector(s);
      ghost var previous := created;
      leaderSelector := Some(s);
      created := created + [s];
      running := true;
      forall i | 0 <= i < |created|
        ensures Registered(created[i]) && (i < |created| - 1 ==> created[i].closed)
      {
        if i < |previous| {
          assert created[i] == previous[i];
        }
      }
    }

    /** The current selector as stop leaves it: closed if it was running, untouched otherwise. */
    ghost function StoppedSelector(): Option<Selector>
      reads this
      requires Valid()
    {
      if running then Some(CloseSelector(leaderSelector.value)) else leaderSelector
    }

    /**
     * stop: a no-op when not running. Otherwise the current selector is
     * closed, which revokes leadership it holds, and running is cleared;
     * the selector stays the current one.
     */
    method Stop()
      requires Valid()
      modifies this`leaderSelector, this`created, this`running
      ensures Valid()
      ensures !running
      ensures !old(running) ==> unchanged(this)
      ensures leaderSelector == old(StoppedSelector())
      ensures created == if old(running) then old(created)[..|old(created)| - 1] + [leaderSelector.value] else old(created)
    {
      if running {
        var closed := CloseSelector(leaderSelector.value);
        leaderSelector := Some(closed);
        created := created[..|created| - 1] + [closed];
        running := false;
      }
    }

    /** stop(Runnable): stop, then run the callback once, running or not. */
    method StopThenRun()
      requires Valid()
      modifies this`leaderSelector, this`created, this`running, this`stopCallbacks
      ensures Valid()
      ensures !running
      ensures stopCallbacks == old(stopCallbacks) + 1
      ensures leaderSelector == old(StoppedSelector())
      ensures created == if old(running) then old(created)[..|old(created)| - 1] + [leaderSelector.value] else old(created)
    {
      Stop();
      stopCallbacks := stopCallbacks + 1;
    }

    /**
     * Whatever sequence of start and stop calls led here: when running, the
     * current selector is registered, started and open; and the number of
     * selectors ever created that are still open is one when running and
     * zero otherwise.
     */
    lemma LiveSelectors()
      requires Valid()
      ensures running ==> leaderSelector.Some? && Registered(leaderSelector.value) && !leaderSelector.value.closed
      ensures LiveCount(created) == if running then 1 else 0
    {
      LiveCountOfClosedPrefix(created);
    }

    /** CuratorContext.isLeader: asks the current selector, not the one that granted. */
    function ContextIsLeader(): (r: bool)
      reads this
      requires leaderSelector.Some?
      ensures r == leaderSelector.value.leader
    {
      leaderSelector.value.leader
    }

    /** CuratorContext.yield: requests interruption of the current selector's leadership. */
    method ContextYield()
      requires Valid() && leaderSelector.Some?
      modifies this`leaderSelector, this`created
      ensures Valid()
      ensures leaderSelector == Some(old(leaderSelector).value.(interrupts := old(leaderSelector).value.interrupts + 1))
      ensures created == old(created)[..|old(created)| - 1] + [leaderSelector.value]
    {
      var s := leaderSelector.value;
      s := s.(interrupts := s.interrupts + 1);
      leaderSelector := Some(s);
      created := created[..|created| - 1] + [s];
    }

    /**
     * LeaderListener.takeLeadership on one election win: onGranted, the
     * granted event if a publisher is set and onGranted returned, the hold,
     * and in the finally block onRevoked and the revoked event. The calls
     * made are Events(grant, publisher), the exit is ExitOf(grant, hold),
     * and the history of all wins stays well paired.
     */
    method TakeLeadership(grant: GrantEnd, hold: HoldEnd) returns (exit: Exit)
      requires Valid()
      modifies this`trace
      ensures Valid()
      ensures trace == old(trace) + Events(grant, publisherSet)
      ensures exit == ExitOf(grant, hold)
    {
      ghost var calls: seq<Event> := [];
      var escaping: Option<Cause> := None;
      // try
      calls := calls + [Granted];
      if grant == GrantReturned {
        if publisherSet {
          calls := calls + [GrantedEvent];
        }
        if hold == HoldFailed {
          escaping := Some(FromHold);
        }
      } else if grant == GrantFailed {
        escaping := Some(FromGranted);
      }
      // an InterruptedException from onGranted or the hold is caught here
      // finally
      calls := calls + [Revoked];
      if publisherSet {
        calls := calls + [RevokedEvent];
      }
      exit := if escaping.Some? then Threw(escaping.value) else Returned;
      assert calls == Events(grant, publisherSet);
      WellPairedConcat(trace, calls);
      trace := trace + calls;
    }
  }
}
