/**
 * What LeaderInitiator.LeaderListener.takeLeadership does on one election
 * win, seen from outside: the calls it makes on the candidate and on the
 * event publisher, in order, and how it exits. The blocking hold
 * (Thread.sleep(Long.MAX_VALUE)) is replaced by an input saying how it
 * ended.
 */
module LeaderListener {

  /** One observable call made by the adapter. */
  datatype Event =
    | Granted       // candidate.onGranted(context)
    | GrantedEvent  // leaderEventPublisher.publishOnGranted(...)
    | Revoked       // candidate.onRevoked(context)
    | RevokedEvent  // leaderEventPublisher.publishOnRevoked(...)

  /** How candidate.onGranted ended; it is declared to throw InterruptedException. */
  datatype GrantEnd = GrantReturned | GrantInterrupted | GrantFailed

  /** How the hold ended: interrupted (yield, stop, lost lock), another exception, or the sleep ran out. */
  datatype HoldEnd = HoldInterrupted | HoldFailed | HoldElapsed

  /** Which step raised the exception that takeLeadership lets escape. */
  datatype Cause = FromGranted | FromHold

  /** takeLeadership returns normally or throws. */
  datatype Exit = Returned | Threw(cause: Cause)

  /**
   * Where a history stands between two calls: no grant open, a grant just
   * made (onGranted was the last call), a grant being held (its granted
   * event is published), or a grant just revoked (onRevoked was the last
   * call).
   */
  datatype Phase = Idle | JustGranted | Holding | JustRevoked

  /** Whether `p` leaves a grant open. */
  predicate Open(p: Phase) {
    p.JustGranted? || p.Holding?
  }

  /**
   * Whether event `e` may occur in phase `p`: a grant only when none is
   * open; the granted event only right after onGranted; a revoke only while
   * a grant is open; the revoked event only right after onRevoked.
   */
  predicate Allowed(e: Event, p: Phase) {
    match e
    case Granted => !Open(p)
    case GrantedEvent => p == JustGranted
    case Revoked => Open(p)
    case RevokedEvent => p == JustRevoked
  }

  /** The phase right after event `e`. */
  function After(e: Event): Phase {
    match e
    case Granted => JustGranted
    case GrantedEvent => Holding
    case Revoked => JustRevoked
    case RevokedEvent => Idle
  }

  /**
   * Starting in phase `p`, every event in `t` is allowed where it occurs
   * and no grant is left open at the end.
   */
  predicate Alternates(t: seq<Event>, p: Phase)
    decreases |t|
  {
    if t == [] then !Open(p)
    else Allowed(t[0], p) && Alternates(t[1..], After(t[0]))
  }

  /**
   * Grants and revokes alternate, starting with a grant; each grant is
   * closed by exactly one revoke; the granted event is published at most
   * once per grant, right after its onGranted, and the revoked event at
   * most once per grant, right after its onRevoked.
   */
  predicate WellPaired(t: seq<Event>) {
    Alternates(t, Idle)
  }

  /** Histories the pairing rejects: a stray revoked event, a doubled granted event. */
  lemma NotWellPairedExamples()
    ensures !WellPaired([RevokedEvent])
    ensures !WellPaired([Granted, GrantedEvent, GrantedEvent, Revoked, RevokedEvent])
    ensures !WellPaired([Granted, Revoked, RevokedEvent, RevokedEvent])
    ensures !WellPaired([Granted, Revoked, GrantedEvent])
  {
  }

  /**
   * The calls of one takeLeadership: onGranted first; the granted event
   * only when a publisher is set and onGranted returned; then, on every
   * exit path, exactly one onRevoked, followed by the revoked event when a
   * publisher is set. How the hold ended does not change the calls.
   */
  function Events(grant: GrantEnd, publisher: bool): (t: seq<Event>)
    ensures |t| >= 2 && t[0] == Granted
    ensures publisher ==> t[|t| - 2] == Revoked && t[|t| - 1] == RevokedEvent
    ensures !publisher ==> t[|t| - 1] == Revoked
    ensures WellPaired(t)
  {
    WinsArePaired();
    if publisher && grant == GrantReturned then [Granted, GrantedEvent, Revoked, RevokedEvent]
    else if publisher then [Granted, Revoked, RevokedEvent]
    else [Granted, Revoked]
  }

  /** The three shapes a single win can take are each well paired. */
  lemma WinsArePaired()
    ensures WellPaired([Granted, GrantedEvent, Revoked, RevokedEvent])
    ensures WellPaired([Granted, Revoked, RevokedEvent])
    ensures WellPaired([Granted, Revoked])
  {
  }

  /**
   * One win makes exactly one onGranted and exactly one onRevoked call; the
   * granted event is published exactly when a publisher is set and
   * onGranted returned, the revoked event exactly when a publisher is set.
   */
  lemma EventsCounts(grant: GrantEnd, publisher: bool)
    ensures multiset(Events(grant, publisher))[Granted] == 1
    ensures multiset(Events(grant, publisher))[Revoked] == 1
    ensures GrantedEvent in Events(grant, publisher) <==> publisher && grant == GrantReturned
    ensures RevokedEvent in Events(grant, publisher) <==> publisher
  {
  }

  /**
   * How takeLeadership exits: an InterruptedException, from onGranted or
   * from the hold, is swallowed and the call returns; any other exception
   * escapes, after the revoke calls. The hold only happens when onGranted
   * returned.
   */
  function ExitOf(grant: GrantEnd, hold: HoldEnd): (x: Exit)
    ensures x == Returned <==> grant == GrantInterrupted || (grant == GrantReturned && hold != HoldFailed)
    ensures x == Threw(FromGranted) <==> grant == GrantFailed
    ensures x == Threw(FromHold) <==> grant == GrantReturned && hold == HoldFailed
  {
    match grant
    case GrantInterrupted => Returned
    case GrantFailed => Threw(FromGranted)
    case GrantReturned => if hold == HoldFailed then Threw(FromHold) else Returned
  }

  /** Appending a well-paired trace keeps the alternation going. */
  lemma {:induction false} AlternatesAppend(a: seq<Event>, b: seq<Event>, p: Phase)
    requires Alternates(a, p) && WellPaired(b)
    ensures Alternates(a + b, p)
    decreases |a|
  {
    if a == [] {
      assert a + b == b;
      if b != [] {
        assert b[0] == Granted;
      }
    } else {
      assert (a + b)[1..] == a[1..] + b;
      AlternatesAppend(a[1..], b, After(a[0]));
    }
  }

  /** Consecutive wins, each well paired, make a well-paired history. */
  lemma WellPairedConcat(a: seq<Event>, b: seq<Event>)
    requires WellPaired(a) && WellPaired(b)
    ensures WellPaired(a + b)
  {
    AlternatesAppend(a, b, Idle);
  }

  /**
   * In an alternating trace the revokes match the grants one for one
   * (one fewer when a grant is still open at the start).
   */
  lemma {:induction false} AlternatesCounts(t: seq<Event>, p: Phase)
    requires Alternates(t, p)
    ensures multiset(t)[Revoked] == multiset(t)[Granted] + (if Open(p) then 1 else 0)
    decreases |t|
  {
    if t != [] {
      AlternatesCounts(t[1..], After(t[0]));
      assert t == [t[0]] + t[1..];
      assert multiset(t) == multiset([t[0]]) + multiset(t[1..]);
    }
  }

  /** A well-paired history has as many onRevoked calls as onGranted calls. */
  lemma GrantsMatchRevokes(t: seq<Event>)
    requires WellPaired(t)
    ensures multiset(t)[Granted] == multiset(t)[Revoked]
  {
    AlternatesCounts(t, Idle);
  }
}
