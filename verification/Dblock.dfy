/** middleware/dblock: the owner's Release races the refresher for a one-slot channel, and the
    server grants a key to one session at a time. */
module Dblock {
  import opened Model

  // ---- acquiring ----

  /** What db.Conn and the row of GET_LOCK give. */
  datatype Answer = NoConnection | Unreadable(ctxDone: bool) | Scanned(res: int)

  datatype ObtainError = ConnFailed | ContextCancelled | ReadFailed | InternalError | Timeout

  /** ObtainTimeoutContext: a Lock and a running refresher, or an error and a cancelled context. */
  method ObtainTimeoutContext(answer: Answer) returns (error: Option<ObtainError>, refreshing: bool, cancelled: bool)
    ensures refreshing <==> error.None?
    ensures cancelled <==> error.Some?
    ensures answer.Scanned? && answer.res !in {0, 2} ==> error == None
    ensures answer == Scanned(0) ==> error == Some(Timeout)
    ensures answer == Scanned(2) ==> error == Some(InternalError)
    ensures answer == NoConnection ==> error == Some(ConnFailed)
    ensures answer == Unreadable(true) ==> error == Some(ContextCancelled)
    ensures answer == Unreadable(false) ==> error == Some(ReadFailed)
    ensures error == if answer.Scanned? && answer.res !in {0, 2} then None else Some(ErrorOf(answer))
  {
    cancelled, refreshing := false, false;
    if answer.NoConnection? {
      cancelled := true;
      return Some(ConnFailed), refreshing, cancelled;
    }
    if answer.Unreadable? {
      if answer.ctxDone {
        cancelled := true;
        return Some(ContextCancelled), refreshing, cancelled;
      }
      cancelled := true;
      return Some(ReadFailed), refreshing, cancelled;
    } else if answer.res == 2 {
      cancelled := true;
      return Some(InternalError), refreshing, cancelled;
    } else if answer.res == 0 {
      cancelled := true;
      return Some(Timeout), refreshing, cancelled;
    }
    refreshing := true;
    return None, refreshing, cancelled;
  }

  // ---- one lock ----

  /** Where a call of Release is: before the channel send, before RELEASE_LOCK, before Close, or through. */
  datatype Releasing = Sending | Unlocking | Closing | Over

  datatype Owner = InSection | Release(at: Releasing)

  datatype Refresher = Selecting | Pinging | PingFailed | Lost(at: Releasing) | Told | Returned

  /** `full` is the channel; `unlocks` and `closes` count RELEASE_LOCK and Close. */
  datatype Lock = Lock(owner: Owner, refresher: Refresher, full: bool, cancelled: bool, unlocks: nat, closes: nat)

  const ACQUIRED: Lock := Lock(InSection, Selecting, false, false, 0, 0)

  datatype Move =
    | CallRelease
    | OwnerStep(ok: bool)
    | Tick
    | Ping(ok: bool)
    | CancelLost
    | RefresherStep(ok: bool)
    | Receive
    | CancelTold

  /** One step of a Release: the send needs a free slot; an error of RELEASE_LOCK skips Close. */
  predicate Free(r: Releasing, full: bool) {
    match r case Sending => !full case Over => false case _ => true
  }

  function Onward(r: Releasing, ok: bool): Releasing {
    match r
    case Sending => Unlocking
    case Unlocking => if ok then Closing else Over
    case _ => Over
  }

  /** What the step does to the channel, the server and the connection. */
  function Effect(l: Lock, r: Releasing, ok: bool): Lock {
    match r
    case Sending => l.(full := true)
    case Unlocking => if ok then l.(unlocks := l.unlocks + 1) else l
    case Closing => l.(closes := l.closes + 1)
    case Over => l
  }

  predicate Can(l: Lock, m: Move) {
    match m
    case CallRelease => l.owner.InSection?
    case OwnerStep(_) => l.owner.Release? && Free(l.owner.at, l.full)
    case Tick => l.refresher.Selecting?
    case Ping(_) => l.refresher.Pinging?
    case CancelLost => l.refresher.PingFailed?
    case RefresherStep(_) => l.refresher.Lost? && Free(l.refresher.at, l.full)
    case Receive => l.refresher.Selecting? && l.full
    case CancelTold => l.refresher.Told?
  }

  function Do(l: Lock, m: Move): Lock
    requires Can(l, m)
  {
    match m
    case CallRelease => l.(owner := Release(Sending))
    case OwnerStep(ok) => Effect(l, l.owner.at, ok).(owner := Release(Onward(l.owner.at, ok)))
    case Tick => l.(refresher := Pinging)
    case Ping(ok) => l.(refresher := if ok then Selecting else PingFailed)
    case CancelLost => l.(cancelled := true, refresher := Lost(Sending))
    case RefresherStep(ok) =>
      var next := Onward(l.refresher.at, ok);
      Effect(l, l.refresher.at, ok).(refresher := if next.Over? then Returned else Lost(next))
    case Receive => l.(full := false, refresher := Told)
    case CancelTold => l.(cancelled := true, refresher := Returned)
  }

  predicate PastSend(r: Releasing) { !r.Sending? }

  predicate OwnerSent(l: Lock) { l.owner.Release? && PastSend(l.owner.at) }

  /** The refresher lost the connection and won the send. */
  predicate RefresherSent(l: Lock) {
    (l.refresher.Lost? && PastSend(l.refresher.at)) || (l.refresher.Returned? && !OwnerSent(l))
  }

  /** How often a Release at r has passed RELEASE_LOCK at most, and Close. */
  function Passed(r: Releasing): nat { if r in {Closing, Over} then 1 else 0 }

  predicate LockInv(l: Lock) {
    !(OwnerSent(l) && l.refresher.Lost? && PastSend(l.refresher.at)) &&
    (l.refresher.Lost? ==> l.refresher.at != Over) &&
    (l.full <==> (OwnerSent(l) && !l.refresher.Told? && !l.refresher.Returned?) || RefresherSent(l)) &&
    (l.refresher.Told? ==> OwnerSent(l)) &&
    (l.cancelled <==> l.refresher.Lost? || l.refresher.Returned?) &&
    l.closes <= l.unlocks && (l.owner == Release(Closing) || l.refresher == Lost(Closing) ==> l.closes < l.unlocks) &&
    l.unlocks <= (if OwnerSent(l) then Passed(l.owner.at) else 0) +
                 (if l.refresher.Lost? then Passed(l.refresher.at) else if l.refresher.Returned? && !OwnerSent(l) then 1 else 0) &&
    l.closes <= (if OwnerSent(l) && l.owner.at.Over? then 1 else 0) + (if l.refresher.Returned? && !OwnerSent(l) then 1 else 0)
  }

  lemma MoveKeepsLock(l: Lock, m: Move)
    requires LockInv(l) && Can(l, m)
    ensures LockInv(Do(l, m))
  {
  }

  ghost predicate Moves(l: Lock, ms: seq<Move>, l': Lock)
    decreases |ms|
  {
    if ms == [] then l' == l else Can(l, ms[0]) && Moves(Do(l, ms[0]), ms[1..], l')
  }

  lemma {:induction false} MovesKeepLock(l: Lock, ms: seq<Move>, l': Lock)
    requires LockInv(l) && Moves(l, ms, l')
    ensures LockInv(l')
    decreases |ms|
  {
    if ms != [] {
      MoveKeepsLock(l, ms[0]);
      MovesKeepLock(Do(l, ms[0]), ms[1..], l');
    }
  }

  /** In every interleaving of the owner and the refresher, whatever the pings and the server answer:
      not both get past the send, RELEASE_LOCK and Close each succeed at most once, Close only after
      RELEASE_LOCK, and once the refresher has returned the lost-lock context is cancelled. */
  lemma ReleasedAtMostOnce(ms: seq<Move>, l: Lock)
    requires Moves(ACQUIRED, ms, l)
    ensures !(OwnerSent(l) && l.refresher.Lost? && PastSend(l.refresher.at))
    ensures l.unlocks <= 1 && l.closes <= l.unlocks
    ensures l.refresher.Returned? ==> l.cancelled
  {
    MovesKeepLock(ACQUIRED, ms, l);
  }

  // ---- who blocks ----

  lemma SentStays(l: Lock, m: Move)
    requires LockInv(l) && Can(l, m)
    ensures RefresherSent(l) ==> RefresherSent(Do(l, m))
    ensures OwnerSent(l) ==> OwnerSent(Do(l, m))
  {
  }

  lemma {:induction false} SentForever(l: Lock, ms: seq<Move>, l': Lock)
    requires LockInv(l) && Moves(l, ms, l')
    ensures LockInv(l') && (RefresherSent(l) ==> RefresherSent(l')) && (OwnerSent(l) ==> OwnerSent(l'))
    decreases |ms|
  {
    if ms != [] {
      MoveKeepsLock(l, ms[0]);
      SentStays(l, ms[0]);
      SentForever(Do(l, ms[0]), ms[1..], l');
    }
  }

  /** The owner's Release gets past its send now exactly when the refresher has not won it. */
  lemma OwnerPassesIff(l: Lock)
    requires LockInv(l) && l.owner == Release(Sending)
    ensures Can(l, OwnerStep(true)) <==> !RefresherSent(l)
  {
  }

  /** When a failed ping made the refresher release first, the owner's Release never returns. */
  lemma OwnerBlocksForever(before: seq<Move>, l: Lock, after: seq<Move>, l': Lock)
    requires Moves(ACQUIRED, before, l) && RefresherSent(l) && Moves(l, after, l')
    ensures !OwnerSent(l')
  {
    MovesKeepLock(ACQUIRED, before, l);
    SentForever(l, after, l');
  }

  /** The other way round, a refresher whose ping fails after the owner's send never returns. */
  lemma RefresherBlocksForever(before: seq<Move>, l: Lock, after: seq<Move>, l': Lock)
    requires Moves(ACQUIRED, before, l) && OwnerSent(l) && (l.refresher.PingFailed? || l.refresher.Lost?) && Moves(l, after, l')
    ensures !l'.refresher.Returned?
    decreases |after|
  {
    MovesKeepLock(ACQUIRED, before, l);
    StuckForever(l, after, l');
  }

  lemma {:induction false} StuckForever(l: Lock, ms: seq<Move>, l': Lock)
    requires LockInv(l) && OwnerSent(l) && (l.refresher.PingFailed? || l.refresher.Lost?) && Moves(l, ms, l')
    ensures l'.refresher in {PingFailed, Lost(Sending)}
    decreases |ms|
  {
    if ms != [] {
      MoveKeepsLock(l, ms[0]);
      SentStays(l, ms[0]);
      StuckForever(Do(l, ms[0]), ms[1..], l');
    }
  }

  // ---- who can return ----

  lemma Then(l: Lock, m: Move, rest: seq<Move>, l': Lock)
    requires Can(l, m) && Moves(Do(l, m), rest, l')
    ensures Moves(l, [m] + rest, l')
  {
    assert ([m] + rest)[1..] == rest;
  }

  /** The refresher has a failed ping in hand and the owner has won the send. */
  predicate Stuck(l: Lock) {
    OwnerSent(l) && (l.refresher.PingFailed? || l.refresher.Lost?)
  }

  /** The refresher's own way to its end, when it is not stuck. */
  function TowardsReturn(l: Lock): Move
    requires LockInv(l) && !Stuck(l) && !l.refresher.Returned?
    ensures Can(l, TowardsReturn(l))
  {
    match l.refresher
    case Selecting => if OwnerSent(l) then Receive else Tick
    case Pinging => Ping(OwnerSent(l))
    case PingFailed => CancelLost
    case Lost(_) => RefresherStep(true)
    case Told => CancelTold
  }

  function Distance(l: Lock): nat {
    match l.refresher
    case Selecting => if OwnerSent(l) then 3 else 8
    case Pinging => if OwnerSent(l) then 4 else 7
    case PingFailed => 6
    case Lost(at) => (match at case Sending => 5 case Unlocking => 4 case Closing => 3 case Over => 1)
    case Told => 1
    case Returned => 0
  }

  lemma NearerReturn(l: Lock)
    requires LockInv(l) && !Stuck(l) && !l.refresher.Returned?
    ensures var l' := Do(l, TowardsReturn(l)); LockInv(l') && !Stuck(l') && Distance(l') < Distance(l)
  {
    MoveKeepsLock(l, TowardsReturn(l));
  }

  lemma {:induction false} CanReturn(l: Lock) returns (ms: seq<Move>, l': Lock)
    requires LockInv(l) && !Stuck(l)
    ensures Moves(l, ms, l') && l'.refresher.Returned?
    decreases Distance(l)
  {
    if l.refresher.Returned? { ms, l' := [], l; }
    else {
      NearerReturn(l);
      var rest;
      rest, l' := CanReturn(Do(l, TowardsReturn(l)));
      Then(l, TowardsReturn(l), rest, l');
      ms := [TowardsReturn(l)] + rest;
    }
  }

  ghost predicate RefresherReturns(l: Lock, after: seq<Move>, l': Lock) {
    Moves(l, after, l') && l'.refresher.Returned?
  }

  ghost predicate OwnerReturns(l: Lock, after: seq<Move>, l': Lock) {
    Moves(l, after, l') && l'.owner == Release(Over)
  }

  /** In every reachable state the refresher can still return exactly when it is not stuck. */
  lemma RefresherReturnsIff(before: seq<Move>, l: Lock)
    requires Moves(ACQUIRED, before, l)
    ensures (exists after, l' :: RefresherReturns(l, after, l')) <==> !Stuck(l)
  {
    MovesKeepLock(ACQUIRED, before, l);
    if Stuck(l) {
      forall after, l' | Moves(l, after, l') ensures !RefresherReturns(l, after, l') { StuckForever(l, after, l'); }
    } else {
      var after, l' := CanReturn(l);
      assert RefresherReturns(l, after, l');
    }
  }

  lemma {:induction false} CanRelease(l: Lock) returns (ms: seq<Move>, l': Lock)
    requires LockInv(l) && !RefresherSent(l)
    ensures Moves(l, ms, l') && l'.owner == Release(Over)
    decreases if l.owner.InSection? then 4 else match l.owner.at case Sending => 3 case Unlocking => 2 case Closing => 1 case Over => 0
  {
    if l.owner == Release(Over) { ms, l' := [], l; }
    else {
      var m := if l.owner.InSection? then CallRelease else OwnerStep(true);
      MoveKeepsLock(l, m);
      var rest;
      rest, l' := CanRelease(Do(l, m));
      Then(l, m, rest, l');
      ms := [m] + rest;
    }
  }

  /** In every reachable state the owner's Release can still return exactly when the refresher has not
      won the send. */
  lemma OwnerReturnsIff(before: seq<Move>, l: Lock)
    requires Moves(ACQUIRED, before, l)
    ensures (exists after, l' :: OwnerReturns(l, after, l')) <==> !RefresherSent(l)
  {
    MovesKeepLock(ACQUIRED, before, l);
    if RefresherSent(l) {
      forall after, l' | Moves(l, after, l') ensures !OwnerReturns(l, after, l') { SentForever(l, after, l'); }
    } else {
      var after, l' := CanRelease(l);
      assert OwnerReturns(l, after, l');
    }
  }

  /** How many of RELEASE_LOCK and Close the owner's Release has done when no step of it fails. */
  function Progress(o: Owner): (nat, nat) {
    if o.InSection? then (0, 0)
    else match o.at case Sending => (0, 0) case Unlocking => (0, 0) case Closing => (1, 0) case Over => (1, 1)
  }

  /** A Release whose steps do not fail unlocks and closes, each exactly once, by the time it returns. */
  lemma {:induction false} ReleaseUnlocksAndCloses(l: Lock, ms: seq<Move>, l': Lock)
    requires LockInv(l) && Moves(l, ms, l') && OwnerStep(false) !in ms && !RefresherSent(l')
    requires (l.unlocks, l.closes) == Progress(l.owner)
    ensures (l'.unlocks, l'.closes) == Progress(l'.owner)
    decreases |ms|
  {
    if ms != [] {
      var v := Do(l, ms[0]);
      MoveKeepsLock(l, ms[0]);
      SentForever(v, ms[1..], l');
      assert ms[0] in ms && OwnerStep(false) !in ms[1..];
      ReleaseUnlocksAndCloses(v, ms[1..], l');
    }
  }

  // ---- many sessions and the server ----

  /** A session that asks for the key once. A grant whose answer is lost leaves the key with a
      session that has no Lock. */
  datatype Session = Fresh | Refused(error: ObtainError) | Locked(lock: Lock)

  /** `holder` is the session the server has granted the key to. */
  datatype System = System(holder: Option<nat>, sessions: seq<Session>)

  datatype Action =
    | Ask(i: nat, answer: Answer, granted: bool)
    | Act(i: nat, move: Move)

  /** The move executes RELEASE_LOCK with success. */
  predicate Unlocks(l: Lock, m: Move) {
    (m == OwnerStep(true) && l.owner == Release(Unlocking)) || (m == RefresherStep(true) && l.refresher == Lost(Unlocking))
  }

  /** GET_LOCK answers 1 only to a session it grants the key, and grants only a free key. */
  predicate Possible(s: System, a: Action) {
    a.i < |s.sessions| &&
    match a
    case Ask(i, answer, granted) =>
      s.sessions[i].Fresh? && (granted ==> s.holder.None? && !answer.NoConnection?) &&
      (answer.Scanned? ==> answer.res in {0, 1, 2} && (granted <==> answer.res == 1))
    case Act(i, move) => s.sessions[i].Locked? && Can(s.sessions[i].lock, move)
  }

  function ErrorOf(answer: Answer): ObtainError {
    match answer
    case NoConnection => ConnFailed
    case Unreadable(done) => if done then ContextCancelled else ReadFailed
    case Scanned(res) => if res == 2 then InternalError else Timeout
  }

  function Perform(s: System, a: Action): System
    requires Possible(s, a)
  {
    match a
    case Ask(i, answer, granted) =>
      System(if granted then Some(i) else s.holder,
        s.sessions[i := if answer == Scanned(1) then Locked(ACQUIRED) else Refused(ErrorOf(answer))])
    case Act(i, move) =>
      System(if Unlocks(s.sessions[i].lock, move) && s.holder == Some(i) then None else s.holder,
        s.sessions[i := Locked(Do(s.sessions[i].lock, move))])
  }

  ghost predicate Performs(s: System, actions: seq<Action>, s': System)
    decreases |actions|
  {
    if actions == [] then s' == s
    else Possible(s, actions[0]) && Performs(Perform(s, actions[0]), actions[1..], s')
  }

  predicate AllFresh(s: System) {
    s.holder.None? && forall k :: 0 <= k < |s.sessions| ==> s.sessions[k].Fresh?
  }

  /** An acquired lock whose RELEASE_LOCK has not been executed is the server's holder. */
  predicate Guarded(s: System) {
    forall k :: 0 <= k < |s.sessions| && s.sessions[k].Locked? ==>
      LockInv(s.sessions[k].lock) && (s.sessions[k].lock.unlocks == 0 ==> s.holder == Some(k))
  }

  lemma UnlocksCounts(l: Lock, m: Move)
    requires LockInv(l) && Can(l, m)
    ensures Do(l, m).unlocks == l.unlocks + if Unlocks(l, m) then 1 else 0
  {
  }

  lemma PerformKeepsGuarded(s: System, a: Action)
    requires Guarded(s) && Possible(s, a)
    ensures Guarded(Perform(s, a))
  {
    if a.Act? {
      MoveKeepsLock(s.sessions[a.i].lock, a.move);
      UnlocksCounts(s.sessions[a.i].lock, a.move);
    }
  }

  lemma {:induction false} PerformsKeepGuarded(s: System, actions: seq<Action>, s': System)
    requires Guarded(s) && Performs(s, actions, s')
    ensures Guarded(s') && |s'.sessions| == |s.sessions|
    decreases |actions|
  {
    if actions != [] {
      PerformKeepsGuarded(s, actions[0]);
      PerformsKeepGuarded(Perform(s, actions[0]), actions[1..], s');
    }
  }

  predicate Unreleased(s: System, k: nat) {
    k < |s.sessions| && s.sessions[k].Locked? && s.sessions[k].lock.unlocks == 0
  }

  /** In every interleaving of any number of sessions, whatever pings fail, at most one holds an
      unreleased Lock for the key. */
  lemma MutualExclusion(s: System, actions: seq<Action>, s': System, j: nat, k: nat)
    requires AllFresh(s) && Performs(s, actions, s') && Unreleased(s', j) && Unreleased(s', k)
    ensures j == k
  {
    PerformsKeepGuarded(s, actions, s');
  }

  predicate Inside(s: System, k: nat) {
    k < |s.sessions| && s.sessions[k].Locked? && s.sessions[k].lock.owner.InSection?
  }

  lemma InsideIsUnlockedByLoss(l: Lock)
    requires LockInv(l) && l.owner.InSection? && l.unlocks > 0
    ensures l.cancelled
  {
  }

  /** At most one owner is inside its section with a live context: the others have been told. */
  lemma SectionsExclude(s: System, actions: seq<Action>, s': System, j: nat, k: nat)
    requires AllFresh(s) && Performs(s, actions, s') && Inside(s', j) && Inside(s', k)
    requires !s'.sessions[j].lock.cancelled && !s'.sessions[k].lock.cancelled
    ensures j == k
  {
    PerformsKeepGuarded(s, actions, s');
    if s'.sessions[j].lock.unlocks > 0 { InsideIsUnlockedByLoss(s'.sessions[j].lock); }
    if s'.sessions[k].lock.unlocks > 0 { InsideIsUnlockedByLoss(s'.sessions[k].lock); }
  }

  lemma Prepend(s: System, a: Action, rest: seq<Action>, s': System)
    requires Possible(s, a) && Performs(Perform(s, a), rest, s')
    ensures Performs(s, [a] + rest, s')
  {
    assert ([a] + rest)[1..] == rest;
  }

  /** Session 0 is inside its section, its refresher at r; session 1 has not asked. */
  function Alone(holder: Option<nat>, r: Refresher, full: bool, cancelled: bool, unlocks: nat): System {
    System(holder, [Locked(Lock(InSection, r, full, cancelled, unlocks, 0)), Fresh])
  }

  /** The context matters: after a failed ping two owners can be inside their sections at once. */
  lemma SectionsCanOverlap() returns (actions: seq<Action>, s': System)
    ensures Performs(System(None, [Fresh, Fresh]), actions, s') && Inside(s', 0) && Inside(s', 1)
  {
    var lost := Alone(None, Lost(Closing), true, true, 1);
    s' := System(Some(1), [lost.sessions[0], Locked(ACQUIRED)]);
    assert Perform(lost, Ask(1, Scanned(1), true)) == s' && Performs(s', [], s');
    Prepend(lost, Ask(1, Scanned(1), true), [], s');
    actions := [Ask(1, Scanned(1), true)];
    assert [Ask(1, Scanned(1), true)] + [] == actions;
    var unlocking := Alone(Some(0), Lost(Unlocking), true, true, 0);
    assert Perform(unlocking, Act(0, RefresherStep(true))) == lost;
    Prepend(unlocking, Act(0, RefresherStep(true)), actions, s');
    actions := [Act(0, RefresherStep(true))] + actions;
    actions := ReachUnlocking(actions, s');
  }

  lemma ReachUnlocking(rest: seq<Action>, s': System) returns (actions: seq<Action>)
    requires Performs(Alone(Some(0), Lost(Unlocking), true, true, 0), rest, s')
    ensures Performs(System(None, [Fresh, Fresh]), actions, s')
  {
    var sending := Alone(Some(0), Lost(Sending), false, true, 0);
    assert Perform(sending, Act(0, RefresherStep(true))) == Alone(Some(0), Lost(Unlocking), true, true, 0);
    Prepend(sending, Act(0, RefresherStep(true)), rest, s');
    actions := [Act(0, RefresherStep(true))] + rest;
    var failed := Alone(Some(0), PingFailed, false, false, 0);
    assert Perform(failed, Act(0, CancelLost)) == sending;
    Prepend(failed, Act(0, CancelLost), actions, s');
    actions := [Act(0, CancelLost)] + actions;
    actions := ReachFailed(actions, s');
  }

  lemma ReachFailed(rest: seq<Action>, s': System) returns (actions: seq<Action>)
    requires Performs(Alone(Some(0), PingFailed, false, false, 0), rest, s')
    ensures Performs(System(None, [Fresh, Fresh]), actions, s')
  {
    var pinging := Alone(Some(0), Pinging, false, false, 0);
    assert Perform(pinging, Act(0, Ping(false))) == Alone(Some(0), PingFailed, false, false, 0);
    Prepend(pinging, Act(0, Ping(false)), rest, s');
    actions := [Act(0, Ping(false))] + rest;
    var acquired := Alone(Some(0), Selecting, false, false, 0);
    assert Perform(acquired, Act(0, Tick)) == pinging;
    Prepend(acquired, Act(0, Tick), actions, s');
    actions := [Act(0, Tick)] + actions;
    assert Perform(System(None, [Fresh, Fresh]), Ask(0, Scanned(1), true)) == acquired;
    Prepend(System(None, [Fresh, Fresh]), Ask(0, Scanned(1), true), actions, s');
    actions := [Ask(0, Scanned(1), true)] + actions;
  }

  /** No error and no timeout yields a Lock: a refused session stays refused. */
  lemma RefusedHasNoLock(s: System, a: Action)
    requires Possible(s, a) && a.Ask? && a.answer != Scanned(1)
    ensures Perform(s, a).sessions[a.i] == Refused(ErrorOf(a.answer)) && (a.answer.Scanned? ==> Perform(s, a).holder == s.holder)
  {
  }
}
