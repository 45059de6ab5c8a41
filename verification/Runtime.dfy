/** The bus side of the controller object: bus handle, notifier, reader task, reconnect loop and
    repair issue. Every await takes its outcome from an oracle, so a theorem about these methods is
    a theorem about every run. A ghost log records what was done to the outside world. */
module Runtime {
  import opened Wrappers

  type Handle = nat

  /** How an await ends. `TimedOut` is the TimeoutError of a bounded wait. `CancelledLate` is a
      cancellation that arrives when the awaited future has just completed. */
  datatype Outcome = Done | Raised | TimedOut | Cancelled | CancelledLate {
    predicate Cancels() {
      Cancelled? || CancelledLate?
    }
  }

  /** How a coroutine ends. */
  datatype Exit = Returned | Threw | WasCancelled

  /** `at` is the number of awaits so far. */
  datatype Event =
    | Opened(bus: Handle)                           // a make_bus future completed
    | OpenFailed(at: nat)                           // it raised
    | Released(bus: Handle)                         // bus.shutdown was handed over
    | Started(notifier: Handle, bus: Handle)        // a notifier thread reads this bus
    | StartFailed(notifier: Handle, bus: Handle)    // it could not be constructed
    | Stopped(notifier: Handle)                     // notifier.stop was handed over
    | DumpSent(bus: Handle)                         // a dump request was handed to bus.send
    | DumpFailed(at: nat)                           // bus.send raised
    | ReadError(at: nat)                            // a wait for a message timed out or raised
    | ReadFailed(at: nat)                           // the read loop caught an error of the reader
    | Slept(ms: nat, at: nat)                       // a back-off sleep ran to its end
    | ReconnectFailed(at: nat)
    | Reconnected(at: nat)
    | IssueRaised
    | ReauthStarted
    | IssueCleared

  /** What happened, latest last. */
  datatype Log = Empty | Snoc(before: Log, last: Event)

  // ---------------------------------------------------------------------------------------------
  // What a log means
  // ---------------------------------------------------------------------------------------------

  /** The reader's round: it reads, has met an error, has failed, has slept; then it tries to
      reconnect and reads again. */
  datatype Phase = Reading | Failing | Broken | Rested

  /** Buses open and not yet released; notifiers live, with the bus each one reads; `used` bounds
      the handles seen; failures in a row; back-off sleep in this outage; reconnects; where in its
      round the reader is and since which await; whether the issue is up; how many events there were. */
  datatype Ledger = Ledger(
    held: set<Handle>, live: map<Handle, Handle>, used: nat,
    streak: nat, slept: nat, successes: nat, phase: Phase, since: nat, issue: bool, count: nat, last: Option<Event>)

  const EMPTY_LEDGER := Ledger({}, map[], 0, 0, 0, 0, Reading, 0, false, 0, None)

  function Book(l: Ledger, e: Event): Ledger {
    var l := l.(count := l.count + 1, last := Some(e));
    match e
    case Opened(bus) => l.(held := l.held + {bus}, used := bus + 1)
    case Released(bus) => l.(held := l.held - {bus})
    case Started(notifier, bus) => l.(live := l.live[notifier := bus], used := notifier + 1)
    case Stopped(notifier) => l.(live := l.live - {notifier})
    case StartFailed(notifier, _) => l.(used := notifier + 1)
    case ReadError(at) => l.(phase := Failing, since := at)
    case ReadFailed(at) => l.(phase := Broken, since := at)
    case Slept(ms, at) => l.(slept := l.slept + ms, phase := Rested, since := at)
    case ReconnectFailed(at) => l.(streak := l.streak + 1, phase := Reading, since := at)
    case Reconnected(at) => l.(streak := 0, slept := 0, successes := l.successes + 1, phase := Reading, since := at)
    case IssueRaised => l.(issue := true)
    case IssueCleared => l.(issue := false)
    case _ => l
  }

  function Count(log: Log, e: Event): nat {
    if log.Empty? then 0 else Count(log.before, e) + if log.last == e then 1 else 0
  }

  /** When an event is legal. Read failures, which leave no notifier behind, sleeps of the back-off
      that the failures so far call for, and attempts to reconnect follow each other in rounds. An
      attempt succeeds right after a dump on the new bus and fails right after one of its steps has;
      the issue comes up at the sixth failure in a row, after 63 s of back-off, and goes down at a
      reconnect; the re-authentication flow follows the issue. */
  predicate Legal(l: Ledger, e: Event) {
    match e
    case Opened(bus) => bus >= l.used
    case OpenFailed(at) => l.held == {} && l.since < at
    case Released(bus) => bus in l.held && bus !in l.live.Values
    case Started(notifier, bus) => notifier >= l.used && bus in l.held && bus !in l.live.Values
    case StartFailed(notifier, bus) => notifier >= l.used && bus in l.held && bus !in l.live.Values
    case Stopped(notifier) => notifier in l.live
    case DumpSent(bus) => bus in l.held && bus in l.live.Values
    case DumpFailed(at) => l.last.Some? && l.last.value.DumpSent? && l.since < at
    case ReadError(at) => l.phase.Reading? && l.live != map[] && l.since < at
    case ReadFailed(at) =>
      && l.live == map[] && l.since <= at
      && (l.phase.Failing? || (l.phase.Reading? && (l.held == {} || (l.last.Some? && l.last.value.StartFailed?))))
    case Slept(ms, at) => l.phase.Broken? && ms == Backoff(l.streak) && l.since < at
    case ReconnectFailed(at) => l.phase.Rested? && l.since < at && l.last.Some? && FailedStep(l.last.value)
    case Reconnected(at) =>
      l.phase.Rested? && l.since < at && l.last.Some? && l.last.value.DumpSent? && l.last.value.bus in l.held
    case IssueRaised =>
      !l.issue && l.last.Some? && l.last.value.ReconnectFailed? && l.streak == 6 && l.slept == 63_000
    case ReauthStarted => l.last == Some(IssueRaised)
    case IssueCleared => l.issue && l.last.Some? && l.last.value.Reconnected?
  }

  /** A step of an attempt to reconnect that can fail: opening the bus, constructing the notifier,
      sending the dump request. */
  predicate FailedStep(e: Event) {
    e.OpenFailed? || e.StartFailed? || e.DumpFailed?
  }

  /** The books after a log, provided every event of it was legal when it happened. */
  function Audit(log: Log): Option<Ledger> {
    if log.Empty? then Some(EMPTY_LEDGER)
    else
      var l := Audit(log.before);
      if l.Some? && Legal(l.value, log.last) then Some(Book(l.value, log.last)) else None
  }

  /** In a legal log the bus of a live notifier is held, so none is released under a live
      notifier; no bus has two live notifiers; handles from `used` on are new. */
  lemma {:induction false} LedgerSound(log: Log)
    requires Audit(log).Some?
    ensures var l := Audit(log).value;
            && (forall b :: b in l.held ==> b < l.used)
            && (forall n :: n in l.live ==> n < l.used && l.live[n] in l.held)
            && (forall n, m :: n in l.live && m in l.live && l.live[n] == l.live[m] ==> n == m)
  {
    if log.Snoc? {
      LedgerSound(log.before);
    }
  }

  /** In a legal log a bus is opened at most once, and has been released exactly once or is held. */
  lemma {:induction false} BusOnce(log: Log, bus: Handle)
    requires Audit(log).Some?
    ensures var l := Audit(log).value;
            && Count(log, Opened(bus)) == Count(log, Released(bus)) + (if bus in l.held then 1 else 0) <= 1
            && (bus >= l.used ==> Count(log, Opened(bus)) == 0)
  {
    if log.Snoc? {
      BusOnce(log.before, bus);
      LedgerSound(log.before);
    }
  }

  /** In a legal log a notifier is started at most once, and has been stopped exactly once or is
      live on the bus it was started for. */
  lemma {:induction false} NotifierOnce(log: Log, notifier: Handle, bus: Handle)
    requires Audit(log).Some?
    ensures var l := Audit(log).value;
            && Count(log, Started(notifier, bus)) <= 1 && Count(log, Stopped(notifier)) <= 1
            && (notifier in l.live ==> Count(log, Stopped(notifier)) == 0)
            && (Count(log, Started(notifier, bus)) == 1 ==>
                  (notifier in l.live && l.live[notifier] == bus) || Count(log, Stopped(notifier)) == 1)
            && (notifier >= l.used ==> Count(log, Started(notifier, bus)) == Count(log, Stopped(notifier)) == 0)
  {
    if log.Snoc? {
      NotifierOnce(log.before, notifier, bus);
      LedgerSound(log.before);
    }
  }

  /** A handle that is not held any more: opened and released, or started and stopped, equally often
      and at most once. */
  predicate GivenBack(log: Log, h: Handle, other: Handle) {
    && Count(log, Opened(h)) == Count(log, Released(h)) <= 1
    && Count(log, Started(h, other)) <= Count(log, Stopped(h)) <= 1
  }

  /** Per outage the issue is raised, and re-authentication started, at most once: both counts
      since the last reconnect are bounded by whether the streak has reached six. */
  function SinceReconnect(log: Log, e: Event): nat {
    if log.Empty? || log.last.Reconnected? then 0
    else SinceReconnect(log.before, e) + if log.last == e then 1 else 0
  }

  lemma {:induction false} OncePerOutage(log: Log)
    requires Audit(log).Some?
    ensures var l := Audit(log).value;
            var raised := SinceReconnect(log, IssueRaised);
            && raised <= (if l.streak >= 6 then 1 else 0)
            && (l.streak == 6 && l.last.Some? && l.last.value.ReconnectFailed? ==> raised == 0)
            && SinceReconnect(log, ReauthStarted) <= raised
            && (l.last == Some(IssueRaised) ==> SinceReconnect(log, ReauthStarted) == 0)
  {
    if log.Snoc? {
      OncePerOutage(log.before);
    }
  }

  function ReadFailures(log: Log): nat {
    if log.Empty? then 0 else ReadFailures(log.before) + if log.last.ReadFailed? then 1 else 0
  }

  function Sleeps(log: Log): nat {
    if log.Empty? then 0 else Sleeps(log.before) + if log.last.Slept? then 1 else 0
  }

  function Attempts(log: Log): nat {
    if log.Empty? then 0
    else Attempts(log.before) + if log.last.Reconnected? || log.last.ReconnectFailed? then 1 else 0
  }

  /** Every read failure is followed by one sleep and every sleep by one attempt, but for the one the
      reader is at. */
  lemma {:induction false} RoundsAreComplete(log: Log)
    requires Audit(log).Some?
    ensures var phase := Audit(log).value.phase;
            && ReadFailures(log) == Sleeps(log) + (if phase.Broken? then 1 else 0)
            && Sleeps(log) == Attempts(log) + (if phase.Rested? then 1 else 0)
  {
    if log.Snoc? {
      RoundsAreComplete(log.before);
    }
  }

  // ---------------------------------------------------------------------------------------------
  // The issue over several lives
  // ---------------------------------------------------------------------------------------------

  /** Whether the issue registry holds the issue after a log, given whether it did before. */
  function IssueUp(log: Log, before: bool): bool {
    if log.Empty? then before
    else if log.last.IssueRaised? then true
    else if log.last.IssueCleared? then false
    else IssueUp(log.before, before)
  }

  lemma {:induction false} IssueOfLife(log: Log, before: bool)
    requires Audit(log).Some?
    ensures var l := Audit(log).value;
            && IssueUp(log, before) == (if Count(log, IssueRaised) == 0 then before else l.issue)
            && (l.issue || Count(log, IssueCleared) > 0 ==> Count(log, IssueRaised) > 0)
            && (Count(log, IssueRaised) == 0 ==> !l.issue)
  {
    if log.Snoc? {
      IssueOfLife(log.before, before);
    }
  }

  /** A controller that is rebuilt does not know of an issue its predecessor left: in a legal log of
      its own the registry ends up wrong if and only if the issue was there before and this life
      never raised it itself, however many reconnects succeeded. */
  lemma InheritedIssueStays(log: Log, before: bool)
    requires Audit(log).Some?
    ensures IssueUp(log, before) != Audit(log).value.issue <==> before && Count(log, IssueRaised) == 0
  {
    IssueOfLife(log, before);
  }

  // ---------------------------------------------------------------------------------------------
  // Back-off
  // ---------------------------------------------------------------------------------------------

  const INITIAL_MS: nat := 1_000
  const MAX_MS: nat := 60_000

  function Capped(ms: nat): nat {
    if ms < MAX_MS then ms else MAX_MS
  }

  function Backoff(failures: nat): nat {
    if failures == 0 then INITIAL_MS else Capped(Backoff(failures - 1) * 2)
  }

  function Pow2(n: nat): nat {
    if n == 0 then 1 else 2 * Pow2(n - 1)
  }

  /** After k failures in a row the back-off is min(2^k, 60) seconds, and it is at its ceiling
      exactly from the sixth on. */
  lemma {:induction false} BackoffClosedForm(k: nat)
    ensures Backoff(k) == if 1_000 * Pow2(k) < 60_000 then 1_000 * Pow2(k) else 60_000
    ensures Backoff(k) >= MAX_MS <==> k >= 6
  {
    if k > 0 {
      BackoffClosedForm(k - 1);
      if k <= 6 {
        assert Pow2(1) == 2 && Pow2(2) == 4 && Pow2(3) == 8;
        assert Pow2(4) == 16 && Pow2(5) == 32 && Pow2(6) == 64;
      }
    }
  }

  function TotalBackoff(k: nat): nat {
    if k == 0 then 0 else TotalBackoff(k - 1) + Backoff(k - 1)
  }

  lemma FirstSixSleeps()
    ensures TotalBackoff(6) == 63_000
  {
    assert Backoff(1) == 2_000 && Backoff(2) == 4_000 && Backoff(3) == 8_000;
    assert Backoff(4) == 16_000 && Backoff(5) == 32_000;
    assert TotalBackoff(3) == 7_000;
  }

  lemma CeilingReached(k: nat)
    ensures Backoff(k) >= MAX_MS <==> k >= 6
    ensures k == 6 ==> TotalBackoff(k) == 63_000
  {
    BackoffClosedForm(k);
    FirstSixSleeps();
  }

  // ---------------------------------------------------------------------------------------------
  // The object
  // ---------------------------------------------------------------------------------------------

  class BusRuntime {
    const oracle: seq<Outcome>
    /** Whether the config entry is still registered when the issue is raised. */
    const entryKnown: bool
    /** Whether the attempt with this handle to construct a notifier succeeds. */
    const startable: Handle -> bool
    var pos: nat
    var nextHandle: Handle
    var bus: Option<Handle>
    var notifier: Option<Handle>
    var reader: Option<Handle>
    var reconnectCount: nat
    var repairIssueActive: bool
    ghost var log: Log

    constructor (oracle: seq<Outcome>, entryKnown: bool, startable: Handle -> bool)
      ensures this.oracle == oracle && this.entryKnown == entryKnown && this.startable == startable && pos == 0
      ensures Safe() && log == Empty && bus == None && notifier == None
    {
      this.oracle, this.entryKnown, this.startable := oracle, entryKnown, startable;
      pos, nextHandle := 0, 0;
      bus, notifier, reader := None, None, None;
      reconnectCount, repairIssueActive := 0, false;
      log := Empty;
    }

    /** What holds whenever the event loop may run something else: the log was legal so far, what
        the fields name is exactly what is held and live, and a live notifier reads the current bus. */
    ghost predicate Safe()
      reads this
    {
      && Audit(log).Some? && Real(log)
      && var l := Audit(log).value;
      && l.used <= nextHandle && l.since <= pos
      && l.held == (if bus.Some? then {bus.value} else {})
      && (notifier.Some? ==> bus.Some?) && (notifier.Some? <==> reader.Some?)
      && l.live == (if notifier.Some? then map[notifier.value := bus.value] else map[])
      && repairIssueActive == l.issue == (l.streak >= 6)
      && reconnectCount == l.successes
    }

    ghost function Books(): Ledger
      requires Safe()
      reads this
    {
      Audit(log).value
    }

    /** Nothing was slept, lost or recovered since. */
    twostate predicate SameOutage()
      requires old(Safe()) && Safe()
      reads this
    {
      && old(Books()).streak == Books().streak && old(Books()).slept == Books().slept
      && old(Books()).count <= Books().count
      && repairIssueActive == old(repairIssueActive) && reconnectCount == old(reconnectCount)
    }

    /** The reader is where it was in its round. */
    twostate predicate SamePlace()
      requires old(Safe()) && Safe()
      reads this
    {
      old(Books()).phase == Books().phase && old(Books()).since == Books().since
    }

    /** The await before `at` raised or timed out. */
    predicate FailedBefore(at: nat) {
      at > 0 && (OutcomeAt(at - 1).Raised? || OutcomeAt(at - 1).TimedOut?)
    }

    /** The outcomes of the awaits and of the notifiers' construction bear an event out. */
    predicate RealEvent(e: Event) {
      match e
      case OpenFailed(at) => FailedBefore(at)
      case DumpFailed(at) => FailedBefore(at)
      case ReadError(at) => FailedBefore(at)
      case Started(notifier, _) => startable(notifier)
      case StartFailed(notifier, _) => !startable(notifier)
      case Slept(_, at) => at > 0 && !OutcomeAt(at - 1).Cancels()
      case Reconnected(at) => at > 0 && OutcomeAt(at - 1).Done?
      case _ => true
    }

    predicate Real(log: Log) {
      log.Snoc? ==> RealEvent(log.last) && Real(log.before)
    }

    function OutcomeAt(i: nat): Outcome
    {
      if i < |oracle| then oracle[i] else Cancelled
    }

    /** A cancellation ends a coroutine at the await it hits, and nothing else counts as one. */
    twostate predicate Propagates(e: Exit)
      reads this`pos
    {
      && old(pos) <= pos && (e.WasCancelled? ==> old(pos) < pos)
      && forall k: nat :: old(pos) <= k < pos ==> (OutcomeAt(k).Cancels() <==> e.WasCancelled? && k == pos - 1)
    }

    /** The first await from `i` on that does not deliver a message. */
    function Silence(i: nat): (q: nat)
      ensures i <= q && !OutcomeAt(q).Done?
      ensures forall k :: i <= k < q ==> OutcomeAt(k).Done?
      decreases |oracle| - i
    {
      if OutcomeAt(i).Done? then Silence(i + 1) else i
    }

    ghost method Emit(e: Event)
      requires Audit(log).Some? && Legal(Audit(log).value, e)
      requires Real(log) && RealEvent(e)
      modifies this`log
      ensures log == Snoc(old(log), e) && Real(log) && Audit(log) == Some(Book(old(Audit(log)).value, e))
    {
      log := Snoc(log, e);
    }

    /** A suspension point; past the end of the oracle it is cancelled. */
    method Await() returns (o: Outcome)
      requires Safe()
      modifies this`pos
      ensures o == OutcomeAt(old(pos)) && pos == old(pos) + 1
      ensures !o.Cancels() ==> pos <= |oracle|
    {
      o := OutcomeAt(pos);
      pos := pos + 1;
    }

    method FreshHandle() returns (h: Handle)
      modifies this`nextHandle
      ensures h == old(nextHandle) && nextHandle == h + 1
    {
      h := nextHandle;
      nextHandle := nextHandle + 1;
    }

    /** The log once a live notifier has been told to stop. */
    ghost function Stopping(log: Log): Log
      reads this
    {
      if notifier.Some? then Snoc(log, Stopped(notifier.value)) else log
    }

    /** The log once an open bus has been handed to its shutdown. */
    ghost function Releasing(log: Log): Log
      reads this
    {
      if bus.Some? then Snoc(log, Released(bus.value)) else log
    }

    /** `_teardown_notifier`: an error of `notifier.stop` is swallowed, a cancellation is not. */
    method TeardownNotifier() returns (e: Exit)
      requires Safe()
      modifies this`pos, this`notifier, this`reader, this`log
      ensures Safe() && SameOutage() && SamePlace() && Propagates(e)
      ensures notifier == None && bus == old(bus) && log == old(Stopping(log))
      ensures !e.Threw? && pos == old(pos) + if old(notifier).Some? then 1 else 0
    {
      e := Returned;
      if notifier.Some? {
        var stopping := notifier.value;
        notifier := None;
        reader := None;
        Emit(Stopped(stopping));
        var o := Await();
        if o.Cancels() {
          e := WasCancelled;
        }
      }
    }

    /** `_setup_notifier`: constructing the notifier may raise; then there is none. */
    method SetupNotifier() returns (e: Exit)
      requires Safe()
      modifies this
      ensures Safe() && SameOutage() && SamePlace() && Propagates(e) && bus == old(bus)
      ensures bus.None? ==> e.Returned? && log == old(log)
      ensures bus.Some? && !e.WasCancelled? ==>
                nextHandle == old(nextHandle) + 1 && (e.Returned? <==> startable(old(nextHandle)))
      ensures e.Returned? ==> (notifier.Some? <==> bus.Some?)
      ensures e.Returned? && bus.Some? ==> log == Snoc(old(Stopping(log)), Started(notifier.value, bus.value))
      ensures !e.Returned? ==> notifier == None
      ensures e.WasCancelled? ==> log == old(Stopping(log))
      ensures e.Threw? ==> bus.Some? && log == Snoc(old(Stopping(log)), StartFailed(old(nextHandle), bus.value))
      ensures pos == old(pos) + if old(notifier).Some? then 1 else 0
    {
      if bus.None? {
        return Returned;
      }
      if notifier.Some? {
        e := TeardownNotifier();
        if e.WasCancelled? {
          return;
        }
      }
      var handle := FreshHandle();
      if !startable(handle) {
        Emit(StartFailed(handle, bus.value));
        return Threw;
      }
      reader := Some(handle);
      notifier := Some(handle);
      Emit(Started(handle, bus.value));
      e := Returned;
    }

    /** `_open_bus`: stop the notifier, release the old bus, open a new one. A cancellation that
        finds the new bus already open releases it again. */
    method OpenBus() returns (e: Exit)
      requires Safe()
      modifies this
      ensures Safe() && SameOutage() && SamePlace() && Propagates(e) && notifier == None
      ensures e.Returned? ==> bus.Some? && log == Snoc(old(Releasing(Stopping(log))), Opened(bus.value))
      ensures e.Returned? ==> old(nextHandle) <= bus.value
      ensures e.Threw? ==> bus == None && log == Snoc(old(Releasing(Stopping(log))), OpenFailed(pos))
      ensures !e.WasCancelled? ==> pos > old(pos) && (e.Returned? <==> OutcomeAt(pos - 1).Done?)
      ensures e.WasCancelled? ==> bus == None || (bus == old(bus) && log == old(Stopping(log)))
      ensures old(bus) == None ==> pos > old(pos) && (bus.Some? <==> OutcomeAt(pos - 1).Done?)
      ensures old(notifier) == None ==> pos <= old(pos) + 2
      ensures old(bus) == None && old(notifier) == None ==> pos == old(pos) + 1
    {
      e := CloseStale();
      if !e.WasCancelled? {
        e := MakeBus();
      }
    }

    /** The first half of `_open_bus`: what is there is stopped and released, in that order. */
    method CloseStale() returns (e: Exit)
      requires Safe()
      modifies this
      ensures Safe() && SameOutage() && SamePlace() && Propagates(e) && notifier == None && !e.Threw?
      ensures !e.WasCancelled? ==> bus == None
      ensures bus == None || (bus == old(bus) && log == old(Stopping(log)))
      ensures nextHandle == old(nextHandle)
      ensures bus == None ==> log == old(Releasing(Stopping(log)))
      ensures old(bus) == None && old(notifier) == None ==> e.Returned? && pos == old(pos)
      ensures old(notifier) == None ==> pos <= old(pos) + 1
    {
      e := TeardownNotifier();
      if e.Returned? && bus.Some? {
        var stale := bus.value;
        bus := None;
        Emit(Released(stale));
        var o := Await();
        if o.Cancels() {
          e := WasCancelled;
        }
      }
    }

    /** The second half: await the future that opens the bus. */
    method MakeBus() returns (e: Exit)
      requires Safe() && bus == None && notifier == None
      modifies this
      ensures Safe() && SameOutage() && SamePlace() && Propagates(e) && notifier == None
      ensures pos == old(pos) + 1 && (bus.Some? <==> OutcomeAt(old(pos)).Done?)
      ensures e.Returned? <==> bus.Some?
      ensures bus.Some? ==> bus.value == old(nextHandle) && log == Snoc(old(log), Opened(bus.value))
      ensures OutcomeAt(old(pos)).CancelledLate? ==>
                log == Snoc(Snoc(old(log), Opened(old(nextHandle))), Released(old(nextHandle)))
      ensures OutcomeAt(old(pos)).Cancelled? ==> log == old(log)
      ensures e.Threw? ==> log == Snoc(old(log), OpenFailed(pos))
    {
      var o := Await();
      match o {
        case Done =>
          var handle := FreshHandle();
          bus := Some(handle);
          Emit(Opened(handle));
          e := Returned;
        case CancelledLate =>
          var orphan := FreshHandle();
          Emit(Opened(orphan));
          Emit(Released(orphan));
          e := WasCancelled;
        case Cancelled => e := WasCancelled;
        case Raised => Emit(OpenFailed(pos)); e := Threw;
        case TimedOut => Emit(OpenFailed(pos)); e := Threw;
      }
    }

    /** `_send_frame` for a dump request that has a reader behind it. */
    method SendDump() returns (e: Exit)
      requires Safe() && (bus.Some? ==> notifier.Some?)
      modifies this`pos, this`log
      ensures Safe() && SameOutage() && SamePlace() && Propagates(e)
      ensures bus.None? ==> e.Threw? && log == old(log) && pos == old(pos)
      ensures bus.Some? ==>
                && pos == old(pos) + 1 && (e.Returned? <==> OutcomeAt(old(pos)).Done?)
                && var sent := Snoc(old(log), DumpSent(bus.value));
                log == if e.Threw? then Snoc(sent, DumpFailed(pos)) else sent
    {
      if bus.None? {
        return Threw;
      }
      assert Books().live[notifier.value] == bus.value;
      Emit(DumpSent(bus.value));
      var o := Await();
      if o.Raised? || o.TimedOut? {
        Emit(DumpFailed(pos));
        return Threw;
      }
      e := if o.Cancels() then WasCancelled else Returned;
    }

    /** `_collect_initial_state`, bus side: the dump, then messages until a wait times out or the
        deadline has passed. */
    method CollectInitialState() returns (e: Exit)
      requires Safe()
      modifies this`pos, this`log
      ensures Safe() && SameOutage() && SamePlace() && Propagates(e)
      ensures bus.None? || notifier.None? ==> e.Returned? && pos == old(pos) && log == old(log)
      ensures bus.Some? && notifier.Some? ==>
                var sent := Snoc(old(log), DumpSent(bus.value));
                log == if FailedBefore(old(pos) + 1) then Snoc(sent, DumpFailed(old(pos) + 1)) else sent
      ensures bus.Some? && notifier.Some? && !OutcomeAt(old(pos)).Done? ==> !e.Returned? && pos == old(pos) + 1
      ensures bus.Some? && notifier.Some? && OutcomeAt(old(pos)).Done? ==>
                && old(pos) < pos <= Silence(old(pos) + 1) + 1
                && (e.Threw? <==> OutcomeAt(pos - 1).Raised?)
    {
      if bus.None? || reader.None? {
        return Returned;
      }
      e := SendDump();
      if !e.Returned? {
        return;
      }
      e := DrainMessages();
    }

    /** The loop of `_collect_initial_state`: messages until a wait times out or the deadline has passed. */
    method DrainMessages() returns (e: Exit)
      requires Safe()
      modifies this`pos
      ensures Safe() && Propagates(e) && old(pos) <= pos <= Silence(old(pos)) + 1
      ensures e.Threw? <==> pos > old(pos) && OutcomeAt(pos - 1).Raised?
    {
      while true
        invariant Safe() && Propagates(Returned) && old(pos) <= pos
        invariant pos > old(pos) ==> OutcomeAt(pos - 1).Done?
        invariant Silence(pos) == Silence(old(pos))
        decreases |oracle| - pos
      {
        var expired := *;
        if expired {
          return Returned;
        }
        var o := Await();
        if o.Cancels() {
          return WasCancelled;
        }
        if o.TimedOut? {
          return Returned;
        }
        if o.Raised? {
          return Threw;
        }
      }
    }

    /** `async_setup`. Whatever happens later, a bus whose future completed normally is kept. */
    method AsyncSetup() returns (e: Exit)
      requires Safe() && bus == None && notifier == None
      modifies this
      ensures Safe() && SameOutage() && SamePlace() && Propagates(e)
      ensures bus.Some? <==> OutcomeAt(old(pos)).Done?
      ensures e.WasCancelled? ==> (notifier.Some? <==> bus.Some?)
      ensures e.Threw? ==> !Alive()
      ensures e.Returned? ==>
                && bus.Some? && notifier.Some?
                && log == Snoc(Snoc(Snoc(old(log), Opened(bus.value)), Started(notifier.value, bus.value)),
                               DumpSent(bus.value))
    {
      e := OpenBus();
      if !e.Returned? {
        return;
      }
      e := SetupNotifier();
      if !e.Returned? {
        return;
      }
      e := CollectInitialState();
    }

    /** `async_shutdown`, once the cancelled reader task has ended. A cancellation of the shutdown
        itself leaves the bus open exactly when it hits the wait for the notifier to stop. */
    method AsyncShutdown() returns (e: Exit)
      requires Safe()
      modifies this
      ensures Safe() && SameOutage() && SamePlace() && Propagates(e) && !e.Threw? && notifier == None
      ensures pos <= old(pos) + 2
      ensures e.Returned? ==> Books().held == {} && Books().live == map[]
      ensures bus.Some? <==> old(bus).Some? && old(notifier).Some? && OutcomeAt(old(pos)).Cancels()
      ensures log == if bus.Some? then old(Stopping(log)) else old(Releasing(Stopping(log)))
    {
      e := TeardownNotifier();
      if e.WasCancelled? {
        return;
      }
      if bus.Some? {
        var closing := bus.value;
        bus := None;
        Emit(Released(closing));
        var o := Await();
        if o.Cancels() {
          e := WasCancelled;
        }
      }
    }

    /** `_read_frames`, bus side: it never returns. It reads up to the first await that brings no
        message, and unless that was a cancellation it stops the notifier. */
    method ReadFrames() returns (e: Exit)
      requires Safe() && Books().phase.Reading?
      modifies this
      ensures Safe() && SameOutage() && Propagates(e) && !e.Returned? && bus == old(bus)
      ensures e.Threw? ==> notifier == None && (SamePlace() ==> Legal(Books(), ReadFailed(pos)))
      ensures bus.None? ==> e.Threw? && pos == old(pos) && log == old(log)
      ensures old(notifier).Some? ==> pos > old(pos)
      ensures pos == old(pos) ==> SamePlace() && e.Threw?
      ensures pos > old(pos) ==>
                var q := Silence(old(pos));
                if OutcomeAt(q).Cancels() then pos == q + 1 && SamePlace()
                else pos == q + 2 && Books().phase.Failing? && Books().since == q + 1
      ensures old(notifier).Some? ==>
                var q := Silence(old(pos));
                log == if OutcomeAt(q).Cancels() then old(log) else old(Stopping(Snoc(log, ReadError(q + 1))))
    {
      if bus.None? {
        return Threw;
      }
      if reader.None? || notifier.None? {
        e := SetupNotifier();
        if !e.Returned? {
          return;
        }
      }
      if reader.None? {
        return Threw;
      }
      e := ReadUntilError();
    }

    /** The loop of `_read_frames` and its handler. */
    method ReadUntilError() returns (e: Exit)
      requires Safe() && Books().phase.Reading? && notifier.Some?
      modifies this
      ensures Safe() && SameOutage() && Propagates(e) && !e.Returned? && bus == old(bus)
      ensures var q := Silence(old(pos));
              if OutcomeAt(q).Cancels() then
                e.WasCancelled? && pos == q + 1 && SamePlace() && log == old(log)
              else
                && pos == q + 2 && notifier == None && Books().phase.Failing? && Books().since == q + 1
                && log == old(Stopping(Snoc(log, ReadError(q + 1))))
    {
      var o := AwaitMessages();
      if o.Cancels() {
        return WasCancelled;
      }
      assert notifier.value in Books().live;
      Emit(ReadError(pos));
      e := TeardownNotifier();
      if !e.WasCancelled? {
        e := Threw;
      }
    }

    /** Messages come in until something else does: a timeout, an error or a cancellation. */
    method AwaitMessages() returns (o: Outcome)
      requires Safe()
      modifies this`pos
      ensures Safe() && pos == Silence(old(pos)) + 1 && o == OutcomeAt(pos - 1)
    {
      o := Await();
      while o.Done?
        invariant Safe() && pos > old(pos) && o == OutcomeAt(pos - 1)
        invariant Silence(old(pos)) == Silence(pos - 1)
        decreases |oracle| - pos, o.Done?
      {
        o := Await();
      }
    }

    /** The notifier lives and the last await has completed. */
    predicate Alive()
      reads this`pos, this`notifier
    {
      notifier.Some? && pos > 0 && OutcomeAt(pos - 1).Done?
    }

    /** Why an attempt to reconnect fails: the bus could not be opened, the notifier could not be
        constructed, or the dump request could not be sent. */
    predicate Broke()
      reads this`pos, this`bus, this`notifier, this`nextHandle
    {
      if bus.Some? && notifier.None? then nextHandle > 0 && !startable(nextHandle - 1)
      else pos > 0 && !OutcomeAt(pos - 1).Done?
    }

    /** The body of the second `try` in `_read_loop`. It succeeds unless one of its own steps fails. */
    method Reconnect() returns (e: Exit)
      requires Safe()
      modifies this
      ensures Safe() && SameOutage() && SamePlace() && Propagates(e)
      ensures !e.WasCancelled? ==> old(pos) < pos && (e.Returned? <==> Alive())
      ensures !e.WasCancelled? && bus.Some? ==> old(nextHandle) <= bus.value
      ensures e.Threw? ==> Broke() && Books().last.Some? && FailedStep(Books().last.value)
      ensures old(notifier) == None ==> pos <= old(pos) + 3
      ensures e.Returned? ==>
                && bus.Some? && notifier.Some?
                && log == Snoc(Snoc(Snoc(old(Releasing(Stopping(log))), Opened(bus.value)),
                                    Started(notifier.value, bus.value)), DumpSent(bus.value))
    {
      e := OpenBus();
      if e.Returned? {
        e := StartAndDump();
      }
    }

    method StartAndDump() returns (e: Exit)
      requires Safe() && bus.Some? && notifier == None
      modifies this
      ensures Safe() && SameOutage() && SamePlace() && Propagates(e) && bus == old(bus)
      ensures !e.WasCancelled? ==> (e.Returned? <==> notifier.Some? && pos > old(pos) && OutcomeAt(pos - 1).Done?)
      ensures notifier.Some? ==> pos > old(pos)
      ensures pos <= old(pos) + 1
      ensures e.Threw? ==> Broke() && Books().last.Some? && FailedStep(Books().last.value)
      ensures e.Returned? ==>
                log == Snoc(Snoc(old(log), Started(notifier.value, bus.value)), DumpSent(bus.value))
    {
      e := SetupNotifier();
      if e.Returned? {
        e := SendDump();
      }
    }

    method RaiseRepairIssue()
      requires Audit(log).Some? && Real(log) && repairIssueActive == Audit(log).value.issue
      requires !repairIssueActive ==> Legal(Audit(log).value, IssueRaised)
      modifies this`repairIssueActive, this`log
      ensures repairIssueActive
      ensures log == if old(repairIssueActive) then old(log)
                     else if entryKnown then Snoc(Snoc(old(log), IssueRaised), ReauthStarted)
                     else Snoc(old(log), IssueRaised)
      ensures Audit(log).Some? && Real(log)
      ensures Audit(log).value == old(Audit(log).value).(issue := true, count := Audit(log).value.count, last := Audit(log).value.last)
    {
      if repairIssueActive {
        return;
      }
      repairIssueActive := true;
      Emit(IssueRaised);
      if entryKnown {
        Emit(ReauthStarted);
      }
    }

    method ClearRepairIssue()
      requires Audit(log).Some? && Real(log) && repairIssueActive == Audit(log).value.issue
      requires Audit(log).value.last.Some? && Audit(log).value.last.value.Reconnected?
      modifies this`repairIssueActive, this`log
      ensures !repairIssueActive
      ensures log == if old(repairIssueActive) then Snoc(old(log), IssueCleared) else old(log)
      ensures Audit(log).Some? && Real(log)
      ensures Audit(log).value == old(Audit(log).value).(issue := false, count := Audit(log).value.count, last := Audit(log).value.last)
    {
      if !repairIssueActive {
        return;
      }
      repairIssueActive := false;
      Emit(IssueCleared);
    }

    /** Where the reader may be when it is cancelled, `from` being where it began. While it reads,
        every await since the last attempt brought a message, but for the last one; it may be
        stopping the notifier, or sleeping, one await after the failure; or it is at most three
        awaits into an attempt. */
    ghost predicate NotStalled(from: nat)
      requires Safe()
      reads this
    {
      var since := if Books().since < from then from else Books().since;
      match Books().phase
      case Reading => since < pos && forall k: nat :: since <= k < pos - 1 ==> OutcomeAt(k).Done?
      case Failing => pos == since + 1
      case Broken => pos == since + 1
      case Rested => since < pos <= since + 3
    }

    /** `_read_loop`: it ends at the first cancelled await, and only there. Legality of the log it
        leaves says that read failures, sleeps and attempts follow each other in rounds, that every
        sleep had the length the failures before it call for, that no attempt failed but by a step of
        its own, that the issue came up exactly at the sixth failure in a row, and that every dump had
        a live notifier on its bus. And it never stalls. */
    method ReadLoop()
      requires Safe() && Books().streak == 0 && Books().slept == 0 && Books().phase.Reading?
      modifies this
      ensures Safe() && Propagates(WasCancelled) && NotStalled(old(pos))
      ensures old(notifier).Some? ==> (log == old(log) <==> OutcomeAt(Silence(old(pos))).Cancels())
    {
      var backoff := INITIAL_MS;
      while true
        invariant Safe() && Propagates(Returned)
        invariant log == old(log) ==> pos == old(pos) && notifier == old(notifier)
        invariant old(Books()).count <= Books().count && (old(Books()).count == Books().count ==> log == old(log))
        invariant log != old(log) && old(notifier).Some? ==> !OutcomeAt(Silence(old(pos))).Cancels()
        invariant backoff == Backoff(Books().streak) && Books().phase.Reading?
        invariant pos == if Books().since < old(pos) then old(pos) else Books().since
        invariant Books().slept == TotalBackoff(Books().streak)
        decreases |oracle| - pos
      {
        var e := ReadThenSleep(backoff);
        if e.WasCancelled? {
          return;
        }
        e, backoff := TryReconnect(backoff);
        if e.WasCancelled? {
          return;
        }
      }
    }

    /** The first half of an iteration: read until that fails, then back off. */
    method ReadThenSleep(ms: nat) returns (e: Exit)
      requires Safe() && ms == Backoff(Books().streak) && Books().phase.Reading?
      modifies this
      ensures Safe() && Propagates(e) && !e.Threw? && reconnectCount == old(reconnectCount)
      ensures Books().streak == old(Books().streak) && old(Books()).count <= Books().count
      ensures old(notifier).Some? ==>
                if OutcomeAt(Silence(old(pos))).Cancels() then e.WasCancelled? && log == old(log)
                else old(Books()).count < Books().count
      ensures e.WasCancelled? ==> !Books().phase.Rested?
      ensures e.WasCancelled? && Books().phase.Reading? ==>
                Books().since == old(Books()).since && forall k: nat :: old(pos) <= k < pos - 1 ==> OutcomeAt(k).Done?
      ensures e.WasCancelled? && !Books().phase.Reading? ==> old(pos) <= Books().since && pos == Books().since + 1
      ensures e.Returned? ==>
                && old(pos) < pos <= |oracle| && notifier == None
                && Books().slept == old(Books().slept) + ms && Books().phase.Rested? && Books().since == pos
                && (old(notifier).Some? ==> pos == Silence(old(pos)) + 3)
                && old(Books()).count < Books().count
    {
      e := ReadFrames();
      if e.WasCancelled? {
        return;
      }
      e := BackOff(ms);
    }

    /** The `except` of the reader, and the sleep. */
    method BackOff(ms: nat) returns (e: Exit)
      requires Safe() && ms == Backoff(Books().streak) && Legal(Books(), ReadFailed(pos))
      modifies this`pos, this`log
      ensures Safe() && Propagates(e) && !e.Threw? && pos == old(pos) + 1
      ensures Books().streak == old(Books()).streak && old(Books()).count < Books().count
      ensures if e.Returned? then
                pos <= |oracle| && Books().slept == old(Books()).slept + ms && Books().phase.Rested? && Books().since == pos
              else Books().phase.Broken? && Books().since == old(pos)
    {
      Emit(ReadFailed(pos));
      e := Sleep(ms);
    }

    method Sleep(ms: nat) returns (e: Exit)
      requires Safe() && ms == Backoff(Books().streak) && Books().phase.Broken?
      modifies this`pos, this`log
      ensures Safe() && Propagates(e) && !e.Threw? && pos == old(pos) + 1
      ensures log == if e.Returned? then Snoc(old(log), Slept(ms, pos)) else old(log)
      ensures e.Returned? ==> pos <= |oracle|
    {
      var o := Await();
      if o.Cancels() {
        return WasCancelled;
      }
      Emit(Slept(ms, pos));
      e := Returned;
    }

    /** The second half: try to reconnect, and draw the consequences. */
    method TryReconnect(backoff: nat) returns (e: Exit, next: nat)
      requires Safe() && backoff == Backoff(Books().streak) && notifier == None
      requires Books().slept == TotalBackoff(Books().streak + 1)
      requires Books().phase.Rested? && Books().since == pos
      modifies this
      ensures Safe() && Propagates(e) && !e.Threw? && old(Books()).count <= Books().count
      ensures old(pos) < pos <= old(pos) + 3
      ensures e.WasCancelled? ==> Books().phase.Rested? && Books().since == old(pos)
      ensures e.Returned? ==>
                && next == Backoff(Books().streak)
                && Books().slept == TotalBackoff(Books().streak) && Books().phase.Reading? && Books().since == pos
                && (!Alive() ==> Broke())
                && Books().streak == (if Alive() then 0 else old(Books().streak) + 1)
                && reconnectCount == old(reconnectCount) + if Alive() then 1 else 0
    {
      next := backoff;
      e := Reconnect();
      if !e.WasCancelled? {
        next := NoteReconnect(e.Returned?, backoff);
        e := Returned;
      }
    }

    /** What `_read_loop` does about the outcome of a reconnect: the next back-off and the issue. */
    method NoteReconnect(succeeded: bool, backoff: nat) returns (next: nat)
      requires Safe() && backoff == Backoff(Books().streak)
      requires Books().slept == TotalBackoff(Books().streak + 1) && Books().phase.Rested? && Books().since < pos
      requires succeeded ==> bus.Some? && Books().last == Some(DumpSent(bus.value)) && OutcomeAt(pos - 1).Done?
      requires !succeeded ==> Books().last.Some? && FailedStep(Books().last.value)
      modifies this`log, this`reconnectCount, this`repairIssueActive
      ensures Safe() && next == Backoff(Books().streak)
      ensures Books().slept == TotalBackoff(Books().streak) && Books().phase.Reading? && Books().since == pos
      ensures old(Books()).count <= Books().count
      ensures reconnectCount == old(reconnectCount) + if succeeded then 1 else 0
      ensures Books().streak == if succeeded then 0 else old(Books().streak) + 1
    {
      if succeeded {
        reconnectCount := reconnectCount + 1;
        Emit(Reconnected(pos));
        ClearRepairIssue();
        next := INITIAL_MS;
      } else {
        next := Capped(backoff * 2);
        NoteFailure(next);
      }
    }

    method NoteFailure(next: nat)
      requires Safe() && next == Backoff(Books().streak + 1)
      requires Books().slept == TotalBackoff(Books().streak + 1) && Books().phase.Rested? && Books().since < pos
      requires Books().last.Some? && FailedStep(Books().last.value)
      modifies this`log, this`repairIssueActive
      ensures Safe() && Books().streak == old(Books().streak) + 1 && Books().slept == old(Books().slept)
      ensures Books().phase.Reading? && Books().since == pos && reconnectCount == old(reconnectCount)
      ensures old(Books()).count <= Books().count
    {
      CeilingReached(Books().streak + 1);
      Emit(ReconnectFailed(pos));
      RaiseAtCeiling(next);
    }

    method RaiseAtCeiling(next: nat)
      requires Audit(log).Some? && Real(log) && repairIssueActive == Audit(log).value.issue
      requires next >= MAX_MS && !repairIssueActive ==> Legal(Audit(log).value, IssueRaised)
      modifies this`repairIssueActive, this`log
      ensures repairIssueActive == (old(repairIssueActive) || next >= MAX_MS)
      ensures Audit(log).Some? && Real(log)
      ensures var l := Audit(log).value;
              l == old(Audit(log).value).(issue := repairIssueActive, count := l.count, last := l.last)
              && old(Audit(log).value).count <= l.count
    {
      if next >= MAX_MS {
        RaiseRepairIssue();
      }
    }

    /** The whole life: the coordinator sets the controller up and shuts it down again if that
        raised; otherwise the read loop runs until a shutdown cancels it. Only a cancelled setup
        (for which the coordinator has no handler) or a cancelled shutdown can leave anything held. */
    method Lifecycle() returns (setup: Exit, shutdown: Exit, readUntil: nat)
      requires Safe() && bus == None && notifier == None && log == Empty
      modifies this
      ensures Safe()
      ensures !setup.WasCancelled? && shutdown.Returned? ==>
                forall h, other :: GivenBack(log, h, other)
      ensures setup.WasCancelled? ==> (bus.Some? <==> OutcomeAt(old(pos)).Done?)
      // The reader was cancelled, where it had not stalled, and the shutdown took two awaits at most.
      ensures setup.Returned? ==>
                && old(pos) < readUntil <= pos <= readUntil + 2 && OutcomeAt(readUntil - 1).Cancels()
                && forall k: nat :: old(pos) <= k < readUntil - 1 ==> !OutcomeAt(k).Cancels()
    {
      setup := AsyncSetup();
      shutdown, readUntil := Returned, pos;
      if setup.WasCancelled? {
        return;
      }
      if setup.Returned? {
        ReadLoop();
        readUntil := pos;
      }
      shutdown := AsyncShutdown();
      if shutdown.Returned? {
        forall h, other
          ensures GivenBack(log, h, other)
        {
          BusOnce(log, h);
          NotifierOnce(log, h, other);
        }
      }
    }
  }
}
