/** Teardown of a plugin: the emitted aboutToUnload, and the host's wait for it in a nested
    event loop against a one-shot timer. Times are milliseconds on one clock. */
module UnloadWait {
  import opened Options

  /** What reaches the plugin's thread: the module says it is done, or some other event
      whose handler takes ms. */
  datatype What = UnloadFinished | Work(ms: nat)

  datatype Event = Event(at: nat, what: What)

  predicate Sorted(events: seq<Event>) { forall i, j :: 0 <= i < j < |events| ==> events[i].at <= events[j].at }

  predicate Done(e: Event) { e.what == UnloadFinished }

  function Cost(e: Event): nat { if e.what.Work? then e.what.ms else 0 }

  /** How long the handlers of the first n events take. */
  function Busy(events: seq<Event>, n: nat): nat
    requires n <= |events|
  {
    if n == 0 then 0 else Busy(events, n - 1) + Cost(events[n - 1])
  }

  // ---------------------------------------------------------------------------
  // The host's wait
  // ---------------------------------------------------------------------------

  /** How the hook answered, by name: absent, or an int; and whether the signal exists. */
  datatype Plugin = Plugin(hook: Option<int>, signal: bool)

  datatype Outcome = NullPlugin | NoHook | Synchronous | NoSignal | Finished | GaveUp

  predicate Waits(plugin: Option<Plugin>) {
    plugin.Some? && plugin.value.hook.Some? && plugin.value.hook.value != 0 && plugin.value.signal
  }

  /** One drain of the posted events: everything that has arrived, including what arrives
      while a handler runs; how many are handled by then, and when it ends. */
  function Drain(events: seq<Event>, next: nat, now: nat): (r: (nat, nat))
    requires next <= |events|
    ensures next <= r.0 <= |events| && now <= r.1
    ensures r.0 < |events| ==> r.1 < events[r.0].at
    decreases |events| - next
  {
    if next < |events| && events[next].at <= now then Drain(events, next + 1, now + Cost(events[next])) else (next, now)
  }

  lemma {:induction false} DrainedAt(events: seq<Event>, next: nat, now: nat)
    requires next <= |events|
    ensures forall k :: next <= k < Drain(events, next, now).0 ==> events[k].at <= Drain(events, next, now).1
    decreases |events| - next
  {
    if next < |events| && events[next].at <= now {
      DrainedAt(events, next + 1, now + Cost(events[next]));
    }
  }

  /** How many events are handled before the timer can fire. */
  function Reach(events: seq<Event>, next: nat, now: nat, deadline: nat): (n: nat)
    requires next <= |events|
    ensures Drain(events, next, now).0 <= n <= |events|
    decreases |events| - next, if next < |events| && now < events[next].at then 1 else 0
  {
    var (handled, ended) := Drain(events, next, now);
    if deadline <= ended || handled == |events| || deadline <= events[handled].at then handled
    else Reach(events, handled, events[handled].at, deadline)
  }

  /** There is a completion from event i up to event n. */
  predicate Completes(events: seq<Event>, i: nat, n: nat)
    requires n <= |events|
  {
    exists k :: i <= k < n && Done(events[k])
  }

  /** The wait sees a completion. */
  predicate Sees(events: seq<Event>, start: nat, grace: nat) {
    Completes(events, 0, Reach(events, 0, start, start + grace))
  }

  /** Whatever arrives before the deadline is handled before the timer can fire. */
  lemma {:induction false} ReachCovers(events: seq<Event>, next: nat, now: nat, deadline: nat)
    requires Sorted(events) && next <= |events|
    ensures forall k :: next <= k < |events| && events[k].at < deadline ==> k < Reach(events, next, now, deadline)
    decreases |events| - next, if next < |events| && now < events[next].at then 1 else 0
  {
    var (handled, ended) := Drain(events, next, now);
    if !(deadline <= ended || handled == |events| || deadline <= events[handled].at) {
      ReachCovers(events, handled, events[handled].at, deadline);
    }
  }

  /** When the first k events have been handled, one after another, event `next` first. */
  function Free(events: seq<Event>, next: nat, now: nat, k: nat): nat
    requires next <= k <= |events|
  {
    if k == next then now
    else
      var free, e := Free(events, next, now, k - 1), events[k - 1];
      (if free < e.at then e.at else free) + Cost(e)
  }

  /** The thread is idle until event j, which comes no earlier than the deadline. */
  predicate IdleAt(events: seq<Event>, next: nat, now: nat, deadline: nat, j: int)
    requires next <= j < |events|
  {
    Free(events, next, now, j) < events[j].at && deadline <= events[j].at
  }

  /** That did not happen up to event k. */
  predicate Handled(events: seq<Event>, next: nat, now: nat, deadline: nat, k: nat)
    requires next <= k < |events|
  {
    forall j :: next <= j <= k ==> !IdleAt(events, next, now, deadline, j)
  }

  lemma {:induction false} FreeAfterOne(events: seq<Event>, next: nat, now: nat, k: nat)
    requires next < k <= |events|
    ensures Free(events, next, now, k)
         == Free(events, next + 1, (if now < events[next].at then events[next].at else now) + Cost(events[next]), k)
    decreases k
  {
    if k > next + 1 {
      FreeAfterOne(events, next, now, k - 1);
    }
  }

  lemma HandledDue(events: seq<Event>, next: nat, now: nat, deadline: nat, k: nat)
    requires next < k < |events| && events[next].at <= now
    ensures Handled(events, next, now, deadline, k)
            <==> Handled(events, next + 1, now + Cost(events[next]), deadline, k)
  {
    var later := now + Cost(events[next]);
    var after := next + 1;
    assert !IdleAt(events, next, now, deadline, next);
    if Handled(events, next, now, deadline, k) {
      forall j | after <= j <= k ensures !IdleAt(events, after, later, deadline, j) {
        FreeAfterOne(events, next, now, j);
        assert !IdleAt(events, next, now, deadline, j);
      }
    }
    if Handled(events, next + 1, later, deadline, k) {
      forall j | next <= j <= k ensures !IdleAt(events, next, now, deadline, j) {
        if j > next {
          FreeAfterOne(events, next, now, j);
          assert !IdleAt(events, after, later, deadline, j);
        }
      }
    }
  }

  lemma HandledBlocks(events: seq<Event>, next: nat, now: nat, deadline: nat, k: nat)
    requires next <= k < |events| && now < events[next].at < deadline
    ensures Handled(events, next, now, deadline, k) <==> Handled(events, next, events[next].at, deadline, k)
  {
    forall j | next <= j <= k
      ensures IdleAt(events, next, now, deadline, j) <==> IdleAt(events, next, events[next].at, deadline, j)
    {
      if next < j {
        FreeAfterOne(events, next, now, j);
        FreeAfterOne(events, next, events[next].at, j);
      }
    }
  }

  lemma ReachStep(events: seq<Event>, next: nat, now: nat, deadline: nat)
    requires next < |events|
    ensures events[next].at <= now ==>
              && next < Reach(events, next, now, deadline)
              && Reach(events, next, now, deadline) == Reach(events, next + 1, now + Cost(events[next]), deadline)
    ensures now < events[next].at ==>
              Reach(events, next, now, deadline)
              == if deadline <= events[next].at then next else Reach(events, next, events[next].at, deadline)
  {
  }

  /** An event is handled before the timer can fire exactly when the thread was never idle at
      or after the deadline before that: in time, or in one go with something in time. */
  lemma {:induction false} HandledIff(events: seq<Event>, next: nat, now: nat, deadline: nat, k: nat)
    requires next <= k < |events|
    ensures k < Reach(events, next, now, deadline) <==> Handled(events, next, now, deadline, k)
    decreases |events| - next, if now < events[next].at then 1 else 0
  {
    ReachStep(events, next, now, deadline);
    if events[next].at <= now {
      if k > next {
        HandledDue(events, next, now, deadline, k);
        HandledIff(events, next + 1, now + Cost(events[next]), deadline, k);
      }
    } else if events[next].at < deadline {
      HandledBlocks(events, next, now, deadline, k);
      HandledIff(events, next, events[next].at, deadline, k);
    } else {
      assert IdleAt(events, next, now, deadline, next);
    }
  }

  /** Event j has arrived when the thread comes to it. */
  predicate Due(events: seq<Event>, next: nat, now: nat, j: int)
    requires next <= j < |events|
  {
    events[j].at <= Free(events, next, now, j)
  }

  /** From event i up to event n the thread goes from one to the next without a pause. */
  predicate NotIdle(events: seq<Event>, next: nat, now: nat, i: nat, n: nat)
    requires next <= i <= n <= |events|
  {
    forall j :: i <= j < n ==> Due(events, next, now, j)
  }

  /** The thread's first pause after the first completion comes after n events. */
  ghost predicate FirstPause(events: seq<Event>, start: nat, n: nat) {
    && n <= |events| && (n < |events| ==> Free(events, 0, start, n) < events[n].at)
    && exists f :: 0 <= f < n && Done(events[f]) && !Completes(events, 0, f) && NotIdle(events, 0, start, f + 1, n)
  }

  lemma {:induction false} DrainIsFree(events: seq<Event>, next: nat, now: nat)
    requires next <= |events|
    ensures
      var r := Drain(events, next, now);
      r.1 == Free(events, next, now, r.0) && NotIdle(events, next, now, next, r.0)
    decreases |events| - next
  {
    if next < |events| && events[next].at <= now {
      var later, n := now + Cost(events[next]), Drain(events, next, now).0;
      DrainIsFree(events, next + 1, later);
      FreeAfterOne(events, next, now, n);
      forall j | next <= j < n ensures Due(events, next, now, j) {
        if j > next {
          assert Due(events, next + 1, later, j);
          FreeAfterOne(events, next, now, j);
        }
      }
    }
  }

  /** Where a drain begins: right after the one before, or woken by the next event. */
  predicate Resumes(events: seq<Event>, start: nat, i: nat, now: nat) {
    && i <= |events|
    && (now == Free(events, 0, start, i) || (i < |events| && Free(events, 0, start, i) < now == events[i].at))
  }

  lemma {:induction false} FreeResumed(events: seq<Event>, start: nat, i: nat, now: nat, k: nat)
    requires i < k <= |events| && Resumes(events, start, i, now)
    ensures Free(events, i, now, k) == Free(events, 0, start, k)
    decreases k
  {
    if k > i + 1 {
      FreeResumed(events, start, i, now, k - 1);
    }
  }

  /** A drain that handles the first completion ends at that pause. */
  lemma DrainsToThePause(events: seq<Event>, start: nat, i: nat, now: nat, n: nat)
    requires i < n <= |events| && Resumes(events, start, i, now) && NotIdle(events, i, now, i, n)
    requires !Completes(events, 0, i) && Completes(events, 0, n)
    requires n < |events| ==> Free(events, i, now, n) < events[n].at
    ensures FirstPause(events, start, n)
  {
    FreeResumed(events, start, i, now, n);
    var f := FirstOf(events, n);
    assert f >= i;
    forall j | f + 1 <= j < n ensures Due(events, 0, start, j) {
      assert Due(events, i, now, j);
      FreeResumed(events, start, i, now, j);
    }
  }

  lemma {:induction false} FirstOf(events: seq<Event>, n: nat) returns (f: nat)
    requires n <= |events| && Completes(events, 0, n)
    ensures f < n && Done(events[f]) && !Completes(events, 0, f)
    decreases n
  {
    if Completes(events, 0, n - 1) {
      f := FirstOf(events, n - 1);
    } else {
      f := n - 1;
    }
  }

  /** The same drain in the dispatcher's loop. The quit it may contain does not stop it. */
  method SendPosted(events: seq<Event>, next: nat, now: nat, quit: bool)
    returns (next': nat, now': nat, quit': bool)
    requires next <= |events|
    ensures (next', now') == Drain(events, next, now)
    ensures quit' <==> quit || Completes(events, next, next')
    ensures now' == now + Busy(events, next') - Busy(events, next)
  {
    next', now', quit' := next, now, quit;
    while next' < |events| && events[next'].at <= now'
      invariant next <= next' <= |events| && Drain(events, next, now) == Drain(events, next', now')
      invariant quit' <==> quit || Completes(events, next, next')
      invariant now' == now + Busy(events, next') - Busy(events, next)
    {
      match events[next'].what {
        case UnloadFinished => quit' := true;
        case Work(ms) => now' := now' + ms;
      }
      next' := next' + 1;
    }
  }

  /** n events handled by the time now, none of them late. */
  predicate Caught(events: seq<Event>, start: nat, deadline: nat, n: nat, now: nat) {
    && n <= |events| && start <= now <= deadline + Busy(events, n) && n <= Reach(events, 0, start, deadline)
    && forall k :: 0 <= k < n ==> events[k].at <= now
  }

  /** The loop is about to drain, and no completion was handled yet. */
  predicate Waiting(events: seq<Event>, start: nat, deadline: nat, n: nat, now: nat) {
    && Caught(events, start, deadline, n, now) && now <= deadline && Resumes(events, start, n, now)
    && !Completes(events, 0, n) && Reach(events, n, now, deadline) == Reach(events, 0, start, deadline)
  }

  /** It has drained, and still none was. */
  predicate Drained(events: seq<Event>, start: nat, deadline: nat, n: nat, now: nat) {
    && Caught(events, start, deadline, n, now) && now == Free(events, 0, start, n)
    && (n < |events| ==> now < events[n].at)
    && !Completes(events, 0, n) && Reach(events, n, now, deadline) == Reach(events, 0, start, deadline)
  }

  /** It has returned: for a completion, or because the timer fired. */
  ghost predicate Over(events: seq<Event>, start: nat, deadline: nat, active: bool, n: nat, now: nat) {
    && Caught(events, start, deadline, n, now) && (active <==> Completes(events, 0, n))
    && (active ==> now == Free(events, 0, start, n) && FirstPause(events, start, n))
    && (!active ==> n == Reach(events, 0, start, deadline) && now == Later(Free(events, 0, start, n), deadline))
  }

  function Later(a: nat, b: nat): nat { if a < b then b else a }

  lemma AfterDrain(events: seq<Event>, start: nat, deadline: nat, n: nat, now: nat)
    requires Waiting(events, start, deadline, n, now)
    ensures
      var r := Drain(events, n, now);
      if Completes(events, n, r.0) then Over(events, start, deadline, true, r.0, r.1)
      else Drained(events, start, deadline, r.0, r.1)
  {
    var r := Drain(events, n, now);
    DrainedAt(events, n, now);
    DrainIsFree(events, n, now);
    DrainIsBusy(events, n, now);
    DrainTwice(events, n, now, deadline);
    if n < r.0 {
      FreeResumed(events, start, n, now, r.0);
    }
    if Completes(events, n, r.0) {
      DrainsToThePause(events, start, n, now, r.0);
    }
  }

  lemma {:induction false} DrainIsBusy(events: seq<Event>, next: nat, now: nat)
    requires next <= |events|
    ensures var r := Drain(events, next, now); r.1 == now + Busy(events, r.0) - Busy(events, next)
    decreases |events| - next
  {
    if next < |events| && events[next].at <= now {
      DrainIsBusy(events, next + 1, now + Cost(events[next]));
    }
  }

  lemma DrainTwice(events: seq<Event>, next: nat, now: nat, deadline: nat)
    requires next <= |events|
    ensures
      var r := Drain(events, next, now);
      Drain(events, r.0, r.1) == r && Reach(events, r.0, r.1, deadline) == Reach(events, next, now, deadline)
  {
  }

  /** Nothing is due: the loop blocks until the next event, or the timer fires. */
  lemma AfterBlock(events: seq<Event>, start: nat, deadline: nat, n: nat, now: nat)
    requires Drained(events, start, deadline, n, now)
    ensures now < deadline && n < |events| && events[n].at < deadline ==>
              Waiting(events, start, deadline, n, events[n].at)
    ensures deadline <= now || n == |events| || deadline <= events[n].at ==>
              Over(events, start, deadline, false, n, Later(now, deadline))
  {
  }

  /** A completion handled by then is one the wait sees. */
  lemma OverMeans(events: seq<Event>, start: nat, grace: nat, active: bool, n: nat, now: nat)
    requires Over(events, start, start + grace, active, n, now)
    ensures active <==> Sees(events, start, grace)
  {
  }

  /** The nested loop against the timer: when it returns and how many events it handled.
      The timer is still active exactly when a completion made it return; it then returns as
      soon as the thread first pauses after the first completion, and else at the deadline,
      or when what it was handling then is done. */
  method Exec(events: seq<Event>, start: nat, grace: nat) returns (active: bool, end: nat, handled: nat)
    ensures handled <= |events| && start <= end <= start + grace + Busy(events, handled)
    ensures forall k :: 0 <= k < handled ==> events[k].at <= end
    ensures active <==> Completes(events, 0, handled)
    ensures active <==> Sees(events, start, grace)
    ensures !active ==> start + grace <= end && handled == Reach(events, 0, start, start + grace)
    ensures active ==> end == Free(events, 0, start, handled) && FirstPause(events, start, handled)
    ensures !active ==> end == Later(Free(events, 0, start, handled), start + grace)
  {
    var deadline := start + grace;
    var quit := false;
    active, end, handled := true, start, 0;
    while !quit
      invariant if quit then Over(events, start, deadline, active, handled, end)
                else active && Waiting(events, start, deadline, handled, end)
      decreases !quit, |events| - handled, deadline - end
    {
      AfterDrain(events, start, deadline, handled, end);
      handled, end, quit := SendPosted(events, handled, end, quit);
      if !quit {
        AfterBlock(events, start, deadline, handled, end);
        // nothing is due: block until the next post or the timer, then activate timers
        if handled < |events| && events[handled].at < deadline {
          end := Later(end, events[handled].at);
        } else {
          end := Later(end, deadline);
        }
        if deadline <= end {
          active := false;
          quit := true;
        }
      }
    }
    OverMeans(events, start, grace, active, handled, end);
  }

  /** runPluginAboutToUnload. It finishes exactly when a completion is handled before the
      timer can fire, so one that arrives before the deadline is delivered, also when it was
      posted before the loop began; "finished" means the deadline had not fired; and the
      wait is the grace period plus the handlers' own time at most. */
  method RunPluginAboutToUnload(plugin: Option<Plugin>, grace: nat, start: nat, events: seq<Event>)
    returns (outcome: Outcome, end: nat, ghost handled: nat)
    requires Sorted(events)
    ensures outcome.NullPlugin? <==> plugin.None?
    ensures outcome.NoHook? <==> plugin.Some? && plugin.value.hook.None?
    ensures outcome.Synchronous? <==> plugin.Some? && plugin.value.hook == Some(0)
    ensures outcome.NoSignal? <==>
              plugin.Some? && plugin.value.hook.Some? && plugin.value.hook != Some(0) && !plugin.value.signal
    ensures outcome.Finished? || outcome.GaveUp? <==> Waits(plugin)
    ensures !Waits(plugin) ==> end == start
    ensures handled <= |events| && start <= end <= start + grace + Busy(events, handled)
    ensures outcome == Finished <==> Waits(plugin) && Sees(events, start, grace)
    ensures Waits(plugin) && (exists k :: 0 <= k < |events| && Done(events[k]) && events[k].at < start + grace) ==>
              outcome == Finished
    ensures outcome == Finished ==> exists k :: 0 <= k < handled && Done(events[k]) && events[k].at <= end
    ensures outcome == Finished ==> end == Free(events, 0, start, handled) && FirstPause(events, start, handled)
    ensures outcome == GaveUp ==>
              && start + grace <= end
              && handled == Reach(events, 0, start, start + grace)
              && end == Later(Free(events, 0, start, handled), start + grace)
              && forall k :: 0 <= k < |events| && Done(events[k]) ==> k >= handled && start + grace <= events[k].at
  {
    handled := 0;
    end := start;
    if plugin.None? {
      return NullPlugin, end, handled;
    }
    if plugin.value.hook.None? {
      return NoHook, end, handled;
    }
    if plugin.value.hook.value == 0 {
      return Synchronous, end, handled;
    }
    if !plugin.value.signal {
      return NoSignal, end, handled;
    }
    ReachCovers(events, 0, start, start + grace);
    var active;
    active, end, handled := Exec(events, start, grace);
    outcome := if active then Finished else GaveUp;
  }

  // ---------------------------------------------------------------------------
  // The emitted hook
  // ---------------------------------------------------------------------------

  /** Up to the answer: the callback is installed; something is posted to the plugin's thread
      or the module signals; the request runs that thread's event loop. */
  datatype Act = Install | Occurs(event: Event) | Pump

  /** What happens while the module is asked. */
  type Moment = act: Act | !act.Install? witness Pump

  /** The plugin's thread before the host connects: whether the module has its callback, and
      what is posted. */
  datatype Hook = Hook(installed: bool, queue: seq<Event>)

  /** A signal without a callback goes nowhere; an event loop that runs now handles all that
      is posted, with nothing connected to the signal it emits. */
  function Do(h: Hook, act: Act): Hook {
    match act
    case Install => h.(installed := true)
    case Pump => h.(queue := [])
    case Occurs(e) => if Done(e) && !h.installed then h else h.(queue := h.queue + [e])
  }

  function DoAll(h: Hook, acts: seq<Act>): Hook {
    if acts == [] then h else Do(DoAll(h, acts[..|acts| - 1]), acts[|acts| - 1])
  }

  /** The order of the hook's two lines. The glue emits the callback first. */
  datatype Order = InstallFirst | AskFirst

  function Lines(order: Order, request: seq<Moment>): seq<Act> {
    if order == InstallFirst then [Install] + request else request + [Install]
  }

  /** What the wait finds posted. */
  function Posted(order: Order, request: seq<Moment>): seq<Event> {
    DoAll(Hook(false, []), Lines(order, request)).queue
  }

  // what that is, said of the request alone

  /** The moment's event outlives the request: the loop does not run again before the answer. */
  predicate Lasts(request: seq<Moment>, k: int) {
    0 <= k < |request| && request[k].Occurs? && forall j :: k < j < |request| ==> !request[j].Pump?
  }

  ghost predicate Outlasts(request: seq<Moment>, e: Event) { exists k :: Lasts(request, k) && request[k].event == e }

  ghost predicate Signals(request: seq<Moment>) { exists e :: Outlasts(request, e) && Done(e) }

  /** The handlers' time still owed when the request answers. */
  function Backlog(request: seq<Moment>): nat {
    if request == [] then 0
    else
      var last := request[|request| - 1];
      if last.Pump? then 0 else Backlog(request[..|request| - 1]) + Cost(last.event)
  }

  /** The posted events after part of the request. */
  function Kept(request: seq<Moment>, installed: bool): seq<Event> {
    if request == [] then []
    else
      var front, last := request[..|request| - 1], request[|request| - 1];
      if last.Pump? then []
      else if Done(last.event) && !installed then Kept(front, installed)
      else Kept(front, installed) + [last.event]
  }

  lemma {:induction false} AskingKeeps(h: Hook, request: seq<Moment>)
    requires h.queue == []
    ensures DoAll(h, request) == Hook(h.installed, Kept(request, h.installed))
  {
    if request != [] {
      AskingKeeps(h, request[..|request| - 1]);
    }
  }

  lemma {:induction false} InstallingFirst(h: Hook, acts: seq<Act>)
    ensures DoAll(h, [Install] + acts) == DoAll(h.(installed := true), acts)
  {
    if acts == [] {
      assert ([Install] + acts)[..0] == [];
      assert DoAll(h, ([Install] + acts)[..0]) == h;
    } else {
      assert ([Install] + acts)[..|acts|] == [Install] + acts[..|acts| - 1];
      InstallingFirst(h, acts[..|acts| - 1]);
    }
  }

  lemma PostedIsKept(order: Order, request: seq<Moment>)
    ensures Posted(order, request) == Kept(request, order == InstallFirst)
  {
    if order == InstallFirst {
      InstallingFirst(Hook(false, []), request);
      AskingKeeps(Hook(true, []), request);
    } else {
      var acts := request + [Install];
      assert acts[..|acts| - 1] == request;
      AskingKeeps(Hook(false, []), request);
    }
  }

  lemma OutlastsSnoc(request: seq<Moment>, e: Event)
    requires request != []
    ensures
      var front, last := request[..|request| - 1], request[|request| - 1];
      Outlasts(request, e) <==> last.Occurs? && (last.event == e || Outlasts(front, e))
  {
    var n := |request| - 1;
    var front, last := request[..n], request[n];
    if last.Occurs? {
      assert Lasts(request, n);
      if k :| Lasts(front, k) && front[k].event == e {
        assert Lasts(request, k);
      }
      if k :| Lasts(request, k) && request[k].event == e && k < n {
        assert Lasts(front, k);
      }
    }
  }

  lemma {:induction false} KeptIff(request: seq<Moment>, installed: bool, e: Event)
    ensures e in Kept(request, installed) <==> (Done(e) ==> installed) && Outlasts(request, e)
  {
    if request != [] {
      OutlastsSnoc(request, e);
      KeptIff(request[..|request| - 1], installed, e);
    }
  }

  lemma {:induction false} KeptBusy(request: seq<Moment>, installed: bool)
    ensures Busy(Kept(request, installed), |Kept(request, installed)|) == Backlog(request)
  {
    if request != [] {
      var front, last := request[..|request| - 1], request[|request| - 1];
      KeptBusy(front, installed);
      if last.Occurs? && (!Done(last.event) || installed) {
        BusySnoc(Kept(front, installed), last.event);
      }
    }
  }

  lemma BusySnoc(events: seq<Event>, e: Event)
    ensures Busy(events + [e], |events| + 1) == Busy(events, |events|) + Cost(e)
  {
    BusyPrefix(events, [e], |events|);
  }

  lemma {:induction false} BusyPrefix(events: seq<Event>, more: seq<Event>, n: nat)
    requires n <= |events|
    ensures Busy(events + more, n) == Busy(events, n)
  {
    if n > 0 {
      BusyPrefix(events, more, n - 1);
    }
  }

  /** What the emitted hook leaves for the wait: of what was posted or signalled in the
      request, whatever came after the request last ran the loop; asked first, no signal. */
  lemma PostedIff(order: Order, request: seq<Moment>, e: Event)
    ensures e in Posted(order, request)
            <==> (Done(e) ==> order == InstallFirst) && Outlasts(request, e)
  {
    PostedIsKept(order, request);
    KeptIff(request, order == InstallFirst, e);
  }

  // ---------------------------------------------------------------------------
  // What the wait sees of it
  // ---------------------------------------------------------------------------

  lemma {:induction false} DrainShift(queue: seq<Event>, rest: seq<Event>, k: nat, now: nat)
    requires k <= |rest|
    ensures
      var r := Drain(rest, k, now);
      Drain(queue + rest, |queue| + k, now) == (|queue| + r.0, r.1)
    decreases |rest| - k
  {
    if k < |rest| && rest[k].at <= now {
      DrainShift(queue, rest, k + 1, now + Cost(rest[k]));
    }
  }

  lemma {:induction false} DrainQueue(queue: seq<Event>, rest: seq<Event>, i: nat, now: nat)
    requires i <= |queue| && forall k :: i <= k < |queue| ==> queue[k].at <= now
    ensures Busy(queue, i) <= Busy(queue, |queue|)
    ensures Drain(queue + rest, i, now)
         == Drain(queue + rest, |queue|, now + Busy(queue, |queue|) - Busy(queue, i))
    decreases |queue| - i
  {
    if i < |queue| {
      DrainQueue(queue, rest, i + 1, now + Cost(queue[i]));
    }
  }

  lemma {:induction false} ReachShift(queue: seq<Event>, rest: seq<Event>, k: nat, now: nat, deadline: nat)
    requires k <= |rest|
    ensures Reach(queue + rest, |queue| + k, now, deadline) == |queue| + Reach(rest, k, now, deadline)
    decreases |rest| - k, if k < |rest| && now < rest[k].at then 1 else 0
  {
    DrainShift(queue, rest, k, now);
    var (handled, ended) := Drain(rest, k, now);
    if !(deadline <= ended || handled == |rest| || deadline <= rest[handled].at) {
      ReachShift(queue, rest, handled, rest[handled].at, deadline);
    }
  }

  predicate AllPast(queue: seq<Event>, start: nat) { forall k :: 0 <= k < |queue| ==> queue[k].at <= start }

  predicate HasSignal(queue: seq<Event>) { exists e :: e in queue && Done(e) }

  /** What is posted when the wait begins is handled first, whatever the deadline. */
  lemma QueueFirst(queue: seq<Event>, rest: seq<Event>, start: nat, deadline: nat)
    requires AllPast(queue, start)
    ensures Reach(queue + rest, 0, start, deadline)
         == |queue| + Reach(rest, 0, start + Busy(queue, |queue|), deadline)
  {
    DrainQueue(queue, rest, 0, start);
    ReachShift(queue, rest, 0, start + Busy(queue, |queue|), deadline);
  }

  /** A completion among later arrivals is handled before the timer can fire. */
  ghost predicate SeenLater(rest: seq<Event>, now: nat, deadline: nat) {
    exists k :: SeenAt(rest, now, deadline, k)
  }

  predicate SeenAt(rest: seq<Event>, now: nat, deadline: nat, k: int) {
    0 <= k < |rest| && Done(rest[k]) && Handled(rest, 0, now, deadline, k)
  }

  predicate Past(request: seq<Moment>, start: nat) {
    forall k :: 0 <= k < |request| && request[k].Occurs? ==> request[k].event.at <= start
  }

  /** The host sees the module's signal exactly when the emitted hook, installed first, let
      one through that the request did not handle itself, or a later one is handled before
      the timer can fire; behind what the request left to do. */
  lemma SeenIff(order: Order, request: seq<Moment>, rest: seq<Event>, start: nat, grace: nat)
    requires Past(request, start)
    ensures Sees(Posted(order, request) + rest, start, grace)
            <==> (order == InstallFirst && Signals(request))
                 || SeenLater(rest, start + Backlog(request), start + grace)
  {
    PostedPast(order, request, start);
    QueueSignals(order, request);
    SeesBehind(Posted(order, request), rest, start, start + Backlog(request), grace);
  }

  lemma SeesBehind(queue: seq<Event>, rest: seq<Event>, start: nat, now: nat, grace: nat)
    requires now == start + Busy(queue, |queue|) && AllPast(queue, start)
    ensures Sees(queue + rest, start, grace)
            <==> HasSignal(queue) || SeenLater(rest, now, start + grace)
  {
    QueueFirst(queue, rest, start, start + grace);
    CompletesApart(queue, rest, Reach(rest, 0, now, start + grace));
    LaterIff(rest, now, start + grace);
  }

  lemma PostedPast(order: Order, request: seq<Moment>, start: nat)
    requires Past(request, start)
    ensures
      var queue := Posted(order, request);
      AllPast(queue, start) && Busy(queue, |queue|) == Backlog(request)
  {
    var queue := Posted(order, request);
    PostedIsKept(order, request);
    KeptBusy(request, order == InstallFirst);
    forall k | 0 <= k < |queue| ensures queue[k].at <= start {
      PostedIff(order, request, queue[k]);
      var i :| Lasts(request, i) && request[i].event == queue[k];
    }
  }

  lemma LaterIff(rest: seq<Event>, now: nat, deadline: nat)
    ensures Completes(rest, 0, Reach(rest, 0, now, deadline)) <==> SeenLater(rest, now, deadline)
  {
    if k :| 0 <= k < Reach(rest, 0, now, deadline) && Done(rest[k]) {
      HandledIff(rest, 0, now, deadline, k);
      assert SeenAt(rest, now, deadline, k);
    }
    if k :| SeenAt(rest, now, deadline, k) {
      HandledIff(rest, 0, now, deadline, k);
    }
  }

  lemma CompletesApart(queue: seq<Event>, rest: seq<Event>, n: nat)
    requires n <= |rest|
    ensures Completes(queue + rest, 0, |queue| + n) <==> HasSignal(queue) || Completes(rest, 0, n)
  {
    if Completes(rest, 0, n) {
      var k :| 0 <= k < n && Done(rest[k]);
      assert (queue + rest)[|queue| + k] == rest[k];
    }
    if e :| e in queue && Done(e) {
      var k :| 0 <= k < |queue| && queue[k] == e;
      assert (queue + rest)[k] == e;
    }
    if k :| 0 <= k < |queue| + n && Done((queue + rest)[k]) {
      if k < |queue| {
        assert queue[k] in queue;
      } else {
        assert Done(rest[k - |queue|]);
      }
    }
  }

  lemma QueueSignals(order: Order, request: seq<Moment>)
    ensures HasSignal(Posted(order, request)) <==> order == InstallFirst && Signals(request)
  {
    if e :| e in Posted(order, request) && Done(e) {
      PostedIff(order, request, e);
    }
    if order == InstallFirst && Signals(request) {
      var e :| Outlasts(request, e) && Done(e);
      PostedIff(order, request, e);
    }
  }

  /** The hook. Only a protocol with a teardown surface is asked at all. */
  method AboutToUnload(order: Order, surface: bool, answer: int, request: seq<Moment>)
    returns (flag: int, queue: seq<Event>)
    ensures flag == if surface then answer else 0
    ensures surface ==>
              && queue == Posted(order, request)
              && forall e :: e in queue <==>
                   (Done(e) ==> order == InstallFirst) && Outlasts(request, e)
    ensures !surface ==> queue == []
  {
    if !surface {
      return 0, [];
    }
    flag := answer;
    queue := Posted(order, request);
    forall e
      ensures e in queue <==>
              (Done(e) ==> order == InstallFirst) && Outlasts(request, e)
    {
      PostedIff(order, request, e);
    }
  }

  /** The whole teardown of a module that answers Asynchronous: what its request does, in any
      order, what comes after it, and the exact outcome. */
  method Teardown(order: Order, answer: int, request: seq<Moment>, rest: seq<Event>, start: nat, grace: nat)
    returns (outcome: Outcome, end: nat)
    requires Past(request, start) && Sorted(Posted(order, request) + rest)
    ensures answer == 0 ==> outcome == Synchronous && end == start
    ensures answer != 0 ==> outcome.Finished? || outcome.GaveUp?
    ensures answer != 0 ==>
              (outcome == Finished <==> (order == InstallFirst && Signals(request))
                                        || SeenLater(rest, start + Backlog(request), start + grace))
    ensures answer != 0 && (exists k :: 0 <= k < |rest| && Done(rest[k]) && rest[k].at < start + grace) ==>
              outcome == Finished
    ensures outcome == GaveUp ==> start + grace <= end
    ensures
      var events := Posted(order, request) + rest;
      outcome == Finished ==>
        exists n :: FirstPause(events, start, n) && end == Free(events, 0, start, n)
    ensures
      var events := Posted(order, request) + rest;
      outcome == GaveUp ==>
        end == Later(Free(events, 0, start, Reach(events, 0, start, start + grace)), start + grace)
  {
    var flag, queue := AboutToUnload(order, true, answer, request);
    ghost var handled;
    outcome, end, handled := RunPluginAboutToUnload(Some(Plugin(Some(flag), true)), grace, start, queue + rest);
    SeenIff(order, request, rest, start, grace);
    if k :| 0 <= k < |rest| && Done(rest[k]) && rest[k].at < start + grace {
      assert (queue + rest)[|queue| + k] == rest[k];
    }
  }

  /** Where the emitted order makes the difference: it sees a completion, and asking first
      does not, exactly when the request signalled after it last ran the loop, and no later
      signal is seen. */
  lemma OrderMattersIff(request: seq<Moment>, rest: seq<Event>, start: nat, grace: nat)
    requires Past(request, start)
    ensures
      && Sees(Posted(InstallFirst, request) + rest, start, grace)
      && !Sees(Posted(AskFirst, request) + rest, start, grace)
      <==> Signals(request) && !SeenLater(rest, start + Backlog(request), start + grace)
  {
    SeenIff(InstallFirst, request, rest, start, grace);
    SeenIff(AskFirst, request, rest, start, grace);
  }

  predicate SignalsAt(request: seq<Moment>, k: int) {
    0 <= k < |request| && request[k].Occurs? && Done(request[k].event)
  }

  /** What is lost in spite of it: a request that signals and is not seen has run the loop
      again after every signal it gave, and no later one is seen; and conversely. */
  lemma PumpingLosesIff(request: seq<Moment>, rest: seq<Event>, start: nat, grace: nat)
    requires Past(request, start)
    ensures
      && (exists k :: SignalsAt(request, k)) && !Sees(Posted(InstallFirst, request) + rest, start, grace)
      <==>
      && (exists k :: SignalsAt(request, k))
      && (forall k :: SignalsAt(request, k) ==> exists j :: k < j < |request| && request[j].Pump?)
      && !SeenLater(rest, start + Backlog(request), start + grace)
  {
    SeenIff(InstallFirst, request, rest, start, grace);
    SignalsIff(request);
  }

  lemma SignalsIff(request: seq<Moment>)
    ensures Signals(request) <==>
            exists k :: SignalsAt(request, k) && forall j :: k < j < |request| ==> !request[j].Pump?
  {
    if Signals(request) {
      var e :| Outlasts(request, e) && Done(e);
      var k :| Lasts(request, k) && request[k].event == e;
      assert SignalsAt(request, k);
    }
    if k :| SignalsAt(request, k) && forall j :: k < j < |request| ==> !request[j].Pump? {
      assert Lasts(request, k);
      assert Outlasts(request, request[k].event);
    }
  }

  /** For instance: a completion inside the request, after which the request runs the loop
      once more. The host then waits out the whole grace period for a module that is done. */
  method InlineCompletionLost(done: nat, start: nat, grace: nat) returns (outcome: Outcome, end: nat)
    requires done <= start
    ensures outcome == GaveUp && start + grace <= end
  {
    var request := [Occurs(Event(done, UnloadFinished)), Pump];
    SignalsIff(request);
    assert request[1].Pump? && !SignalsAt(request, 1);
    PostedIsKept(InstallFirst, request);
    outcome, end := Teardown(InstallFirst, 1, request, [], start, grace);
  }

  /** And without that, it would have finished. */
  lemma InlineCompletionSeen(done: nat, start: nat, grace: nat)
    requires done <= start
    ensures Sees(Posted(InstallFirst, [Occurs(Event(done, UnloadFinished))]) + [], start, grace)
  {
    var request := [Occurs(Event(done, UnloadFinished))];
    SignalsIff(request);
    assert SignalsAt(request, 0);
    SeenIff(InstallFirst, request, [], start, grace);
  }
}
