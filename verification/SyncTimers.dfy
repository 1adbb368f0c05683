/** The timers of a synchronizer: how often each component is synchronized, and when that last happened. */
module SyncTimers {
  import opened ComponentSync

  datatype Timers = Timers(rates: map<Component, int>, lastSync: map<Component, int>)

  datatype Event = Update(now: int) | SetRate(c: Component, interval: int)

  /** The components whose time has come. */
  function DueAt(t: Timers, now: int): (due: set<Component>)
    ensures forall c :: c in due <==> c in t.rates && c in t.lastSync && now - t.lastSync[c] >= t.rates[c]
  {
    set c | c in t.rates && c in t.lastSync && now - t.lastSync[c] >= t.rates[c]
  }

  function After(t: Timers, e: Event): Timers {
    match e
    case Update(now) => t.(lastSync := map c | c in t.lastSync :: if c in DueAt(t, now) then now else t.lastSync[c])
    case SetRate(c, interval) => t.(rates := t.rates[c := interval])
  }

  function Start(components: set<Component>, rate: int): Timers {
    Timers(map c | c in components :: rate, map c | c in components :: 0)
  }

  function AfterAll(components: set<Component>, rate: int, events: seq<Event>): Timers {
    if events == [] then Start(components, rate)
    else After(AfterAll(components, rate, events[..|events| - 1]), events[|events| - 1])
  }

  // ----- the reference

  ghost predicate IsDue(components: set<Component>, rate: int, events: seq<Event>, i: nat, c: Component)
    requires i < |events|
  {
    events[i].Update? && c in DueAt(AfterAll(components, rate, events[..i]), events[i].now)
  }

  /** The interval that was set last, or else the first one. */
  function RateOf(rate: int, events: seq<Event>, c: Component): int {
    if events == [] then rate
    else
      var last := events[|events| - 1];
      if last.SetRate? && last.c == c then last.interval else RateOf(rate, events[..|events| - 1], c)
  }

  /** Rates are set for the components, and the clock starts at zero and never goes back. */
  ghost predicate InOrder(components: set<Component>, events: seq<Event>) {
    && (forall i :: 0 <= i < |events| && events[i].SetRate? ==> events[i].c in components)
    && (forall i :: 0 <= i < |events| && events[i].Update? ==> events[i].now >= 0)
    && (forall i, j :: 0 <= i < j < |events| && events[i].Update? && events[j].Update? ==>
          events[i].now <= events[j].now)
  }

  /** Zero, or the time of an update in which c was due, with no such update later. */
  ghost predicate IsLastDue(components: set<Component>, rate: int, events: seq<Event>, n: nat, c: Component, time: int)
    requires n <= |events|
  {
    || (time == 0 && forall i :: 0 <= i < n ==> !IsDue(components, rate, events, i, c))
    || exists i :: 0 <= i < n && events[i].Update? && events[i].now == time && IsDue(components, rate, events, i, c)
                   && forall j :: i < j < n ==> !IsDue(components, rate, events, j, c)
  }

  lemma LastDueOfMore(components: set<Component>, rate: int, events: seq<Event>, n: nat, c: Component, time: int)
    requires n < |events|
    requires if IsDue(components, rate, events, n, c) then events[n].Update? && time == events[n].now
             else IsLastDue(components, rate, events, n, c, time)
    ensures IsLastDue(components, rate, events, n + 1, c, time)
  {
    hide IsDue;
    if IsDue(components, rate, events, n, c) {
    } else if i :| 0 <= i < n && events[i].Update? && events[i].now == time && IsDue(components, rate, events, i, c)
                   && forall j :: i < j < n ==> !IsDue(components, rate, events, j, c) {
      assert forall j :: i < j < n + 1 ==> !IsDue(components, rate, events, j, c);
    }
  }

  /** What the timers hold, read off the events. */
  lemma {:induction false} TimersTell(components: set<Component>, rate: int, events: seq<Event>, n: nat, c: Component)
    requires InOrder(components, events) && n <= |events| && c in components
    ensures var t := AfterAll(components, rate, events[..n]);
            && t.rates.Keys == t.lastSync.Keys == components
            && t.rates[c] == RateOf(rate, events[..n], c)
            && IsLastDue(components, rate, events, n, c, t.lastSync[c])
  {
    hide IsDue, IsLastDue;
    if n == 0 {
      NeverDue(components, rate, events, c);
    } else {
      assert events[..n][..n - 1] == events[..n - 1];
      TimersTell(components, rate, events, n - 1, c);
      DueIs(components, rate, events, n - 1, c);
      LastDueOfMore(components, rate, events, n - 1, c, AfterAll(components, rate, events[..n]).lastSync[c]);
    }
  }

  lemma NeverDue(components: set<Component>, rate: int, events: seq<Event>, c: Component)
    ensures IsLastDue(components, rate, events, 0, c, 0)
  {
  }

  lemma DueIs(components: set<Component>, rate: int, events: seq<Event>, i: nat, c: Component)
    requires i < |events|
    ensures IsDue(components, rate, events, i, c)
            <==> events[i].Update? && c in DueAt(AfterAll(components, rate, events[..i]), events[i].now)
  {
  }

  /**
    A component is due in an update if and only if as much time as its present rate has passed since the clock's zero,
    and since every earlier update in which it was due.
   */
  lemma DueIff(components: set<Component>, rate: int, events: seq<Event>, n: nat, c: Component)
    requires InOrder(components, events) && n < |events| && events[n].Update? && c in components
    ensures var now, interval := events[n].now, RateOf(rate, events[..n], c);
            IsDue(components, rate, events, n, c) <==>
              && now >= interval
              && forall i :: 0 <= i < n && events[i].Update? && IsDue(components, rate, events, i, c) ==>
                               now - events[i].now >= interval
  {
    hide IsDue, AfterAll;
    TimersTell(components, rate, events, n, c);
    DueIs(components, rate, events, n, c);
  }

  /** From one update in which it is due, the next one is the first that is late enough. */
  lemma NextDue(components: set<Component>, rate: int, events: seq<Event>, i: nat, n: nat, c: Component)
    requires InOrder(components, events) && i < n < |events| && events[i].Update? && events[n].Update?
    requires c in components && IsDue(components, rate, events, i, c)
    requires forall j :: i < j < n ==> !IsDue(components, rate, events, j, c)
    ensures IsDue(components, rate, events, n, c) <==>
              events[n].now >= events[i].now + RateOf(rate, events[..n], c)
  {
    hide IsDue, AfterAll;
    DueIff(components, rate, events, n, c);
  }

  /** No component waits for longer than its rate, and none is due twice within it. */
  lemma RateIsKept(components: set<Component>, rate: int, events: seq<Event>, i: nat, n: nat, c: Component)
    requires InOrder(components, events) && i < n < |events| && events[i].Update? && events[n].Update?
    requires c in components && IsDue(components, rate, events, i, c)
    ensures var interval := RateOf(rate, events[..n], c);
            if events[n].now < events[i].now + interval then !IsDue(components, rate, events, n, c)
            else exists j :: i < j <= n && IsDue(components, rate, events, j, c)
  {
    hide IsDue, AfterAll;
    DueIff(components, rate, events, n, c);
    if forall j :: i < j < n ==> !IsDue(components, rate, events, j, c) {
      NextDue(components, rate, events, i, n, c);
    }
  }
}
